/**
  The indicator mapping: hue degrees to the ColorControl hue byte, a level
  percent to the LevelControl CurrentLevel byte, and the table from an air
  quality level to the light setting shown for it.
 */
module Indicator {
  import opened AirQualityLevels

  /**
    `HueDegreesToUInt8` for whole, non-negative degrees: wrap to [0, 360),
    scale to [0, 256) and round half up.
   */
  function HueDegreesToUInt8(degrees: nat): (r: int)
    ensures 0 <= r <= 255
    ensures var scaled := ((degrees % 360) as real / 360.0) * 256.0;
            r as real - 0.5 <= scaled < r as real + 0.5
  {
    var wrapped := degrees % 360;
    var scaled := (wrapped as real / 360.0) * 256.0;
    (scaled + 0.5).Floor
  }

  /** Level percents a float-to-uint8 conversion in `SetLightLevelPercent` is defined on. */
  predicate IsPercent(p: real)
  {
    0.0 <= p <= 100.0
  }

  /**
    `SetLightLevelPercent`'s byte: the percent scaled onto the 253 steps above
    0x01, truncated, plus 0x01, so that 0x00 is never produced.
   */
  function LevelPercentToByte(p: real): (r: int)
    requires IsPercent(p)
    ensures 1 <= r <= 254
    ensures (r - 1) as real <= p * 253.0 / 100.0 < r as real
  {
    ((p / 100.0) * 253.0).Floor + 1
  }

  /** A brighter percent never gives a dimmer CurrentLevel. */
  lemma LevelPercentMonotone(a: real, b: real)
    requires IsPercent(a) && IsPercent(b) && a <= b
    ensures LevelPercentToByte(a) <= LevelPercentToByte(b)
  {
  }

  /** The ends of the scale: 0% is the minimum level 0x01, 100% the maximum 0xFE. */
  lemma LevelPercentEnds()
    ensures LevelPercentToByte(0.0) == 0x01
    ensures LevelPercentToByte(100.0) == 0xFE
  {
  }

  /** What the indicator is set to for one air quality level. */
  datatype LightSetting = LightSetting(hue: int, saturation: int, levelPercent: real)

  /** Saturation used for every level (255 is reserved). */
  const FullSaturation: int := 254

  /** The hue, in degrees, named for each known level. */
  function HueDegrees(level: Level): nat
  {
    match level
    case Good => 120
    case Fair => 100
    case Moderate => 80
    case Poor => 60
    case VeryPoor => 30
    case ExtremelyPoor => 0
    case Unknown => 0
  }

  /** The switch in `SetLightByAirQuality`. */
  function LightSettingFor(level: Level): (s: LightSetting)
    ensures s.saturation == FullSaturation
    ensures 0 <= s.hue <= 255 && IsPercent(s.levelPercent)
    ensures level != Unknown ==> s.hue == HueDegreesToUInt8(HueDegrees(level))
    ensures level == Unknown ==> s.hue == 0 && s.levelPercent == 0.0
  {
    match level
    case Good => LightSetting(HueDegreesToUInt8(120), FullSaturation, 10.0)
    case Fair => LightSetting(HueDegreesToUInt8(100), FullSaturation, 10.0)
    case Moderate => LightSetting(HueDegreesToUInt8(80), FullSaturation, 15.0)
    case Poor => LightSetting(HueDegreesToUInt8(60), FullSaturation, 15.0)
    case VeryPoor => LightSetting(HueDegreesToUInt8(30), FullSaturation, 20.0)
    case ExtremelyPoor => LightSetting(HueDegreesToUInt8(0), FullSaturation, 30.0)
    case Unknown => LightSetting(0, FullSaturation, 0.0)
  }

  /** The table in bytes: hue and CurrentLevel for every level. */
  lemma LightTable()
    ensures LightSettingFor(Good).hue == 85 && LevelPercentToByte(LightSettingFor(Good).levelPercent) == 26
    ensures LightSettingFor(Fair).hue == 71 && LevelPercentToByte(LightSettingFor(Fair).levelPercent) == 26
    ensures LightSettingFor(Moderate).hue == 57 && LevelPercentToByte(LightSettingFor(Moderate).levelPercent) == 38
    ensures LightSettingFor(Poor).hue == 43 && LevelPercentToByte(LightSettingFor(Poor).levelPercent) == 38
    ensures LightSettingFor(VeryPoor).hue == 21 && LevelPercentToByte(LightSettingFor(VeryPoor).levelPercent) == 51
    ensures LightSettingFor(ExtremelyPoor).hue == 0 && LevelPercentToByte(LightSettingFor(ExtremelyPoor).levelPercent) == 76
    ensures LightSettingFor(Unknown).hue == 0 && LevelPercentToByte(LightSettingFor(Unknown).levelPercent) == 1
  {
  }

  /** Worse air is never shown dimmer, and among known levels never greener. */
  lemma WorseAirIsBrighterAndRedder(a: Level, b: Level)
    requires Rank(a) <= Rank(b)
    ensures LightSettingFor(a).levelPercent <= LightSettingFor(b).levelPercent
    ensures a != Unknown ==> LightSettingFor(b).hue <= LightSettingFor(a).hue
  {
    LightTable();
  }
}
