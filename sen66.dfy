/**
  The Sensirion SEN66 driver wrapper: the raw measurement frame, its sentinel
  values, and the decoding of a frame into scaled measurements.

  The bus read itself is not modelled: every operation takes the driver's
  status and the raw frame it filled in as inputs.
 */
module Sen66 {
  import opened Wrappers

  type UInt16 = x: int | 0 <= x < 0x1_0000
  type Int16 = x: int | -0x8000 <= x < 0x8000

  /** The measurement types this sensor produces. */
  datatype MeasurementType = PM1p0 | PM2p5 | PM4p0 | PM10p0 | RelativeHumidity | Temperature | VOC | NOx | CO2

  /** One decoded reading: a type and its value in the type's unit. */
  datatype Measurement = Measurement(kind: MeasurementType, value: real)

  /** The driver's success status. */
  const NoError: int := 0

  /** "No value" markers the sensor reports for an unsigned or a signed field. */
  const InvalidUInt16: int := 0xFFFF
  const InvalidInt16: int := 0x7FFF

  /** The raw frame `sen66_read_measured_values_as_integers` fills in. */
  datatype SensorData = SensorData(
    pm1p0: UInt16, pm2p5: UInt16, pm4p0: UInt16, pm10p0: UInt16,
    humidity: Int16, temperature: Int16, vocIndex: Int16, noxIndex: Int16,
    co2: UInt16)

  /** The raw field that carries a measurement type. */
  function Raw(d: SensorData, t: MeasurementType): int
  {
    match t
    case PM1p0 => d.pm1p0
    case PM2p5 => d.pm2p5
    case PM4p0 => d.pm4p0
    case PM10p0 => d.pm10p0
    case RelativeHumidity => d.humidity
    case Temperature => d.temperature
    case VOC => d.vocIndex
    case NOx => d.noxIndex
    case CO2 => d.co2
  }

  /** The sentinel of a field: unsigned fields use 0xFFFF, signed ones 0x7FFF. */
  function Sentinel(t: MeasurementType): int
  {
    match t
    case RelativeHumidity | Temperature | VOC | NOx => InvalidInt16
    case _ => InvalidUInt16
  }

  /** The divisor that turns a raw field into its unit. */
  function Scale(t: MeasurementType): (r: real)
    ensures r > 0.0
  {
    match t
    case PM1p0 | PM2p5 | PM4p0 | PM10p0 => 10.0
    case RelativeHumidity => 100.0
    case Temperature => 200.0
    case VOC | NOx => 10.0
    case CO2 => 1.0
  }

  /** The position of a type in the decoded output. */
  function Position(t: MeasurementType): (p: nat)
    ensures p < 9
  {
    match t
    case PM1p0 => 0
    case PM2p5 => 1
    case PM4p0 => 2
    case PM10p0 => 3
    case RelativeHumidity => 4
    case Temperature => 5
    case VOC => 6
    case NOx => 7
    case CO2 => 8
  }

  /** The frame a default-constructed `SensorData` holds: every field at its sentinel. */
  function DefaultSensorData(): (d: SensorData)
    ensures forall t :: Raw(d, t) == Sentinel(t)
  {
    SensorData(InvalidUInt16, InvalidUInt16, InvalidUInt16, InvalidUInt16,
               InvalidInt16, InvalidInt16, InvalidInt16, InvalidInt16,
               InvalidUInt16)
  }

  /** The type examined at step i of a read: the inverse of `Position`. */
  function TypeAt(i: nat): (t: MeasurementType)
    requires i < 9
    ensures Position(t) == i
  {
    [PM1p0, PM2p5, PM4p0, PM10p0, RelativeHumidity, Temperature, VOC, NOx, CO2][i]
  }

  /** Whether a frame carries a value for a type: its field differs from the sentinel. */
  predicate Present(d: SensorData, t: MeasurementType)
  {
    Raw(d, t) != Sentinel(t)
  }

  /** The value of a type in its unit: the raw field divided by the type's factor. */
  function Scaled(d: SensorData, t: MeasurementType): real
  {
    Raw(d, t) as real / Scale(t)
  }

  /** What examining one field contributes: its measurement if present, otherwise nothing. */
  function Keep(d: SensorData, t: MeasurementType): seq<Measurement>
  {
    if Present(d, t) then [Measurement(t, Scaled(d, t))] else []
  }

  /** The measurements the first k examined fields contribute, in order. */
  function Prefix(d: SensorData, k: nat): (ms: seq<Measurement>)
    requires k <= 9
    ensures |ms| <= k
  {
    if k == 0 then [] else Prefix(d, k - 1) + Keep(d, TypeAt(k - 1))
  }

  /** What a read returns: nothing on a driver error, otherwise every present field, scaled, in order. */
  function Frame(status: int, d: SensorData): seq<Measurement>
  {
    if status != NoError then [] else Prefix(d, 9)
  }

  /** A measurement is among the first k iff its type is among the first k examined, present, and correctly scaled. */
  lemma {:induction false} PrefixMembers(d: SensorData, k: nat, m: Measurement)
    requires k <= 9
    ensures m in Prefix(d, k) <==> Position(m.kind) < k && Present(d, m.kind) && m.value == Scaled(d, m.kind)
  {
    if k > 0 {
      PrefixMembers(d, k - 1, m);
      if Position(m.kind) == k - 1 {
        PositionInjective(m.kind, TypeAt(k - 1));
      }
    }
  }

  lemma PositionInjective(a: MeasurementType, b: MeasurementType)
    ensures Position(a) == Position(b) ==> a == b
  {
  }

  ghost predicate Ascending(ms: seq<Measurement>)
  {
    forall i, j :: 0 <= i < j < |ms| ==> Position(ms[i].kind) < Position(ms[j].kind)
  }

  /** The first k examined fields yield their types in ascending position. */
  lemma {:induction false} PrefixAscending(d: SensorData, k: nat)
    requires k <= 9
    ensures Ascending(Prefix(d, k))
  {
    if k > 0 {
      PrefixAscending(d, k - 1);
      var head := Prefix(d, k - 1);
      var ms := Prefix(d, k);
      forall i | 0 <= i < |head|
        ensures Position(head[i].kind) < k - 1
      {
        PrefixMembers(d, k - 1, head[i]);
      }
      forall i, j | 0 <= i < j < |ms|
        ensures Position(ms[i].kind) < Position(ms[j].kind)
      {
        if j < |head| {
          assert ms[i] == head[i] && ms[j] == head[j];
        } else {
          assert ms[i] == head[i] && ms[j].kind == TypeAt(k - 1);
        }
      }
    }
  }

  /** A measurement is in a read's result iff the read succeeded, its field is not the sentinel, and its value is the scaled raw field. */
  lemma FrameContents(status: int, d: SensorData, m: Measurement)
    ensures m in Frame(status, d) <==>
            status == NoError && Raw(d, m.kind) != Sentinel(m.kind) && m.value == Raw(d, m.kind) as real / Scale(m.kind)
  {
    PrefixMembers(d, 9, m);
  }

  /**
    The output of a read lists its types in the fixed order PM1, PM2.5, PM4,
    PM10, RH, Temp, VOC, NOx, CO2; so each type appears at most once and there
    are at most nine measurements.
   */
  lemma FrameOrdered(status: int, d: SensorData)
    ensures var ms := Frame(status, d);
            |ms| <= 9 &&
            Ascending(ms) &&
            (forall i, j :: 0 <= i < j < |ms| ==> ms[i].kind != ms[j].kind)
  {
    PrefixAscending(d, 9);
  }

  /** A default-constructed frame decodes to nothing. */
  lemma DefaultFrameIsEmpty(status: int)
    ensures Frame(status, DefaultSensorData()) == []
  {
    var ms := Frame(status, DefaultSensorData());
    if ms != [] {
      FrameContents(status, DefaultSensorData(), ms[0]);
    }
  }

  /** `ReadAllMeasurements`: nine guarded pushes onto a fresh vector. */
  method ReadAllMeasurements(status: int, data: SensorData) returns (measurements: seq<Measurement>)
    ensures measurements == Frame(status, data)
  {
    measurements := [];
    if status != NoError {
      return;
    }
    measurements := PushIfPresent(measurements, data, PM1p0);
    assert measurements == Prefix(data, 1);
    measurements := PushIfPresent(measurements, data, PM2p5);
    assert measurements == Prefix(data, 2);
    measurements := PushIfPresent(measurements, data, PM4p0);
    assert measurements == Prefix(data, 3);
    measurements := PushIfPresent(measurements, data, PM10p0);
    assert measurements == Prefix(data, 4);
    measurements := PushIfPresent(measurements, data, RelativeHumidity);
    assert measurements == Prefix(data, 5);
    measurements := PushIfPresent(measurements, data, Temperature);
    assert measurements == Prefix(data, 6);
    measurements := PushIfPresent(measurements, data, VOC);
    assert measurements == Prefix(data, 7);
    measurements := PushIfPresent(measurements, data, NOx);
    assert measurements == Prefix(data, 8);
    measurements := PushIfPresent(measurements, data, CO2);
    assert measurements == Prefix(data, 9);
  }

  /** One guarded `push_back`: the field's scaled value unless it holds the sentinel. */
  method PushIfPresent(measurements: seq<Measurement>, data: SensorData, t: MeasurementType) returns (pushed: seq<Measurement>)
    ensures pushed == measurements + Keep(data, t)
  {
    pushed := measurements;
    if Raw(data, t) != Sentinel(t) {
      pushed := pushed + [Measurement(t, Raw(data, t) as real / Scale(t))];
    }
  }

  /** `MeasureTemperature`: none on a driver error or a sentinel, otherwise raw/200 degrees Celsius. */
  function MeasureTemperature(status: int, d: SensorData): (r: Option<real>)
    ensures r.None? <==> status != NoError || d.temperature == InvalidInt16
    ensures r.Some? ==> r.value * 200.0 == d.temperature as real
  {
    if status != NoError || d.temperature == InvalidInt16 then None
    else Some(d.temperature as real / 200.0)
  }

  /** `MeasureRelativeHumidity`: none on a driver error or a sentinel, otherwise raw/100 percent. */
  function MeasureRelativeHumidity(status: int, d: SensorData): (r: Option<real>)
    ensures r.None? <==> status != NoError || d.humidity == InvalidInt16
    ensures r.Some? ==> r.value * 100.0 == d.humidity as real
  {
    if status != NoError || d.humidity == InvalidInt16 then None
    else Some(d.humidity as real / 100.0)
  }

  /** The single-value reads agree with the temperature and humidity entries of a full read of the same frame. */
  lemma SingleReadsAgreeWithFrame(status: int, d: SensorData, v: real)
    ensures MeasureTemperature(status, d) == Some(v) <==> Measurement(Temperature, v) in Frame(status, d)
    ensures MeasureRelativeHumidity(status, d) == Some(v) <==> Measurement(RelativeHumidity, v) in Frame(status, d)
  {
    FrameContents(status, d, Measurement(Temperature, v));
    FrameContents(status, d, Measurement(RelativeHumidity, v));
  }

  /** A set holding each of the nine constructors holds every type. */
  lemma EveryTypeListed(s: set<MeasurementType>)
    requires {CO2, PM1p0, PM2p5, PM4p0, PM10p0, RelativeHumidity, Temperature, VOC, NOx} <= s
    ensures forall t: MeasurementType :: t in s
  {
    forall t: MeasurementType
      ensures t in s
    {
      match t
      case PM1p0 => case PM2p5 => case PM4p0 => case PM10p0 =>
      case RelativeHumidity => case Temperature => case VOC => case NOx => case CO2 =>
    }
  }

  /** `GetSupportedMeasurements`: all nine types, PM4 included. */
  function GetSupportedMeasurements(): (s: set<MeasurementType>)
    ensures forall t: MeasurementType :: t in s
  {
    var supported := {CO2, PM1p0, PM2p5, PM4p0, PM10p0, RelativeHumidity, Temperature, VOC, NOx};
    EveryTypeListed(supported);
    supported
  }

  /** Every type a read can produce is declared as supported. */
  lemma FrameOnlySupported(status: int, d: SensorData, m: Measurement)
    requires m in Frame(status, d)
    ensures m.kind in GetSupportedMeasurements()
  {
    match m.kind
    case PM1p0 => case PM2p5 => case PM4p0 => case PM10p0 =>
    case RelativeHumidity => case Temperature => case VOC => case NOx => case CO2 =>
  }
}
