# Air-quality sensor firmware model

A Dafny model of the core of an ESP32 Matter air-quality sensor. The device
reads a Sensirion SEN66 over I2C once a minute. It publishes the readings on
three Matter endpoints: air quality with its concentration clusters,
temperature, and relative humidity. It shows the overall air quality on an
extended colour light.

The model covers:

- **SEN66 wrapper** (`Sen66`): the raw frame and its "no value" sentinels,
  decoding a frame into scaled measurements, and the single-value reads.
- **Store interface** (`MeasurementStore`): channels registered in order with
  their window sizes, and samples appended per channel. The store's latest,
  average and peak queries are opaque functions of what it holds for a channel.
- **Air-quality sensor** (`AirQualitySensor`):
  - the type-to-cluster map;
  - channel registration;
  - ingestion of a read;
  - publication: every channel, then the worst-of classification, then the light.
- **Classifiers** (`Classifier`, `AirQualityLevels`): CO2 on the latest value,
  PM2.5 and PM10 on the averages, each truncated to uint16, combined with the
  enum's `std::max`.
- **Indicator** (`Indicator`, `ExtendedColorLight`): the light table, the hue and
  level byte conversions, and the ordered writes to the light endpoint.
- **Sensor base** (`SensorBase`): the null-endpoint guard, and the centi-unit
  publication of humidity and temperature with `std::round`.
- **Temperature and humidity sensors** (`TemperatureSensor`, `HumiditySensor`):
  last-good-value holders that queue one publication per successful read.
- **Legacy class** (`LegacyAirQuality`): the earlier `MatterAirQuality` class,
  which is no longer built. It is modelled separately because its writing
  and scheduling differ from the live class:
  - it schedules after an empty read too;
  - the closure captures the endpoints;
  - humidity and temperature are truncated;
  - its colour writes have no ColorMode.
- **`app_main`** (`App`, `EspTimer`):
  - the boot-reason mapping;
  - the fabric-removed branch of the event handler;
  - construction order;
  - the 60 s tick that updates air quality, temperature and humidity in that order;
  - the Matter thread running the queued closures in FIFO order.

The attribute store is the ordered log of every `attribute::update` call
(`Matter.AttributeSink`). The Matter work queue is a FIFO of closure tags
(`Matter.SystemLayer`). Every method states the new log and queue exactly.

**CO2 below 400 ppm.** The comment at the end of `ClassifyAirQualityByCO2` says
such readings are Unknown. The code answers Fair: the `co2_ppm <= 700` branch
catches every reading the first condition rejected. The model follows the code.
`Classifier.Co2AgainstDescribedTable` proves that the two agree from 400 ppm
up and differ below it. `Classifier.Co2NotMonotone` exhibits 399 → Fair
against 400 → Good.

## Model

| member | source | states |
|---|---|---|
| AirQualityLevels.Rank | main/MatterAirQualitySensor.cpp:452-455 | the published int16 is the enumerator value, 0..6, 0 exactly for Unknown and 6 exactly for ExtremelyPoor |
| AirQualityLevels.Max | main/MatterAirQualitySensor.cpp:450 | `std::max` of two levels is one of them and at least as bad as both |
| AirQualityLevels.Worst3 | main/MatterAirQualitySensor.cpp:449-450 | the worst-of is one of the three, at least as bad as each, and Unknown only if all three are |
| AirQualityLevels.RankInjective | main/MatterAirQualitySensor.cpp:450 | comparing by enumerator value identifies the level |
| AirQualityLevels.Worst3IsLeastUpperBound | main/MatterAirQualitySensor.cpp:449-450 | any level at least as bad as all three is at least as bad as the worst-of |
| AirQualityLevels.Worst3Symmetric | main/MatterAirQualitySensor.cpp:449-450 | the worst-of does not depend on the order of the three classifications |
| Classifier.TruncateToUInt16 | main/MatterAirQualitySensor.cpp:301 | the float-to-uint16 conversion truncates: r <= x < r + 1 |
| Classifier.ClassifyByCO2 | main/MatterAirQualitySensor.cpp:299-324 | each band, both directions: 400..600 Good; below 400 or 601..700 Fair; 701..800 Moderate; 801..950 Poor; 951..1200 VeryPoor; above ExtremelyPoor; never Unknown; the copy in MatterAirQuality.cpp lines 437-462 is identical |
| Classifier.ClassifyByPM25 | main/MatterAirQualitySensor.cpp:345-362 | never Unknown (bands in `Pm25MatchesTable`); the copy in MatterAirQuality.cpp lines 483-500 is identical |
| Classifier.ClassifyByPM10 | main/MatterAirQualitySensor.cpp:326-343 | never Unknown (bands in `Pm10MatchesTable`); the copy in MatterAirQuality.cpp lines 464-481 is identical |
| Classifier.OverallLevel | main/MatterAirQualitySensor.cpp:445-450 | the published level is never Unknown, is at least as bad as each of CO2 (latest), PM2.5 and PM10 (averages), and equals one of them; the copy in MatterAirQuality.cpp lines 590-595 is identical |
| Classifier.ClassifyByTable | main/MatterAirQualitySensor.cpp:345-362 | reference lookup in a table of inclusive upper bounds: the result is a row's level or ExtremelyPoor |
| Classifier.TableResultAtLeastFirst | main/MatterAirQualitySensor.cpp:345-362 | in an ascending table every result is at least as bad as the first row |
| Classifier.TableMonotone | main/MatterAirQualitySensor.cpp:326-362 | a lookup in an ascending table is monotone in the value |
| Classifier.Pm25MatchesTable | main/MatterAirQualitySensor.cpp:345-362 | PM2.5 is the table 15 Good, 30 Fair, 50 Moderate, 100 Poor, 150 VeryPoor, else ExtremelyPoor |
| Classifier.Pm10MatchesTable | main/MatterAirQualitySensor.cpp:326-343 | PM10 is the table 30 Good, 60 Fair, 120 Moderate, 260 Poor, 400 VeryPoor, else ExtremelyPoor |
| Classifier.Pm25TableAscending | main/MatterAirQualitySensor.cpp:349-361 | the PM2.5 bounds strictly increase and each band is worse than the one before |
| Classifier.Pm10TableAscending | main/MatterAirQualitySensor.cpp:330-342 | the PM10 bounds strictly increase and each band is worse than the one before |
| Classifier.Co2DescribedTableAscending | main/MatterAirQualitySensor.cpp:303-323 | the described CO2 bands ascend, Unknown below 400 first |
| Classifier.Pm25Monotone | main/MatterAirQualitySensor.cpp:345-362 | a higher PM2.5 average never gives a better level |
| Classifier.Pm10Monotone | main/MatterAirQualitySensor.cpp:326-343 | a higher PM10 average never gives a better level |
| Classifier.Co2AgainstDescribedTable | main/MatterAirQualitySensor.cpp:299-324 | from 400 ppm up the code is the described table; below 400 it answers Fair where the table answers Unknown |
| Classifier.Co2NotMonotone | main/MatterAirQualitySensor.cpp:301-306 | some higher CO2 reading gets a better level (399 Fair, 400 Good) |
| Classifier.Co2MonotoneFromAmbient | main/MatterAirQualitySensor.cpp:299-324 | from 400 ppm up CO2 classification is monotone |
| Classifier.TruncationDecidesBand | main/MatterAirQualitySensor.cpp:347-350 | an average in [15, 16) truncates into the Good band |
| Indicator.HueDegreesToUInt8 | main/MatterAirQualitySensor.cpp:242-252 | the hue byte is within half a step of degrees mod 360 scaled to 256, in 0..255 |
| Indicator.LevelPercentToByte | main/MatterExtendedColorLight.cpp:64 | trunc(p/100·253)+1 lies in 1..254 (never 0x00) and brackets p·253/100 |
| Indicator.LevelPercentMonotone | main/MatterExtendedColorLight.cpp:64 | the level byte is non-decreasing in the percent |
| Indicator.LevelPercentEnds | main/MatterExtendedColorLight.cpp:58-64 | 0 % gives 0x01 and 100 % gives 0xFE |
| Indicator.LightSettingFor | main/MatterAirQualitySensor.cpp:254-292 | saturation is always 254; known levels use their named hue; Unknown is hue 0 at 0 % |
| Indicator.LightTable | main/MatterAirQualitySensor.cpp:260-288 | hue and level bytes: Good 85/26, Fair 71/26, Moderate 57/38, Poor 43/38, VeryPoor 21/51, ExtremelyPoor 0/76, Unknown 0/1; the copy in MatterAirQuality.cpp lines 398-429 is identical |
| Indicator.WorseAirIsBrighterAndRedder | main/MatterAirQualitySensor.cpp:254-292 | a worse level is never dimmer and, among known levels, never greener |
| ExtendedColorLight.LevelWrite | main/MatterExtendedColorLight.cpp:56-70 | the level write goes to LevelControl CurrentLevel with a byte in 1..0xFE |
| ExtendedColorLight.ExtendedColorLight.UpdateAttributeValueBool | main/MatterExtendedColorLight.cpp:110-117 | one boolean write to the light's own endpoint |
| ExtendedColorLight.ExtendedColorLight.UpdateAttributeValueUInt8 | main/MatterExtendedColorLight.cpp:119-126 | one uint8 write to the light's own endpoint |
| ExtendedColorLight.ExtendedColorLight.SetLightOnOff | main/MatterExtendedColorLight.cpp:48-54 | exactly the OnOff write of the given boolean |
| ExtendedColorLight.ExtendedColorLight.SetLightLevelPercent | main/MatterExtendedColorLight.cpp:56-70 | exactly the CurrentLevel write of the level byte |
| ExtendedColorLight.ExtendedColorLight.SetLightColorHSV | main/MatterExtendedColorLight.cpp:72-99 | CurrentHue, then CurrentSaturation, then ColorMode = hue-and-saturation |
| Sen66.Scale | main/sensors/SensirionSEN66.cpp:12-16 | every divisor is positive: PM, VOC and NOx 10, RH 100, temperature 200, CO2 1 |
| Sen66.Position | main/sensors/SensirionSEN66.cpp:71-97 | each type has one of nine output positions |
| Sen66.TypeAt | main/sensors/SensirionSEN66.cpp:71-97 | the i-th field examined is the type at position i |
| Sen66.DefaultSensorData | main/sensors/SensirionSEN66.cpp:20-24 | a default frame has every field at its sentinel |
| Sen66.Prefix | main/sensors/SensirionSEN66.cpp:71-97 | examining k fields yields at most k measurements |
| Sen66.PrefixMembers | main/sensors/SensirionSEN66.cpp:71-97 | a measurement is among the first k iff its type is among them, present, and scaled |
| Sen66.PositionInjective | main/sensors/SensirionSEN66.cpp:71-97 | no two types share an output position |
| Sen66.PrefixAscending | main/sensors/SensirionSEN66.cpp:71-97 | the first k fields yield their types in ascending position |
| Sen66.FrameContents | main/sensors/SensirionSEN66.cpp:62-100 | a measurement is read iff the status is NO_ERROR, its field is not the sentinel, and its value is raw/divisor |
| Sen66.FrameOrdered | main/sensors/SensirionSEN66.cpp:71-97 | at most nine measurements, in the fixed order PM1..CO2, each type at most once |
| Sen66.DefaultFrameIsEmpty | main/sensors/SensirionSEN66.cpp:20-24 | a frame left at its defaults decodes to nothing |
| Sen66.ReadAllMeasurements | main/sensors/SensirionSEN66.cpp:62-100 | the nine guarded pushes build exactly the decoded frame (empty on a driver error) |
| Sen66.PushIfPresent | main/sensors/SensirionSEN66.cpp:71-97 | one guarded push appends the field's scaled value exactly when it is not the sentinel |
| Sen66.MeasureTemperature | main/sensors/SensirionSEN66.cpp:102-108 | none iff driver error or sentinel; otherwise value·200 is the raw field |
| Sen66.MeasureRelativeHumidity | main/sensors/SensirionSEN66.cpp:110-116 | none iff driver error or sentinel; otherwise value·100 is the raw field |
| Sen66.SingleReadsAgreeWithFrame | main/sensors/SensirionSEN66.cpp:102-116 | the single reads return exactly the temperature and humidity entries of a full read |
| Sen66.GetSupportedMeasurements | main/sensors/SensirionSEN66.cpp:39-53 | every measurement type is supported, PM4 included |
| Sen66.EveryTypeListed | main/sensors/SensirionSEN66.cpp:39-53 | the nine listed types exhaust the measurement types |
| Sen66.FrameOnlySupported | main/sensors/SensirionSEN66.cpp:39-53 | every type a read produces is declared supported |
| MeasurementStore.Measurements.constructor | main/MatterAirQualitySensor.cpp:24-27 | the store starts with no channels and no samples |
| MeasurementStore.Measurements.ViewOf | main/MatterAirQualitySensor.cpp:414-441 | the queries see the channel's id and its appended samples |
| MeasurementStore.Measurements.AddId | main/MatterAirQualitySensor.cpp:72 | registering appends the id to `GetIds` with its window sizes, samples untouched |
| MeasurementStore.Measurements.AddMeasurement | main/MatterAirQualitySensor.cpp:404 | appending adds one sample (value, elapsed seconds) under the id and changes nothing else |
| SensorBase.RoundHalfAwayFromZero | main/MatterSensorBase.cpp:47 | `std::round`: within one half, and halves go away from zero |
| SensorBase.RoundIsOdd | main/MatterSensorBase.cpp:47 | rounding commutes with negation |
| SensorBase.RoundMonotone | main/MatterSensorBase.cpp:47 | rounding is monotone |
| SensorBase.GuardedWrite | main/MatterSensorBase.cpp:4-24 | no write iff the endpoint is null; otherwise exactly one write to it |
| SensorBase.HumidityWritesShape | main/MatterSensorBase.cpp:26-38 | an empty humidity or a null endpoint writes nothing; otherwise one MeasuredValue write of round(h·100) |
| SensorBase.HumidityRoundTrip | main/MatterSensorBase.cpp:33 | a SEN66 humidity published in hundredths is the raw reading exactly |
| SensorBase.TemperatureHalvesRaw | main/MatterSensorBase.cpp:47 | in real arithmetic, a SEN66 temperature is published as raw/2, odd raw values rounded away from zero |
| SensorBase.SensorBase.constructor | main/MatterSensorBase.h:15-16 | the endpoint starts null |
| SensorBase.SensorBase.SetEndpoint | main/MatterTemperatureSensor.cpp:24 | `CreateEndpoint` stores the created endpoint |
| SensorBase.SensorBase.UpdateAttributeValueInt16 | main/MatterSensorBase.cpp:4-13 | the guarded int16 write |
| SensorBase.SensorBase.UpdateAttributeValueFloat | main/MatterSensorBase.cpp:15-24 | the guarded float write |
| SensorBase.SensorBase.UpdateRelativeHumidityMeasurementAttributes | main/MatterSensorBase.cpp:26-38 | writes exactly the humidity writes of its argument |
| SensorBase.SensorBase.UpdateTemperatureMeasurementAttributes | main/MatterSensorBase.cpp:40-52 | writes exactly the temperature writes of its argument |
| TemperatureSensor.MatterTemperatureSensor.constructor | main/MatterTemperatureSensor.h:38 | the stored temperature starts empty |
| TemperatureSensor.MatterTemperatureSensor.CreateEndpoint | main/MatterTemperatureSensor.cpp:18-28 | the endpoint is set |
| TemperatureSensor.MatterTemperatureSensor.UpdateMeasurements | main/MatterTemperatureSensor.cpp:30-45 | a failed read changes nothing and queues nothing; a reading is stored and one publication queued |
| TemperatureSensor.MatterTemperatureSensor.UpdateAttributes | main/MatterTemperatureSensor.cpp:47-50 | publishes the stored value as it is when the closure runs |
| TemperatureSensor.TwoReadsBeforeDrain | main/MatterSensorBase.h:41-45 | two reads before the queue drains schedule two closures; running both empties the queue and publishes the newer value twice |
| HumiditySensor.MatterHumiditySensor.constructor | main/MatterHumiditySensor.h:38 | the stored humidity starts empty |
| HumiditySensor.MatterHumiditySensor.CreateEndpoint | main/MatterHumiditySensor.cpp:18-26 | the endpoint is set |
| HumiditySensor.MatterHumiditySensor.UpdateMeasurements | main/MatterHumiditySensor.cpp:28-43 | a failed read changes nothing and queues nothing; a reading is stored and one publication queued |
| HumiditySensor.MatterHumiditySensor.UpdateAttributes | main/MatterHumiditySensor.cpp:45-48 | publishes the stored value as it is when the closure runs |
| HumiditySensor.TwoReadsBeforeDrain | main/MatterSensorBase.h:41-45 | two reads before the queue drains schedule two closures; running both empties the queue and publishes the newer value twice |
| AirQualitySensor.ClusterOf | main/MatterAirQualitySensor.cpp:13-22 | every type but PM4 maps to a cluster |
| AirQualitySensor.ClusterOfInjective | main/MatterAirQualitySensor.cpp:13-22 | no two types share a cluster |
| AirQualitySensor.RegisteredPrefix | main/MatterAirQualitySensor.cpp:42-65 | k checks register at most k channels |
| AirQualitySensor.RegisteredPrefixMembers | main/MatterAirQualitySensor.cpp:42-65 | a cluster is registered by the first k checks iff one of those types is supported and maps to it |
| AirQualitySensor.RegisteredPrefixDistinct | main/MatterAirQualitySensor.cpp:42-65 | no channel is registered twice |
| AirQualitySensor.RegisteredIff | main/MatterAirQualitySensor.cpp:39-65 | exactly the supported mapped types get a channel, each once |
| AirQualitySensor.Sen66Registration | main/MatterAirQualitySensor.cpp:42-65 | with the SEN66 the channels are RH, Temp, CO2, PM1, PM2.5, PM10, NOx, VOC in that order |
| AirQualitySensor.NextNotRegistered | main/MatterAirQualitySensor.cpp:42-65 | the cluster of the next check is not yet registered |
| AirQualitySensor.RegistrationOrderDistinct | main/MatterAirQualitySensor.cpp:42-65 | no type is checked twice |
| AirQualitySensor.RegisterIfSupported | main/MatterAirQualitySensor.cpp:42-65 | one check registers the type's cluster with its windows (60/60 RH and Temp, 3600/3600 otherwise) iff supported |
| AirQualitySensor.RegisterChannels | main/MatterAirQualitySensor.cpp:39-65 | the eight checks register exactly `Registered(supported)` with those windows |
| AirQualitySensor.IngestPerId | main/MatterAirQualitySensor.cpp:381-405 | ingestion appends under each id exactly the samples mapped to it, in read order |
| AirQualitySensor.SamplesForSource | main/MatterAirQualitySensor.cpp:384-392 | a stored sample comes from a measurement mapped to that id (never PM4) |
| AirQualitySensor.AddMeasurements | main/MatterAirQualitySensor.cpp:381-405 | the loop leaves the store at `Ingest` of the read, registrations untouched |
| AirQualitySensor.LoopWritesShape | main/MatterAirQualitySensor.cpp:414-443 | with the endpoint set, one well-formed write per RH/Temp channel and three per other; none with it null |
| AirQualitySensor.ChannelWritesShape | main/MatterAirQualitySensor.cpp:416-442 | one channel: one int16 write for RH and temperature, three floats otherwise, all under its own cluster |
| AirQualitySensor.LoopWritesExtend | main/MatterAirQualitySensor.cpp:415-443 | each iteration appends exactly the next channel's writes |
| AirQualitySensor.ConcentrationWriteOrder | main/MatterAirQualitySensor.cpp:426-442 | a concentration channel writes latest to 0x0, average to 0x5, peak to 0x3, in that order |
| AirQualitySensor.PublishedLevel | main/MatterAirQualitySensor.cpp:445-450 | the level published is never Unknown |
| AirQualitySensor.LightWrites | main/MatterAirQualitySensor.cpp:294-296 | five writes to the light endpoint, the first switching it on (Unknown included) |
| AirQualitySensor.LightWritesCarryTable | main/MatterAirQualitySensor.cpp:254-296 | the colour and level writes carry the table's hue, saturation 254 and level byte |
| AirQualitySensor.PublicationTail | main/MatterAirQualitySensor.cpp:445-457 | after the channels: the AirQuality write of a known level, then the light for that level |
| AirQualitySensor.MatterAirQualitySensor.constructor | main/MatterAirQualitySensor.cpp:24-27 | a fresh, empty store |
| AirQualitySensor.MatterAirQualitySensor.CreateEndpoint | main/MatterAirQualitySensor.cpp:29-68 | the endpoint is set and the channels are `Registered(supported)` with their windows |
| AirQualitySensor.MatterAirQualitySensor.UpdateMeasurements | main/MatterAirQualitySensor.cpp:369-410 | an empty read changes nothing; otherwise the store is `Ingest` of the read and one publication is queued |
| AirQualitySensor.MatterAirQualitySensor.PublishChannel | main/MatterAirQualitySensor.cpp:416-442 | one channel's writes |
| AirQualitySensor.MatterAirQualitySensor.PublishChannels | main/MatterAirQualitySensor.cpp:414-443 | the loop writes every registered channel in registration order |
| AirQualitySensor.MatterAirQualitySensor.SetLightByAirQuality | main/MatterAirQualitySensor.cpp:254-297 | on, hue, saturation, ColorMode, level |
| AirQualitySensor.MatterAirQualitySensor.PublishAirQuality | main/MatterAirQualitySensor.cpp:445-457 | the worst-of AirQuality write, then the light |
| AirQualitySensor.MatterAirQualitySensor.UpdateAirQualityAttributes | main/MatterAirQualitySensor.cpp:412-458 | a publication writes exactly `PublicationWrites`: channels, level, light |
| LegacyAirQuality.TruncateToInt16 | main/MatterAirQuality.cpp:554-566 | `latest * 100` passed as int16 truncates toward zero |
| LegacyAirQuality.TruncationWithinOneOfRounding | main/MatterAirQuality.cpp:554-566 | truncation differs from the live class's rounding by at most one, and not at all on whole values |
| LegacyAirQuality.TruncationDiffersOnHalves | main/MatterAirQuality.cpp:566 | a temperature of 22.5 centi-degrees is published as 22 here, 23 by the live class |
| LegacyAirQuality.LegacyLoopWritesShape | main/MatterAirQuality.cpp:549-589 | one well-formed write per RH/Temp channel and three per other, to the captured endpoint |
| LegacyAirQuality.LegacyChannelWritesShape | main/MatterAirQuality.cpp:551-588 | one channel: one truncated int16 write for RH and temperature, three floats otherwise, all under its own cluster |
| LegacyAirQuality.LegacyChannelAgreesWithLive | main/MatterAirQuality.cpp:568-588 | concentration channels are written exactly as in the live class |
| LegacyAirQuality.LegacyLightWrites | main/MatterAirQuality.cpp:432-434 | four writes to the light endpoint, the first switching it on, none to ColorMode |
| LegacyAirQuality.LegacyLightIsLiveWithoutColorMode | main/MatterAirQuality.cpp:357-378 | the legacy light update is the live one without its ColorMode write |
| LegacyAirQuality.InitialLightState | main/MatterAirQuality.cpp:75-78 | off, level byte 1, hue 0, saturation 0, in that order |
| LegacyAirQuality.LegacyPublicationTail | main/MatterAirQuality.cpp:590-603 | after the channels: the AirQuality write of a known level, then the light for that level |
| LegacyAirQuality.UpdateAttributeValueBool | main/MatterAirQuality.cpp:104-111 | one unguarded boolean write to the given endpoint |
| LegacyAirQuality.UpdateAttributeValueUInt8 | main/MatterAirQuality.cpp:113-120 | one unguarded uint8 write |
| LegacyAirQuality.UpdateAttributeValueInt16 | main/MatterAirQuality.cpp:122-129 | one unguarded int16 write |
| LegacyAirQuality.UpdateAttributeValueFloat | main/MatterAirQuality.cpp:150-157 | one unguarded float write |
| LegacyAirQuality.MatterAirQuality.constructor | main/MatterAirQuality.cpp:24-29 | the light endpoint is given; no air-quality endpoint or timer yet |
| LegacyAirQuality.MatterAirQuality.CreateEndpoint | main/MatterAirQuality.cpp:31-71 | the endpoint is set and the channels are registered as in the live class |
| LegacyAirQuality.MatterAirQuality.StartMeasurements | main/MatterAirQuality.cpp:73-102 | the initial light writes, then a 60 s timer if both timer calls succeed |
| LegacyAirQuality.MatterAirQuality.MeasureAirQuality | main/MatterAirQuality.cpp:507-546 | the store becomes `Ingest` of the read; an empty read changes nothing |
| LegacyAirQuality.MatterAirQuality.MeasureAirQualityTimerCallback | main/MatterAirQuality.cpp:607-625 | measures, then always queues a publication carrying both endpoints |
| LegacyAirQuality.MatterAirQuality.PublishChannel | main/MatterAirQuality.cpp:551-588 | one channel's writes |
| LegacyAirQuality.MatterAirQuality.PublishChannels | main/MatterAirQuality.cpp:550-589 | every registered channel in order |
| LegacyAirQuality.MatterAirQuality.PublishAirQuality | main/MatterAirQuality.cpp:590-603 | the worst-of AirQuality write, then the light |
| LegacyAirQuality.MatterAirQuality.UpdateAirQualityAttributes | main/MatterAirQuality.cpp:548-604 | a publication writes exactly `LegacyPublicationWrites` to the endpoints it is given |
| LegacyAirQuality.MatterAirQuality.SetLightOnOff | main/MatterAirQuality.cpp:331-338 | the OnOff write |
| LegacyAirQuality.MatterAirQuality.SetLightLevelPercent | main/MatterAirQuality.cpp:340-355 | the same level byte as the live light |
| LegacyAirQuality.MatterAirQuality.SetLightColorHSV | main/MatterAirQuality.cpp:357-378 | hue then saturation, no ColorMode |
| LegacyAirQuality.MatterAirQuality.SetLightByAirQuality | main/MatterAirQuality.cpp:392-435 | on, hue, saturation, level from the shared table |
| LegacyAirQuality.EmptyReadRepublishes | main/MatterAirQuality.cpp:607-625 | an empty read leaves the store unchanged yet a full publication of the stale values follows |
| EspTimer.PeriodMicroseconds | main/app_main.cpp:289 | the period in µs is a whole number of seconds, the given one, and fits the 64-bit argument |
| App.SamplePeriod | main/app_main.cpp:289 | the tick period is 60 000 000 µs |
| App.GetMatterBootReason | main/app_main.cpp:178-197 | each code, both directions: PowerOn 0, Brownout 2, SW 3, the three watchdogs 4, Panic 5, everything else 0xFF; never 1 |
| App.CommissioningWindowManager.OpenBasicCommissioningWindow | main/app_main.cpp:120-121 | records the request's timeout; the window opens if the call succeeds |
| App.HandleDeviceEvent | main/app_main.cpp:108-129 | a window with the 300 s timeout is requested iff the event is FabricRemoved, no fabric is left and no window is open; otherwise nothing changes |
| App.TickTasks | main/app_main.cpp:263-268 | a tick queues at most three closures: air quality iff the read was non-empty, temperature and humidity iff each read succeeded, in that order |
| App.TickTasksDistinct | main/app_main.cpp:263-268 | at most one closure per sensor per tick |
| App.Device.StartUpdateSensorsTimer | main/app_main.cpp:270-294 | a 60 s timer runs iff both timer calls succeed |
| App.Device.UpdateSensorsTimerCallback | main/app_main.cpp:263-268 | air quality, then temperature, then humidity, each updated once from its own read; the queue grows by `TickTasks` |
| App.Device.RunNext | main/MatterSensorBase.h:41-45 | the oldest closure runs and writes what its sensor publishes in the current state |
| App.AppMain | main/app_main.cpp:318-381 | light, then air quality, temperature and humidity endpoints; SEN66 channels registered; nothing written or queued yet; the sensor timer runs at the sample period exactly when it was created and started |

## Left out

- Floating point: every `float` is a real. Float rounding is not modelled.
  This covers the conversion factors, `getElapsedSeconds` precision and the
  float arithmetic of the level byte and the hue.
- Classifier.TruncateToUInt16: defined only on [0, 65536), where the C++
  conversion is defined. Callers must show the three classified values are in
  range (`Castable`).
- SensorBase.HumidityWrites: does not model the uint16 and int16 casts around
  `std::round`. The centi-value is written as an unbounded integer, and
  out-of-range readings are not wrapped.
- SensorBase.TemperatureWrites: does not model the int16 cast of the rounded
  centi-degrees, for the same reason.
- LegacyAirQuality.TruncateToInt16: defined only where the truncated value fits
  an int16 (`LegacyCastable`), since the C++ conversion is undefined outside it.
- Indicator.HueDegreesToUInt8: whole non-negative degrees only. This covers
  every literal the firmware passes. `fmodf` on negative values and the
  256-to-0 cast are not modelled.
- SensorBase.TemperatureHalvesRaw: holds in real arithmetic only. The firmware
  scales and rounds in single precision, which can land just below the half
  and round toward zero: raw 53 publishes 26, where the lemma gives 27.
- MeasurementStore.Measurements.AddMeasurement: appending under an id that was
  never registered creates its sample list. That is this model's choice, since
  Measurements.h is not part of this model; the firmware only appends for
  registered SEN66 channels (`FrameOnlySupported`, `RegisteredIff`).
- The `Measurements` store: Measurements.h is not part of this model.
  - Its windows and its latest, average and peak computations are opaque
    functions (`Queries`).
  - `GetAverageWindowSizeSeconds` and `GetPeakWindowSizeSeconds` feed only
    cluster features and are left out.
- MeasurementStore.Measurements.AddId: requires the id to be new. What the
  store does with a duplicate registration is not visible, and the firmware
  never registers one.
- Clocks: `getElapsedSeconds` is a parameter, one reading per measurement.
- The SEN66 driver: the bus read (`sen66_*`, the I2C HAL) is an input, a
  status and the frame it filled in. Not modelled:
  - `Init`;
  - self-calibration;
  - continuous-measurement start;
  - `SetAmbientPressure`.
- Measurement types: limited to the nine the SEN66 produces. `Sensor.h` is not
  part of this model.
- Construction in esp-matter is left out: creating endpoints, clusters,
  features and deferred persistence are declarative library calls. Endpoint
  ids are parameters, and the `ABORT_APP_ON_FAILURE` paths are not modelled.
- Concurrency:
  - `esp_timer` firing and `skip_unhandled_events` overlap dropping are not
    modelled;
  - the Matter-thread handoff is a sequential FIFO queue;
  - the legacy class's timer is recorded only as its period.
- LegacyAirQuality.MatterAirQuality.MeasureAirQualityTimerCallback: requires
  the air-quality endpoint to exist. Before `CreateEndpoint` the C++ pointer is
  uninitialised.
- The legacy `UpdateAttributeValueUInt16` and `UpdateAttributeValueUInt32`
  writers are never called and are left out.
- `app_main` leaves out everything other than construction order and the
  sensor timer:
  - logging;
  - commissioning-complete and other logged-only events;
  - the identify and attribute-update callbacks;
  - diagnostics clusters;
  - OTA and certification declarations;
  - the console;
  - NVS and the light driver.
