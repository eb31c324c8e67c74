/**
  The parts of the Matter data model the firmware writes to: cluster and
  attribute identifiers, attribute values, and the attribute store, which is
  modelled as the ordered log of every `attribute::update` call.
 */
module Matter {

  /** A Matter endpoint id (uint16). */
  type EndpointId = x: int | 0 <= x < 0x1_0000

  /** A uint8 attribute value. */
  type UInt8 = x: int | 0 <= x < 0x100

  /** The clusters the firmware writes to. */
  datatype ClusterId =
    | RelativeHumidityMeasurement
    | TemperatureMeasurement
    | CarbonDioxideConcentrationMeasurement
    | NitrogenDioxideConcentrationMeasurement
    | TotalVolatileOrganicCompoundsConcentrationMeasurement
    | Pm1ConcentrationMeasurement
    | Pm25ConcentrationMeasurement
    | Pm10ConcentrationMeasurement
    | AirQuality
    | OnOff
    | LevelControl
    | ColorControl

  /** Attribute ids used by the firmware. */
  const MeasuredValue: nat := 0x0000
  const PeakMeasuredValue: nat := 0x0003
  const AverageMeasuredValue: nat := 0x0005
  const AirQualityAttribute: nat := 0x0000
  const OnOffAttribute: nat := 0x0000
  const CurrentLevel: nat := 0x0000
  const CurrentHue: nat := 0x0000
  const CurrentSaturation: nat := 0x0001
  const ColorMode: nat := 0x0008

  /** ColorControl::ColorMode::kCurrentHueAndCurrentSaturation */
  const CurrentHueAndCurrentSaturation: UInt8 := 0

  /** An `esp_matter_attr_val_t`, by the constructor used to build it. */
  datatype AttrValue =
    | BoolValue(b: bool)
    | UInt8Value(u: UInt8)
    | Int16Value(i: int)
    | FloatValue(f: real)

  /** One `attribute::update(endpoint, cluster, attribute, &val)` call. */
  datatype Write = Write(endpoint: EndpointId, cluster: ClusterId, attribute: nat, value: AttrValue)

  /**
    Regrouping a log built by successive appends. Stated once so that loop
    proofs over the log need not rediscover it element by element.
   */
  lemma AppendAssociative<T>(a: seq<T>, b: seq<T>, c: seq<T>)
    ensures a + (b + c) == (a + b) + c
  {
  }

  /** The endpoint-side attribute store: every update, in the order it was made. */
  class AttributeSink {
    var writes: seq<Write>

    constructor ()
      ensures writes == []
    {
      writes := [];
    }

    method Update(w: Write)
      modifies this
      ensures writes == old(writes) + [w]
    {
      writes := writes + [w];
    }
  }

  /**
    The Matter thread's work queue (`SystemLayer().ScheduleLambda`): closures
    are run one at a time in the order they were scheduled.
   */
  class SystemLayer<T> {
    var queue: seq<T>

    constructor ()
      ensures queue == []
    {
      queue := [];
    }

    method ScheduleLambda(t: T)
      modifies this
      ensures queue == old(queue) + [t]
    {
      queue := queue + [t];
    }

    /** Takes the oldest scheduled closure off the queue, to be run next. */
    method Next() returns (t: T)
      requires queue != []
      modifies this
      ensures t == old(queue)[0] && queue == old(queue)[1..]
    {
      t := queue[0];
      queue := queue[1..];
    }
  }
}
