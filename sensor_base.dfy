/**
  MatterSensorBase: the endpoint guard on attribute writes, the centi-unit
  conversion for the Relative Humidity and Temperature Measurement clusters,
  and the closures the sensors hand to the Matter thread.
 */
module SensorBase {
  import opened Matter
  import opened Wrappers
  import Sen66

  /** The closures scheduled with `ScheduleAttributeUpdate`, one kind per sensor class. */
  datatype Task = AirQualityPublication | TemperaturePublication | HumidityPublication

  /** `std::round`: to the nearest integer, halves away from zero. */
  function RoundHalfAwayFromZero(x: real): (r: int)
    ensures r as real - 0.5 <= x <= r as real + 0.5
    ensures x == r as real - 0.5 ==> x > 0.0
    ensures x == r as real + 0.5 ==> x < 0.0
  {
    if x >= 0.0 then (x + 0.5).Floor else -((-x + 0.5).Floor)
  }

  /** Rounding commutes with negation, which is what "away from zero" means for halves. */
  lemma RoundIsOdd(x: real)
    ensures RoundHalfAwayFromZero(-x) == -RoundHalfAwayFromZero(x)
  {
  }

  /** A larger reading never rounds to a smaller integer. */
  lemma RoundMonotone(x: real, y: real)
    requires x <= y
    ensures RoundHalfAwayFromZero(x) <= RoundHalfAwayFromZero(y)
  {
  }

  /** A reading in hundredths of its unit, as the two measurement clusters report it. */
  function Centi(x: real): int
  {
    RoundHalfAwayFromZero(x * 100.0)
  }

  /** The write an `UpdateAttributeValue…` call makes: none while the endpoint is unset. */
  function GuardedWrite(endpoint: Option<EndpointId>, cluster: ClusterId, attribute: nat, value: AttrValue): (ws: seq<Write>)
    ensures ws == [] <==> endpoint.None?
    ensures endpoint.Some? ==> ws == [Write(endpoint.value, cluster, attribute, value)]
  {
    if endpoint.None? then [] else [Write(endpoint.value, cluster, attribute, value)]
  }

  /** What `UpdateRelativeHumidityMeasurementAttributes(h)` writes. */
  function HumidityWrites(endpoint: Option<EndpointId>, h: Option<real>): seq<Write>
  {
    if h.None? then [] else GuardedWrite(endpoint, RelativeHumidityMeasurement, MeasuredValue, Int16Value(Centi(h.value)))
  }

  /** What `UpdateTemperatureMeasurementAttributes(t)` writes. */
  function TemperatureWrites(endpoint: Option<EndpointId>, t: Option<real>): seq<Write>
  {
    if t.None? then [] else GuardedWrite(endpoint, TemperatureMeasurement, MeasuredValue, Int16Value(Centi(t.value)))
  }

  /** A present humidity with the endpoint set is exactly one MeasuredValue write of round(h*100); otherwise nothing. */
  lemma HumidityWritesShape(endpoint: Option<EndpointId>, h: Option<real>)
    ensures |HumidityWrites(endpoint, h)| == (if endpoint.Some? && h.Some? then 1 else 0)
    ensures endpoint.Some? && h.Some? ==>
              HumidityWrites(endpoint, h)[0] == Write(endpoint.value, RelativeHumidityMeasurement, MeasuredValue, Int16Value(Centi(h.value)))
  {
  }

  /** The SEN66 reports humidity in hundredths of a percent, so publishing it gives back the raw reading exactly. */
  lemma HumidityRoundTrip(status: int, d: Sen66.SensorData)
    requires Sen66.MeasureRelativeHumidity(status, d).Some?
    ensures Centi(Sen66.MeasureRelativeHumidity(status, d).value) == d.humidity
  {
    var h := Sen66.MeasureRelativeHumidity(status, d).value;
    assert h * 100.0 == d.humidity as real;
  }

  /**
    The SEN66 reports temperature in 1/200 degree, so in real arithmetic the
    published centi-degrees are the raw reading halved, with odd readings
    rounded away from zero. The firmware computes in single precision, where
    an odd reading can land just below the half and round toward zero.
   */
  lemma TemperatureHalvesRaw(status: int, d: Sen66.SensorData)
    requires Sen66.MeasureTemperature(status, d).Some?
    ensures var c := Centi(Sen66.MeasureTemperature(status, d).value);
            (d.temperature % 2 == 0 ==> c * 2 == d.temperature) &&
            (d.temperature % 2 == 1 && d.temperature > 0 ==> c * 2 == d.temperature + 1) &&
            (d.temperature % 2 == 1 && d.temperature < 0 ==> c * 2 == d.temperature - 1)
  {
    var t := Sen66.MeasureTemperature(status, d).value;
    assert t * 100.0 == d.temperature as real / 2.0;
  }

  class SensorBase {
    /** `m_endpoint`, reduced to the id `endpoint::get_id` would return; null until `CreateEndpoint`. */
    var endpoint: Option<EndpointId>
    const sink: AttributeSink

    constructor (sink: AttributeSink)
      ensures endpoint == None && this.sink == sink
    {
      endpoint := None;
      this.sink := sink;
    }

    /** The assignment of `m_endpoint` in each `CreateEndpoint`. */
    method SetEndpoint(id: EndpointId)
      modifies this
      ensures endpoint == Some(id)
    {
      endpoint := Some(id);
    }

    method UpdateAttributeValueInt16(cluster: ClusterId, attribute: nat, value: int)
      modifies sink
      ensures sink.writes == old(sink.writes) + GuardedWrite(endpoint, cluster, attribute, Int16Value(value))
    {
      if endpoint.None? {
        return;
      }
      sink.Update(Write(endpoint.value, cluster, attribute, Int16Value(value)));
    }

    method UpdateAttributeValueFloat(cluster: ClusterId, attribute: nat, value: real)
      modifies sink
      ensures sink.writes == old(sink.writes) + GuardedWrite(endpoint, cluster, attribute, FloatValue(value))
    {
      if endpoint.None? {
        return;
      }
      sink.Update(Write(endpoint.value, cluster, attribute, FloatValue(value)));
    }

    method UpdateRelativeHumidityMeasurementAttributes(relativeHumidity: Option<real>)
      modifies sink
      ensures sink.writes == old(sink.writes) + HumidityWrites(endpoint, relativeHumidity)
    {
      if relativeHumidity.None? {
        return;
      }
      var reportedHumidity := RoundHalfAwayFromZero(relativeHumidity.value * 100.0);
      UpdateAttributeValueInt16(RelativeHumidityMeasurement, MeasuredValue, reportedHumidity);
    }

    method UpdateTemperatureMeasurementAttributes(temperature: Option<real>)
      modifies sink
      ensures sink.writes == old(sink.writes) + TemperatureWrites(endpoint, temperature)
    {
      if temperature.None? {
        return;
      }
      var reportedTemperature := RoundHalfAwayFromZero(temperature.value * 100.0);
      UpdateAttributeValueInt16(TemperatureMeasurement, MeasuredValue, reportedTemperature);
    }
  }
}
