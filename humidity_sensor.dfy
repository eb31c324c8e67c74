/**
  MatterHumiditySensor: keeps the last successful humidity reading and
  schedules one publication of it per successful read.
 */
module HumiditySensor {
  import opened Matter
  import opened Wrappers
  import opened SensorBase

  class MatterHumiditySensor {
    const base: SensorBase
    /** `m_humidityMeasurement`: the last successful reading, empty until the first one. */
    var humidityMeasurement: Option<real>

    constructor (base: SensorBase)
      ensures this.base == base && humidityMeasurement == None
    {
      this.base := base;
      humidityMeasurement := None;
    }

    /** The endpoint id the humidity-sensor endpoint was created with. */
    method CreateEndpoint(id: EndpointId)
      modifies base
      ensures base.endpoint == Some(id)
    {
      base.SetEndpoint(id);
    }

    /**
      `UpdateMeasurements`, given what `MeasureRelativeHumidity` returned: a failed
      read changes nothing; a reading is stored and one publication is queued.
     */
    method UpdateMeasurements(relativeHumidity: Option<real>, layer: SystemLayer<Task>)
      modifies this, layer
      ensures relativeHumidity.None? ==> humidityMeasurement == old(humidityMeasurement) && layer.queue == old(layer.queue)
      ensures relativeHumidity.Some? ==> humidityMeasurement == relativeHumidity && layer.queue == old(layer.queue) + [HumidityPublication]
    {
      if relativeHumidity.None? {
        return;
      }
      humidityMeasurement := relativeHumidity;
      layer.ScheduleLambda(HumidityPublication);
    }

    /** `UpdateAttributes`: publishes the stored reading as it is when the closure runs. */
    method UpdateAttributes()
      modifies base.sink
      ensures base.sink.writes == old(base.sink.writes) + HumidityWrites(base.endpoint, humidityMeasurement)
    {
      base.UpdateRelativeHumidityMeasurementAttributes(humidityMeasurement);
    }
  }

  /**
    The closure captures only the sensor, not the reading: two successful reads
    before the Matter thread drains the queue publish the newer reading twice.
   */
  method TwoReadsBeforeDrain(sensor: MatterHumiditySensor, layer: SystemLayer<Task>, first: real, second: real)
    requires layer.queue == []
    modifies sensor, layer, sensor.base.sink
    ensures layer.queue == []
    ensures sensor.base.sink.writes ==
            old(sensor.base.sink.writes) + HumidityWrites(sensor.base.endpoint, Some(second)) + HumidityWrites(sensor.base.endpoint, Some(second))
  {
    sensor.UpdateMeasurements(Some(first), layer);
    sensor.UpdateMeasurements(Some(second), layer);
    var task := layer.Next();
    assert task == HumidityPublication;
    sensor.UpdateAttributes();
    task := layer.Next();
    assert task == HumidityPublication;
    sensor.UpdateAttributes();
  }
}
