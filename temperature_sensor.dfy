/**
  MatterTemperatureSensor: keeps the last successful temperature reading and
  schedules one publication of it per successful read.
 */
module TemperatureSensor {
  import opened Matter
  import opened Wrappers
  import opened SensorBase

  class MatterTemperatureSensor {
    const base: SensorBase
    /** `m_temperatureMeasurement`: the last successful reading, empty until the first one. */
    var temperatureMeasurement: Option<real>

    constructor (base: SensorBase)
      ensures this.base == base && temperatureMeasurement == None
    {
      this.base := base;
      temperatureMeasurement := None;
    }

    /** The endpoint id the temperature-sensor endpoint was created with. */
    method CreateEndpoint(id: EndpointId)
      modifies base
      ensures base.endpoint == Some(id)
    {
      base.SetEndpoint(id);
    }

    /**
      `UpdateMeasurements`, given what `MeasureTemperature` returned: a failed
      read changes nothing; a reading is stored and one publication is queued.
     */
    method UpdateMeasurements(temperature: Option<real>, layer: SystemLayer<Task>)
      modifies this, layer
      ensures temperature.None? ==> temperatureMeasurement == old(temperatureMeasurement) && layer.queue == old(layer.queue)
      ensures temperature.Some? ==> temperatureMeasurement == temperature && layer.queue == old(layer.queue) + [TemperaturePublication]
    {
      if temperature.None? {
        return;
      }
      temperatureMeasurement := temperature;
      layer.ScheduleLambda(TemperaturePublication);
    }

    /** `UpdateAttributes`: publishes the stored reading as it is when the closure runs. */
    method UpdateAttributes()
      modifies base.sink
      ensures base.sink.writes == old(base.sink.writes) + TemperatureWrites(base.endpoint, temperatureMeasurement)
    {
      base.UpdateTemperatureMeasurementAttributes(temperatureMeasurement);
    }
  }

  /**
    The closure captures only the sensor, not the reading: two successful reads
    before the Matter thread drains the queue publish the newer reading twice.
   */
  method TwoReadsBeforeDrain(sensor: MatterTemperatureSensor, layer: SystemLayer<Task>, first: real, second: real)
    requires layer.queue == []
    modifies sensor, layer, sensor.base.sink
    ensures layer.queue == []
    ensures sensor.base.sink.writes ==
            old(sensor.base.sink.writes) + TemperatureWrites(sensor.base.endpoint, Some(second)) + TemperatureWrites(sensor.base.endpoint, Some(second))
  {
    sensor.UpdateMeasurements(Some(first), layer);
    sensor.UpdateMeasurements(Some(second), layer);
    var task := layer.Next();
    assert task == TemperaturePublication;
    sensor.UpdateAttributes();
    task := layer.Next();
    assert task == TemperaturePublication;
    sensor.UpdateAttributes();
  }
}
