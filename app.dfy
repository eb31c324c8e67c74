/**
  app_main: the boot-reason mapping, the device-event handler's
  fabric-removed branch, the construction of the endpoints, the periodic
  sensor tick and the Matter thread running the closures the tick queues.
 */
module App {
  import opened Matter
  import opened Wrappers
  import opened SensorBase
  import opened MeasurementStore
  import Sen66
  import AirQualitySensor
  import TemperatureSensor
  import HumiditySensor
  import ExtendedColorLight
  import EspTimer

  /** `MEASUREMENT_SAMPLE_SECONDS`: the sensor tick period. */
  const MeasurementSampleSeconds: nat := 60

  /** `k_timeout_seconds`: how long a commissioning window opened after the last fabric is removed stays open. */
  const CommissioningTimeoutSeconds: nat := 300

  /** The tick period the timer is started with is one minute, in microseconds. */
  lemma SamplePeriod()
    ensures EspTimer.PeriodMicroseconds(MeasurementSampleSeconds) == 60_000_000
  {
  }

  // ---------------------------------------------------------------------
  // GetMatterBootReason
  // ---------------------------------------------------------------------

  /** `esp_reset_reason_t`. */
  datatype ResetReason =
    | Unknown | PowerOn | Ext | Sw | Panic | IntWdt | TaskWdt | Wdt
    | DeepSleep | Brownout | Sdio | Usb | Jtag | Efuse | PowerGlitch | CpuLockup

  /**
    `GetMatterBootReason`: the General Diagnostics boot reason reported for
    the chip's reset reason. Power-on, brownout, software reset, the three
    watchdogs and panics have codes; everything else, the external pin
    included, is 0xFF. The code 0x01 is never produced.
   */
  function GetMatterBootReason(reason: ResetReason): (r: UInt8)
    ensures r in {0x00, 0x02, 0x03, 0x04, 0x05, 0xFF}
    ensures r == 0x00 <==> reason == PowerOn
    ensures r == 0x02 <==> reason == Brownout
    ensures r == 0x03 <==> reason == Sw
    ensures r == 0x04 <==> reason in {IntWdt, TaskWdt, Wdt}
    ensures r == 0x05 <==> reason == Panic
    ensures r == 0xFF <==> reason !in {PowerOn, Brownout, Sw, IntWdt, TaskWdt, Wdt, Panic}
  {
    match reason
    case PowerOn => 0x00
    case Sw => 0x03
    case IntWdt | TaskWdt | Wdt => 0x04
    case Brownout => 0x02
    case Panic => 0x05
    case _ => 0xFF
  }

  // ---------------------------------------------------------------------
  // app_event_cb
  // ---------------------------------------------------------------------

  /** The device events `app_event_cb` distinguishes; every other event is `OtherEvent`. */
  datatype DeviceEvent =
    | InterfaceIpAddressChanged | CommissioningComplete | FailSafeTimerExpired
    | CommissioningSessionStarted | CommissioningSessionStopped
    | CommissioningWindowOpened | CommissioningWindowClosed
    | FabricRemoved | FabricWillBeRemoved | FabricUpdated | FabricCommitted
    | BLEDeinitialized | OtherEvent

  /** The part of the commissioning window manager the handler uses. */
  class CommissioningWindowManager {
    var windowOpen: bool
    /** The timeout, in seconds, of every `OpenBasicCommissioningWindow` call, in order. */
    var openRequests: seq<nat>

    constructor (windowOpen: bool)
      ensures this.windowOpen == windowOpen && openRequests == []
    {
      this.windowOpen := windowOpen;
      openRequests := [];
    }

    /** `OpenBasicCommissioningWindow(timeout, kDnssdOnly)`; `succeeds` is whether it succeeds. */
    method OpenBasicCommissioningWindow(timeoutSeconds: nat, succeeds: bool)
      modifies this
      ensures openRequests == old(openRequests) + [timeoutSeconds]
      ensures windowOpen == (old(windowOpen) || succeeds)
    {
      openRequests := openRequests + [timeoutSeconds];
      windowOpen := windowOpen || succeeds;
    }
  }

  /**
    `app_event_cb`, given the fabric count when the event is handled and
    whether opening a window would succeed: only a fabric removal that leaves
    no fabric, while no window is open, asks for a window, with the 300 s
    timeout. Every other event only logs.
   */
  method HandleDeviceEvent(event: DeviceEvent, fabricCount: nat, manager: CommissioningWindowManager, succeeds: bool)
    modifies manager
    ensures event == FabricRemoved && fabricCount == 0 && !old(manager.windowOpen) ==>
              manager.openRequests == old(manager.openRequests) + [CommissioningTimeoutSeconds] &&
              manager.windowOpen == succeeds
    ensures !(event == FabricRemoved && fabricCount == 0 && !old(manager.windowOpen)) ==>
              manager.openRequests == old(manager.openRequests) && manager.windowOpen == old(manager.windowOpen)
  {
    if event == FabricRemoved {
      if fabricCount == 0 {
        if !manager.windowOpen {
          manager.OpenBasicCommissioningWindow(CommissioningTimeoutSeconds, succeeds);
        }
      }
    }
  }

  // ---------------------------------------------------------------------
  // The device: construction, the tick and the Matter thread
  // ---------------------------------------------------------------------

  /** The closures one tick queues, in order: air quality if the read was non-empty, then temperature, then humidity if each succeeded. */
  function TickTasks(frame: seq<Sen66.Measurement>, temperature: Option<real>, humidity: Option<real>): (ts: seq<Task>)
    ensures |ts| <= 3
    ensures AirQualityPublication in ts <==> frame != []
    ensures TemperaturePublication in ts <==> temperature.Some?
    ensures HumidityPublication in ts <==> humidity.Some?
    ensures forall i, j :: 0 <= i < j < |ts| ==> TaskOrder(ts[i]) < TaskOrder(ts[j])
  {
    (if frame != [] then [AirQualityPublication] else [])
    + (if temperature.Some? then [TemperaturePublication] else [])
    + (if humidity.Some? then [HumidityPublication] else [])
  }

  /** The order in which a tick updates the sensors. */
  function TaskOrder(t: Task): nat
  {
    match t
    case AirQualityPublication => 0
    case TemperaturePublication => 1
    case HumidityPublication => 2
  }

  /** A tick queues at most one closure per sensor. */
  lemma TickTasksDistinct(frame: seq<Sen66.Measurement>, temperature: Option<real>, humidity: Option<real>)
    ensures var ts := TickTasks(frame, temperature, humidity);
            forall i, j :: 0 <= i < j < |ts| ==> ts[i] != ts[j]
  {
    var ts := TickTasks(frame, temperature, humidity);
    forall i, j | 0 <= i < j < |ts|
      ensures ts[i] != ts[j]
    {
      assert TaskOrder(ts[i]) < TaskOrder(ts[j]);
    }
  }

  class Device {
    const sink: AttributeSink
    const layer: SystemLayer<Task>
    const light: ExtendedColorLight.ExtendedColorLight
    const airQuality: AirQualitySensor.MatterAirQualitySensor
    const temperature: TemperatureSensor.MatterTemperatureSensor
    const humidity: HumiditySensor.MatterHumiditySensor
    /** The period of the running sensor timer, once `StartUpdateSensorsTimer` has started one. */
    var timerPeriod: Option<nat>

    /** Every writer writes to the one attribute store. */
    ghost predicate Valid()
      reads this, airQuality, airQuality.store, airQuality.base, temperature, temperature.base, humidity, humidity.base
    {
      airQuality.Valid() && airQuality.light == light && light.sink == sink && airQuality.base.sink == sink &&
      temperature.base.sink == sink && humidity.base.sink == sink &&
      airQuality.base != temperature.base && airQuality.base != humidity.base && temperature.base != humidity.base
    }

    constructor (sink: AttributeSink, layer: SystemLayer<Task>, light: ExtendedColorLight.ExtendedColorLight,
                 airQuality: AirQualitySensor.MatterAirQualitySensor,
                 temperature: TemperatureSensor.MatterTemperatureSensor,
                 humidity: HumiditySensor.MatterHumiditySensor)
      ensures this.sink == sink && this.layer == layer && this.light == light
      ensures this.airQuality == airQuality && this.temperature == temperature && this.humidity == humidity
      ensures timerPeriod == None
    {
      this.sink := sink;
      this.layer := layer;
      this.light := light;
      this.airQuality := airQuality;
      this.temperature := temperature;
      this.humidity := humidity;
      timerPeriod := None;
    }

    /**
      `StartUpdateSensorsTimer`: `created` and `started` are what the two
      timer calls returned; a timer runs only when both succeeded.
     */
    method StartUpdateSensorsTimer(created: bool, started: bool)
      modifies this
      ensures timerPeriod == (if created && started then Some(EspTimer.PeriodMicroseconds(MeasurementSampleSeconds)) else old(timerPeriod))
    {
      if !created {
        return;
      }
      if started {
        timerPeriod := Some(EspTimer.PeriodMicroseconds(MeasurementSampleSeconds));
      }
    }

    /**
      `UpdateSensorsTimerCallback`: air quality, then temperature, then
      humidity, each from its own sensor read (a driver status and the frame
      it filled in), with one clock reading per air-quality measurement.
     */
    method UpdateSensorsTimerCallback(aqStatus: int, aqData: Sen66.SensorData, elapsed: seq<real>,
                                      tStatus: int, tData: Sen66.SensorData,
                                      hStatus: int, hData: Sen66.SensorData)
      requires Valid() && |elapsed| == |Sen66.Frame(aqStatus, aqData)|
      modifies airQuality.store, temperature, humidity, layer
      ensures Valid()
      ensures airQuality.store.ids == old(airQuality.store.ids) && airQuality.store.windows == old(airQuality.store.windows)
      ensures airQuality.store.samples == AirQualitySensor.Ingest(old(airQuality.store.samples), Sen66.Frame(aqStatus, aqData), elapsed)
      ensures temperature.temperatureMeasurement ==
              (if Sen66.MeasureTemperature(tStatus, tData).Some? then Sen66.MeasureTemperature(tStatus, tData) else old(temperature.temperatureMeasurement))
      ensures humidity.humidityMeasurement ==
              (if Sen66.MeasureRelativeHumidity(hStatus, hData).Some? then Sen66.MeasureRelativeHumidity(hStatus, hData) else old(humidity.humidityMeasurement))
      ensures layer.queue == old(layer.queue) +
              TickTasks(Sen66.Frame(aqStatus, aqData), Sen66.MeasureTemperature(tStatus, tData), Sen66.MeasureRelativeHumidity(hStatus, hData))
    {
      ghost var a := if Sen66.Frame(aqStatus, aqData) != [] then [AirQualityPublication] else [];
      ghost var t := if Sen66.MeasureTemperature(tStatus, tData).Some? then [TemperaturePublication] else [];
      ghost var h := if Sen66.MeasureRelativeHumidity(hStatus, hData).Some? then [HumidityPublication] else [];
      var measurements := Sen66.ReadAllMeasurements(aqStatus, aqData);
      airQuality.UpdateMeasurements(measurements, elapsed, layer);
      assert layer.queue == old(layer.queue) + a;
      temperature.UpdateMeasurements(Sen66.MeasureTemperature(tStatus, tData), layer);
      assert layer.queue == old(layer.queue) + a + t;
      humidity.UpdateMeasurements(Sen66.MeasureRelativeHumidity(hStatus, hData), layer);
      assert layer.queue == old(layer.queue) + a + t + h;
      AppendAssociative(old(layer.queue) + a, t, h);
      AppendAssociative(old(layer.queue), a, t + h);
      AppendAssociative(a, t, h);
    }

    /** What running one closure writes, in the state it runs in. */
    function TaskWrites(t: Task, q: Queries): seq<Write>
      requires t == AirQualityPublication ==> AirQualitySensor.Castable(airQuality.store, q)
      reads this, airQuality, airQuality.store, airQuality.base, airQuality.light, temperature, temperature.base, humidity, humidity.base
    {
      match t
      case AirQualityPublication =>
        AirQualitySensor.PublicationWrites(airQuality.base.endpoint, airQuality.light.endpointId, airQuality.store, q)
      case TemperaturePublication => TemperatureWrites(temperature.base.endpoint, temperature.temperatureMeasurement)
      case HumidityPublication => HumidityWrites(humidity.base.endpoint, humidity.humidityMeasurement)
    }

    /** The Matter thread runs the oldest queued closure. */
    method RunNext(q: Queries) returns (t: Task)
      requires Valid() && layer.queue != []
      requires layer.queue[0] == AirQualityPublication ==> AirQualitySensor.Castable(airQuality.store, q)
      modifies layer, sink
      ensures t == old(layer.queue)[0] && layer.queue == old(layer.queue)[1..]
      ensures sink.writes == old(sink.writes) + TaskWrites(t, q)
    {
      t := layer.Next();
      match t
      case AirQualityPublication => airQuality.UpdateAirQualityAttributes(q);
      case TemperaturePublication => temperature.UpdateAttributes();
      case HumidityPublication => humidity.UpdateAttributes();
    }
  }

  /**
    `app_main`: the light endpoint first, then the air-quality, temperature and
    humidity endpoints, all on one attribute store and one Matter work queue;
    then the sensor timer. The endpoint ids are those esp-matter hands out, and
    `created` and `started` are what the two timer calls return. The
    air-quality endpoint registers every SEN66 channel but PM4.
   */
  method AppMain(lightId: EndpointId, airQualityId: EndpointId, temperatureId: EndpointId, humidityId: EndpointId,
                 created: bool, started: bool)
    returns (device: Device)
    ensures fresh(device) && device.Valid()
    ensures device.light.endpointId == lightId
    ensures device.airQuality.base.endpoint == Some(airQualityId)
    ensures device.temperature.base.endpoint == Some(temperatureId)
    ensures device.humidity.base.endpoint == Some(humidityId)
    ensures device.airQuality.store.ids == AirQualitySensor.Registered(Sen66.GetSupportedMeasurements())
    ensures device.airQuality.store.samples == map[]
    ensures device.temperature.temperatureMeasurement == None && device.humidity.humidityMeasurement == None
    ensures device.sink.writes == [] && device.layer.queue == []
    ensures device.timerPeriod == (if created && started then Some(EspTimer.PeriodMicroseconds(MeasurementSampleSeconds)) else None)
  {
    var sink := new AttributeSink();
    var layer := new SystemLayer<Task>();
    var light := new ExtendedColorLight.ExtendedColorLight(lightId, sink);
    var airQualityBase := new SensorBase(sink);
    var airQuality := new AirQualitySensor.MatterAirQualitySensor(airQualityBase, light);
    airQuality.CreateEndpoint(airQualityId, Sen66.GetSupportedMeasurements());
    var temperatureBase := new SensorBase(sink);
    var temperature := new TemperatureSensor.MatterTemperatureSensor(temperatureBase);
    temperature.CreateEndpoint(temperatureId);
    var humidityBase := new SensorBase(sink);
    var humidity := new HumiditySensor.MatterHumiditySensor(humidityBase);
    humidity.CreateEndpoint(humidityId);
    device := new Device(sink, layer, light, airQuality, temperature, humidity);
    device.StartUpdateSensorsTimer(created, started);
  }
}
