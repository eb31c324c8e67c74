/**
  MatterAirQuality: the earlier copy of the air-quality class, which the
  firmware no longer builds. It shares the type-to-cluster map, the channel
  registration, the classifiers and the light table with MatterAirQualitySensor,
  and differs in how it writes and schedules:
  - its writers take endpoints directly and have no null-endpoint guard;
  - relative humidity and temperature are published as `latest * 100`
    converted to int16, which truncates instead of rounding;
  - its `SetLightColorHSV` writes no ColorMode;
  - the timer callback queues a publication even after an empty read, and the
    closure captures both endpoints by value.
 */
module LegacyAirQuality {
  import opened Matter
  import opened Wrappers
  import opened AirQualityLevels
  import opened Indicator
  import opened MeasurementStore
  import opened SensorBase
  import opened AirQualitySensor
  import Sen66
  import ExtendedColorLight
  import EspTimer

  /** `MEASUREMENT_SAMPLE_SECONDS` of this class. */
  const MeasurementSampleSeconds: nat := 60

  /** The closure the timer callback schedules, with the endpoints it captured. */
  datatype LegacyTask = Publication(airQualityEndpoint: EndpointId, lightEndpoint: EndpointId)

  // ---------------------------------------------------------------------
  // The int16 conversion of a centi-unit reading
  // ---------------------------------------------------------------------

  /** Reals whose float-to-int16 conversion is defined: the truncated value fits. */
  predicate Int16Convertible(x: real)
  {
    -32769.0 < x < 32768.0
  }

  /** The implicit float-to-int16 conversion: truncation toward zero. */
  function TruncateToInt16(x: real): (r: int)
    requires Int16Convertible(x)
    ensures -0x8000 <= r < 0x8000
    ensures 0.0 <= x ==> r as real <= x < r as real + 1.0
    ensures x < 0.0 ==> r as real - 1.0 < x <= r as real
  {
    if x >= 0.0 then x.Floor else -((-x).Floor)
  }

  /** Two integers each within one of the same real are within one of each other, and equal if either is within a half of a whole real. */
  lemma NearbyIntegers(r: int, t: int, c: real)
    requires r as real - 0.5 <= c <= r as real + 0.5
    requires t as real - 1.0 < c < t as real + 1.0
    ensures -1 <= r - t <= 1
    ensures t as real == c ==> r == t
  {
  }

  lemma WholeTruncates(c: real)
    requires Int16Convertible(c) && c.Floor as real == c
    ensures TruncateToInt16(c) as real == c
  {
    var k := c.Floor;
    if c < 0.0 {
      assert -c == (-k) as real;
      assert (-c).Floor == -k;
    }
  }

  /** Truncating a real and rounding it half away from zero differ by at most one, and agree on whole numbers. */
  lemma TruncationWithinOneOfRounding(c: real)
    requires Int16Convertible(c)
    ensures -1 <= RoundHalfAwayFromZero(c) - TruncateToInt16(c) <= 1
    ensures c.Floor as real == c ==> RoundHalfAwayFromZero(c) == TruncateToInt16(c)
  {
    var t := TruncateToInt16(c);
    var r := RoundHalfAwayFromZero(c);
    NearbyIntegers(r, t, c);
    if c.Floor as real == c {
      WholeTruncates(c);
    }
  }

  /** A SEN66 temperature of 22.5 centi-degrees (raw 45) is published as 22 here and as 23 by MatterSensorBase. */
  lemma TruncationDiffersOnHalves()
    ensures TruncateToInt16(0.225 * 100.0) == 22
    ensures Centi(0.225) == 23
  {
  }

  // ---------------------------------------------------------------------
  // What the writers write
  // ---------------------------------------------------------------------

  /** Whether publishing channel `id` converts its latest value to int16 without leaving the range. */
  predicate CentiConvertible(store: Measurements, q: Queries, id: ClusterId)
    reads store
  {
    (id == RelativeHumidityMeasurement || id == TemperatureMeasurement) ==>
      Int16Convertible(q.latest(store.ViewOf(id)) * 100.0)
  }

  /** Every conversion a publication makes is defined. */
  ghost predicate LegacyCastable(store: Measurements, q: Queries)
    reads store
  {
    Castable(store, q) &&
    forall i :: 0 <= i < |store.ids| ==> CentiConvertible(store, q, store.ids[i])
  }

  /** What publishing one channel writes: a truncated centi-unit int16 for RH and temperature, three floats otherwise. */
  function LegacyChannelWrites(ep: EndpointId, id: ClusterId, view: View, q: Queries): seq<Write>
    requires (id == RelativeHumidityMeasurement || id == TemperatureMeasurement) ==> Int16Convertible(q.latest(view) * 100.0)
  {
    if id == RelativeHumidityMeasurement || id == TemperatureMeasurement then
      [Write(ep, id, MeasuredValue, Int16Value(TruncateToInt16(q.latest(view) * 100.0)))]
    else
      [Write(ep, id, MeasuredValue, FloatValue(q.latest(view))),
       Write(ep, id, AverageMeasuredValue, FloatValue(q.average(view))),
       Write(ep, id, PeakMeasuredValue, FloatValue(q.peak(view)))]
  }

  /** What the loop over `GetIds` writes for the given ids, in order. */
  function LegacyLoopWrites(ep: EndpointId, ids: seq<ClusterId>, store: Measurements, q: Queries): seq<Write>
    requires forall i :: 0 <= i < |ids| ==> CentiConvertible(store, q, ids[i])
    reads store
  {
    if ids == [] then []
    else
      var n := |ids| - 1;
      assert CentiConvertible(store, q, ids[n]);
      LegacyLoopWrites(ep, ids[..n], store, q) + LegacyChannelWrites(ep, ids[n], store.ViewOf(ids[n]), q)
  }

  /**
    The loop writes one value per RH or temperature channel and three per
    other channel, all to the captured endpoint, under a listed cluster, as
    the right kind of value: the same shape as MatterAirQualitySensor's loop.
   */
  lemma {:induction false} LegacyLoopWritesShape(ep: EndpointId, ids: seq<ClusterId>, store: Measurements, q: Queries)
    requires forall i :: 0 <= i < |ids| ==> CentiConvertible(store, q, ids[i])
    ensures |LegacyLoopWrites(ep, ids, store, q)| == WriteCount(ids)
    ensures forall w :: w in LegacyLoopWrites(ep, ids, store, q) ==> WellFormedChannelWrite(w, ep, ids)
  {
    if ids != [] {
      var n := |ids| - 1;
      var init := ids[..n];
      LegacyLoopWritesShape(ep, init, store, q);
      assert CentiConvertible(store, q, ids[n]);
      var earlier := LegacyLoopWrites(ep, init, store, q);
      var last := LegacyChannelWrites(ep, ids[n], store.ViewOf(ids[n]), q);
      LegacyChannelWritesShape(ep, ids[n], store.ViewOf(ids[n]), q);
      assert LegacyLoopWrites(ep, ids, store, q) == earlier + last;
      forall w | w in earlier + last
        ensures WellFormedChannelWrite(w, ep, ids)
      {
        if w in earlier {
          assert WellFormedChannelWrite(w, ep, init);
          assert w.cluster in init;
        } else {
          assert w in last;
        }
      }
    }
  }

  /** One channel: one int16 write for RH and temperature, three floats otherwise, all under its cluster. */
  lemma LegacyChannelWritesShape(ep: EndpointId, id: ClusterId, view: View, q: Queries)
    requires (id == RelativeHumidityMeasurement || id == TemperatureMeasurement) ==> Int16Convertible(q.latest(view) * 100.0)
    ensures |LegacyChannelWrites(ep, id, view, q)| == (if id == RelativeHumidityMeasurement || id == TemperatureMeasurement then 1 else 3)
    ensures forall w :: w in LegacyChannelWrites(ep, id, view, q) ==> w.cluster == id && WellFormedChannelWrite(w, ep, [id])
  {
  }

  /** Off the RH and temperature channels, a channel is published exactly as MatterAirQualitySensor publishes it with its endpoint set. */
  lemma LegacyChannelAgreesWithLive(ep: EndpointId, id: ClusterId, view: View, q: Queries)
    requires id != RelativeHumidityMeasurement && id != TemperatureMeasurement
    ensures LegacyChannelWrites(ep, id, view, q) == ChannelWrites(Some(ep), id, view, q)
  {
  }

  /** The writes `SetLightColorHSV(light, hue, saturation)` makes: hue, then saturation, no ColorMode. */
  function LegacyColorWrites(light: EndpointId, hue: UInt8, saturation: UInt8): seq<Write>
  {
    [Write(light, ColorControl, CurrentHue, UInt8Value(hue)),
     Write(light, ColorControl, CurrentSaturation, UInt8Value(saturation))]
  }

  /** What `SetLightByAirQuality(light, level)` writes: on, hue, saturation, level. */
  function LegacyLightWrites(light: EndpointId, level: Level): (ws: seq<Write>)
    ensures |ws| == 4 && ws[0] == ExtendedColorLight.OnOffWrite(light, true)
    ensures ExtendedColorLight.AllTo(ws, light)
    ensures forall i :: 0 <= i < |ws| ==> ws[i].attribute != ColorMode
  {
    var s := LightSettingFor(level);
    [ExtendedColorLight.OnOffWrite(light, true)]
    + LegacyColorWrites(light, s.hue, s.saturation)
    + [ExtendedColorLight.LevelWrite(light, s.levelPercent)]
  }

  /** The light update is MatterAirQualitySensor's with its ColorMode write (the fourth) removed. */
  lemma LegacyLightIsLiveWithoutColorMode(light: EndpointId, level: Level)
    ensures LightWrites(light, level)[3].attribute == ColorMode
    ensures LegacyLightWrites(light, level) == LightWrites(light, level)[..3] + LightWrites(light, level)[4..]
  {
    var live := LightWrites(light, level);
    var legacy := LegacyLightWrites(light, level);
    assert live[..3] + live[4..] == [live[0], live[1], live[2], live[4]];
  }

  /** What `StartMeasurements` writes before it creates the timer: off, 0 %, hue 0, saturation 0. */
  function InitialLightWrites(light: EndpointId): seq<Write>
  {
    [ExtendedColorLight.OnOffWrite(light, false), ExtendedColorLight.LevelWrite(light, 0.0)]
    + LegacyColorWrites(light, 0, 0)
  }

  /** The initial light state: off, level byte 1 (the minimum, not 0), hue 0 and saturation 0, in that order. */
  lemma InitialLightState(light: EndpointId)
    ensures var ws := InitialLightWrites(light);
            |ws| == 4 &&
            ws[0] == Write(light, OnOff, OnOffAttribute, BoolValue(false)) &&
            ws[1] == Write(light, LevelControl, CurrentLevel, UInt8Value(1)) &&
            ws[2] == Write(light, ColorControl, CurrentHue, UInt8Value(0)) &&
            ws[3] == Write(light, ColorControl, CurrentSaturation, UInt8Value(0))
  {
    LevelPercentEnds();
  }

  /** Everything one publication writes, in order: channels, the overall level, the light. */
  function LegacyPublicationWrites(ep: EndpointId, light: EndpointId, store: Measurements, q: Queries): seq<Write>
    requires LegacyCastable(store, q)
    reads store
  {
    var level := PublishedLevel(store, q);
    LegacyLoopWrites(ep, store.ids, store, q)
    + [Write(ep, AirQuality, AirQualityAttribute, Int16Value(Rank(level)))]
    + LegacyLightWrites(light, level)
  }

  /**
    A publication always ends with the AirQuality write of a known level
    followed by the light update for that same level, whatever was read.
   */
  lemma LegacyPublicationTail(ep: EndpointId, light: EndpointId, store: Measurements, q: Queries)
    requires LegacyCastable(store, q)
    ensures var ws := LegacyPublicationWrites(ep, light, store, q);
            var k := WriteCount(store.ids);
            var level := PublishedLevel(store, q);
            |ws| == k + 5 &&
            ws[k] == Write(ep, AirQuality, AirQualityAttribute, Int16Value(Rank(level))) &&
            1 <= Rank(level) <= 6 &&
            ws[k + 1..] == LegacyLightWrites(light, level)
  {
    LegacyLoopWritesShape(ep, store.ids, store, q);
    var level := PublishedLevel(store, q);
    var loop := LegacyLoopWrites(ep, store.ids, store, q);
    var ws := LegacyPublicationWrites(ep, light, store, q);
    assert ws == loop + ([Write(ep, AirQuality, AirQualityAttribute, Int16Value(Rank(level)))] + LegacyLightWrites(light, level));
  }

  // ---------------------------------------------------------------------
  // The file-static writers
  // ---------------------------------------------------------------------

  method UpdateAttributeValueBool(sink: AttributeSink, endpoint: EndpointId, cluster: ClusterId, attribute: nat, value: bool)
    modifies sink
    ensures sink.writes == old(sink.writes) + [Write(endpoint, cluster, attribute, BoolValue(value))]
  {
    sink.Update(Write(endpoint, cluster, attribute, BoolValue(value)));
  }

  method UpdateAttributeValueUInt8(sink: AttributeSink, endpoint: EndpointId, cluster: ClusterId, attribute: nat, value: UInt8)
    modifies sink
    ensures sink.writes == old(sink.writes) + [Write(endpoint, cluster, attribute, UInt8Value(value))]
  {
    sink.Update(Write(endpoint, cluster, attribute, UInt8Value(value)));
  }

  method UpdateAttributeValueInt16(sink: AttributeSink, endpoint: EndpointId, cluster: ClusterId, attribute: nat, value: int)
    requires -0x8000 <= value < 0x8000
    modifies sink
    ensures sink.writes == old(sink.writes) + [Write(endpoint, cluster, attribute, Int16Value(value))]
  {
    sink.Update(Write(endpoint, cluster, attribute, Int16Value(value)));
  }

  method UpdateAttributeValueFloat(sink: AttributeSink, endpoint: EndpointId, cluster: ClusterId, attribute: nat, value: real)
    modifies sink
    ensures sink.writes == old(sink.writes) + [Write(endpoint, cluster, attribute, FloatValue(value))]
  {
    sink.Update(Write(endpoint, cluster, attribute, FloatValue(value)));
  }

  class MatterAirQuality {
    /** `m_lightEndpoint`, given at construction. */
    const lightEndpoint: EndpointId
    /** `m_airQualityEndpoint`, set by `CreateEndpoint`. */
    var airQualityEndpoint: Option<EndpointId>
    /** `m_measurements`. */
    const store: Measurements
    const sink: AttributeSink
    /** The period of the running measurement timer, once `StartMeasurements` has started one. */
    var timerPeriod: Option<nat>

    constructor (lightEndpoint: EndpointId, sink: AttributeSink)
      ensures this.lightEndpoint == lightEndpoint && this.sink == sink
      ensures airQualityEndpoint == None && timerPeriod == None
      ensures fresh(store) && store.Valid() && store.ids == [] && store.windows == map[] && store.samples == map[]
    {
      this.lightEndpoint := lightEndpoint;
      this.sink := sink;
      airQualityEndpoint := None;
      timerPeriod := None;
      store := new Measurements();
    }

    /**
      `CreateEndpoint`: remembers the endpoint and registers one channel per
      supported type that has a cluster, in the same order and with the same
      windows as MatterAirQualitySensor.
     */
    method CreateEndpoint(id: EndpointId, supported: set<Sen66.MeasurementType>)
      requires store.Valid() && store.ids == [] && store.windows == map[]
      modifies this, store
      ensures airQualityEndpoint == Some(id) && timerPeriod == old(timerPeriod)
      ensures store.Valid() && store.ids == Registered(supported)
      ensures forall c :: c in store.windows ==> store.windows[c] == WindowFor(c)
      ensures store.samples == old(store.samples)
    {
      airQualityEndpoint := Some(id);
      RegisterChannels(store, supported);
    }

    /**
      `StartMeasurements`: puts the light in a known state, then creates and
      starts a periodic timer of `MEASUREMENT_SAMPLE_SECONDS`. `created` and
      `started` are what the two timer calls returned; a timer runs only when
      both succeeded.
     */
    method StartMeasurements(created: bool, started: bool)
      modifies this, sink
      ensures sink.writes == old(sink.writes) + InitialLightWrites(lightEndpoint)
      ensures timerPeriod == (if created && started then Some(EspTimer.PeriodMicroseconds(MeasurementSampleSeconds)) else old(timerPeriod))
      ensures airQualityEndpoint == old(airQualityEndpoint)
    {
      SetLightOnOff(sink, lightEndpoint, false);
      SetLightLevelPercent(sink, lightEndpoint, 0.0);
      SetLightColorHSV(sink, lightEndpoint, 0, 0);
      if !created {
        return;
      }
      if started {
        timerPeriod := Some(EspTimer.PeriodMicroseconds(MeasurementSampleSeconds));
      }
    }

    /**
      `MeasureAirQuality`, given what `ReadAllMeasurements` returned and the
      clock reading taken for each measurement: an empty read returns early;
      otherwise every mapped measurement is appended under its cluster.
     */
    method MeasureAirQuality(measurements: seq<Sen66.Measurement>, elapsed: seq<real>)
      requires |elapsed| == |measurements|
      modifies store
      ensures store.ids == old(store.ids) && store.windows == old(store.windows)
      ensures measurements == [] ==> store.samples == old(store.samples)
      ensures store.samples == Ingest(old(store.samples), measurements, elapsed)
    {
      if measurements == [] {
        return;
      }
      AddMeasurements(store, measurements, elapsed);
    }

    /**
      `MeasureAirQualityTimerCallback`: measures, then queues a publication
      carrying the two endpoints as they are now, whether or not the read
      produced anything.
     */
    method MeasureAirQualityTimerCallback(measurements: seq<Sen66.Measurement>, elapsed: seq<real>, layer: SystemLayer<LegacyTask>)
      requires |elapsed| == |measurements| && airQualityEndpoint.Some?
      modifies store, layer
      ensures store.ids == old(store.ids) && store.windows == old(store.windows)
      ensures store.samples == Ingest(old(store.samples), measurements, elapsed)
      ensures layer.queue == old(layer.queue) + [Publication(airQualityEndpoint.value, lightEndpoint)]
    {
      MeasureAirQuality(measurements, elapsed);
      layer.ScheduleLambda(Publication(airQualityEndpoint.value, lightEndpoint));
    }

    /** The body of the loop over `GetIds` for one cluster. */
    method PublishChannel(ep: EndpointId, clusterId: ClusterId, q: Queries)
      requires CentiConvertible(store, q, clusterId)
      modifies sink
      ensures sink.writes == old(sink.writes) + LegacyChannelWrites(ep, clusterId, store.ViewOf(clusterId), q)
    {
      var view := store.ViewOf(clusterId);
      if clusterId == RelativeHumidityMeasurement || clusterId == TemperatureMeasurement {
        UpdateAttributeValueInt16(sink, ep, clusterId, MeasuredValue, TruncateToInt16(q.latest(view) * 100.0));
      } else {
        UpdateAttributeValueFloat(sink, ep, clusterId, MeasuredValue, q.latest(view));
        UpdateAttributeValueFloat(sink, ep, clusterId, AverageMeasuredValue, q.average(view));
        UpdateAttributeValueFloat(sink, ep, clusterId, PeakMeasuredValue, q.peak(view));
      }
    }

    /** The loop of `UpdateAirQualityAttributes` over `GetIds`. */
    method PublishChannels(ep: EndpointId, q: Queries)
      requires LegacyCastable(store, q)
      modifies sink
      ensures sink.writes == old(sink.writes) + LegacyLoopWrites(ep, store.ids, store, q)
    {
      var clusterIds := store.ids;
      for i := 0 to |clusterIds|
        invariant sink.writes == old(sink.writes) + LegacyLoopWrites(ep, clusterIds[..i], store, q)
      {
        assert clusterIds[..i + 1][..i] == clusterIds[..i];
        assert CentiConvertible(store, q, clusterIds[i]);
        AppendAssociative(old(sink.writes), LegacyLoopWrites(ep, clusterIds[..i], store, q),
                          LegacyChannelWrites(ep, clusterIds[i], store.ViewOf(clusterIds[i]), q));
        PublishChannel(ep, clusterIds[i], q);
      }
      assert clusterIds[..|clusterIds|] == clusterIds;
    }

    /**
      `UpdateAirQualityAttributes(airQualityEndpoint, lightEndpoint, this)`:
      publishes every registered channel, then the worst of the three
      classifications, then the light, all to the endpoints it is given.
     */
    method UpdateAirQualityAttributes(ep: EndpointId, light: EndpointId, q: Queries)
      requires LegacyCastable(store, q)
      modifies sink
      ensures sink.writes == old(sink.writes) + LegacyPublicationWrites(ep, light, store, q)
    {
      ghost var level := PublishedLevel(store, q);
      ghost var channels := LegacyLoopWrites(ep, store.ids, store, q);
      ghost var levelWrite := [Write(ep, AirQuality, AirQualityAttribute, Int16Value(Rank(level)))];
      PublishChannels(ep, q);
      PublishAirQuality(ep, light, q);
      AppendAssociative(old(sink.writes), channels, levelWrite);
      AppendAssociative(old(sink.writes), channels + levelWrite, LegacyLightWrites(light, level));
    }

    /** The worst-of classification, its write to the AirQuality cluster and the light update. */
    method PublishAirQuality(ep: EndpointId, light: EndpointId, q: Queries)
      requires Castable(store, q)
      modifies sink
      ensures sink.writes == old(sink.writes)
                             + [Write(ep, AirQuality, AirQualityAttribute, Int16Value(Rank(PublishedLevel(store, q))))]
                             + LegacyLightWrites(light, PublishedLevel(store, q))
    {
      var airQuality := PublishedLevel(store, q);
      UpdateAttributeValueInt16(sink, ep, AirQuality, AirQualityAttribute, Rank(airQuality));
      SetLightByAirQuality(sink, light, airQuality);
    }

    static method SetLightOnOff(sink: AttributeSink, light: EndpointId, on: bool)
      modifies sink
      ensures sink.writes == old(sink.writes) + [ExtendedColorLight.OnOffWrite(light, on)]
    {
      UpdateAttributeValueBool(sink, light, OnOff, OnOffAttribute, on);
    }

    /** The same level byte as MatterExtendedColorLight: trunc(p / 100 * 253) + 1. */
    static method SetLightLevelPercent(sink: AttributeSink, light: EndpointId, levelPercent: real)
      requires IsPercent(levelPercent)
      modifies sink
      ensures sink.writes == old(sink.writes) + [ExtendedColorLight.LevelWrite(light, levelPercent)]
    {
      UpdateAttributeValueUInt8(sink, light, LevelControl, CurrentLevel, LevelPercentToByte(levelPercent));
    }

    static method SetLightColorHSV(sink: AttributeSink, light: EndpointId, hue: UInt8, saturation: UInt8)
      modifies sink
      ensures sink.writes == old(sink.writes) + LegacyColorWrites(light, hue, saturation)
    {
      UpdateAttributeValueUInt8(sink, light, ColorControl, CurrentHue, hue);
      UpdateAttributeValueUInt8(sink, light, ColorControl, CurrentSaturation, saturation);
    }

    static method SetLightByAirQuality(sink: AttributeSink, light: EndpointId, level: Level)
      modifies sink
      ensures sink.writes == old(sink.writes) + LegacyLightWrites(light, level)
    {
      var setting := LightSettingFor(level);
      SetLightOnOff(sink, light, true);
      SetLightColorHSV(sink, light, setting.hue, setting.saturation);
      SetLightLevelPercent(sink, light, setting.levelPercent);
    }
  }

  /**
    A tick whose read comes back empty leaves the store as it was, yet still
    queues a publication, which republishes the stale values and drives the
    light again.
   */
  method EmptyReadRepublishes(sensor: MatterAirQuality, layer: SystemLayer<LegacyTask>, q: Queries)
    requires sensor.airQualityEndpoint.Some? && layer.queue == [] && LegacyCastable(sensor.store, q)
    modifies sensor.store, layer, sensor.sink
    ensures sensor.store.ids == old(sensor.store.ids) && sensor.store.windows == old(sensor.store.windows)
    ensures sensor.store.samples == old(sensor.store.samples) && layer.queue == []
    ensures sensor.sink.writes ==
            old(sensor.sink.writes) + LegacyPublicationWrites(sensor.airQualityEndpoint.value, sensor.lightEndpoint, sensor.store, q)
  {
    sensor.MeasureAirQualityTimerCallback([], [], layer);
    var task := layer.Next();
    sensor.UpdateAirQualityAttributes(task.airQualityEndpoint, task.lightEndpoint, q);
  }
}
