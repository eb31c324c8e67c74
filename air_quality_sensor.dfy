/**
  MatterAirQualitySensor: registers a store channel per supported measurement,
  ingests each read into the store, and on the Matter thread publishes every
  channel, the overall air quality and the indicator light.
 */
module AirQualitySensor {
  import opened Matter
  import opened Wrappers
  import opened AirQualityLevels
  import opened Classifier
  import opened Indicator
  import opened MeasurementStore
  import opened SensorBase
  import Sen66
  import ExtendedColorLight

  /** `measurementTypeToClusterId`: every type but PM4 has a cluster. */
  function ClusterOf(t: Sen66.MeasurementType): (c: Option<ClusterId>)
    ensures c.None? <==> t == Sen66.PM4p0
  {
    match t
    case RelativeHumidity => Some(RelativeHumidityMeasurement)
    case Temperature => Some(TemperatureMeasurement)
    case CO2 => Some(CarbonDioxideConcentrationMeasurement)
    case NOx => Some(NitrogenDioxideConcentrationMeasurement)
    case VOC => Some(TotalVolatileOrganicCompoundsConcentrationMeasurement)
    case PM1p0 => Some(Pm1ConcentrationMeasurement)
    case PM2p5 => Some(Pm25ConcentrationMeasurement)
    case PM10p0 => Some(Pm10ConcentrationMeasurement)
    case PM4p0 => None
  }

  /** No two types share a cluster. */
  lemma ClusterOfInjective(a: Sen66.MeasurementType, b: Sen66.MeasurementType)
    requires ClusterOf(a).Some? && ClusterOf(a) == ClusterOf(b)
    ensures a == b
  {
  }

  // ---------------------------------------------------------------------
  // Registration (CreateEndpoint)
  // ---------------------------------------------------------------------

  /** The types `CreateEndpoint` checks, in the order it checks them. */
  const RegistrationOrder: seq<Sen66.MeasurementType> :=
    [Sen66.RelativeHumidity, Sen66.Temperature, Sen66.CO2, Sen66.PM1p0,
     Sen66.PM2p5, Sen66.PM10p0, Sen66.NOx, Sen66.VOC]

  /** Each type is checked once. */
  lemma RegistrationOrderDistinct(i: nat, j: nat)
    requires i < j < |RegistrationOrder|
    ensures RegistrationOrder[i] != RegistrationOrder[j]
  {
    var positions := map[Sen66.RelativeHumidity := 0, Sen66.Temperature := 1, Sen66.CO2 := 2, Sen66.PM1p0 := 3,
                         Sen66.PM2p5 := 4, Sen66.PM10p0 := 5, Sen66.NOx := 6, Sen66.VOC := 7];
    assert forall n :: 0 <= n < |RegistrationOrder| ==> RegistrationOrder[n] in positions && positions[RegistrationOrder[n]] == n;
  }

  /** The window sizes a cluster's channel is registered with. */
  function WindowFor(id: ClusterId): Windows
  {
    if id == RelativeHumidityMeasurement || id == TemperatureMeasurement then Windows(60.0, 60.0)
    else Windows(3600.0, 3600.0)
  }

  /** The channels registered after checking the first k types of `RegistrationOrder`. */
  function RegisteredPrefix(supported: set<Sen66.MeasurementType>, k: nat): (ids: seq<ClusterId>)
    requires k <= |RegistrationOrder|
    ensures |ids| <= k
  {
    if k == 0 then []
    else
      var t := RegistrationOrder[k - 1];
      RegisteredPrefix(supported, k - 1) + (if t in supported then [ClusterOf(t).value] else [])
  }

  /** The channels `CreateEndpoint` registers for a sensor's supported set, in order. */
  function Registered(supported: set<Sen66.MeasurementType>): seq<ClusterId>
  {
    RegisteredPrefix(supported, |RegistrationOrder|)
  }

  /** A cluster is registered by the first k checks iff one of those types is supported and maps to it. */
  lemma {:induction false} RegisteredPrefixMembers(supported: set<Sen66.MeasurementType>, k: nat, id: ClusterId)
    requires k <= |RegistrationOrder|
    ensures id in RegisteredPrefix(supported, k) <==>
            exists j :: 0 <= j < k && RegistrationOrder[j] in supported && ClusterOf(RegistrationOrder[j]) == Some(id)
  {
    if k > 0 {
      RegisteredPrefixMembers(supported, k - 1, id);
      if id in RegisteredPrefix(supported, k) && id !in RegisteredPrefix(supported, k - 1) {
        assert RegistrationOrder[k - 1] in supported && ClusterOf(RegistrationOrder[k - 1]) == Some(id);
      }
    }
  }

  /** The first k checks register each cluster at most once. */
  lemma {:induction false} RegisteredPrefixDistinct(supported: set<Sen66.MeasurementType>, k: nat)
    requires k <= |RegistrationOrder|
    ensures Distinct(RegisteredPrefix(supported, k))
  {
    if k > 0 {
      var before := RegisteredPrefix(supported, k - 1);
      RegisteredPrefixDistinct(supported, k - 1);
      var t := RegistrationOrder[k - 1];
      if t in supported {
        NextNotRegistered(supported, k - 1);
        DistinctAppend(before, ClusterOf(t).value);
      } else {
        assert RegisteredPrefix(supported, k) == before + [];
        assert before + [] == before;
      }
    }
  }

  /**
    Exactly the supported types that have a cluster get a channel, each once:
    PM4, which has no cluster, never does.
   */
  lemma RegisteredIff(supported: set<Sen66.MeasurementType>, id: ClusterId)
    ensures Distinct(Registered(supported))
    ensures id in Registered(supported) <==> exists t :: t in supported && ClusterOf(t) == Some(id)
  {
    RegisteredPrefixDistinct(supported, |RegistrationOrder|);
    RegisteredPrefixMembers(supported, |RegistrationOrder|, id);
    if t :| t in supported && ClusterOf(t) == Some(id) {
      var j := match t
        case RelativeHumidity => 0 case Temperature => 1 case CO2 => 2 case PM1p0 => 3
        case PM2p5 => 4 case PM10p0 => 5 case NOx => 6 case VOC => 7 case PM4p0 => 0;
      assert RegistrationOrder[j] == t;
    }
  }

  /** With the SEN66's supported set, all eight clusters are registered, in the checking order. */
  lemma Sen66Registration()
    ensures Registered(Sen66.GetSupportedMeasurements()) ==
            [RelativeHumidityMeasurement, TemperatureMeasurement, CarbonDioxideConcentrationMeasurement,
             Pm1ConcentrationMeasurement, Pm25ConcentrationMeasurement, Pm10ConcentrationMeasurement,
             NitrogenDioxideConcentrationMeasurement, TotalVolatileOrganicCompoundsConcentrationMeasurement]
  {
    var s := Sen66.GetSupportedMeasurements();
    assert forall t :: t in s by {
      forall t ensures t in s {
        match t
        case PM1p0 => case PM2p5 => case PM4p0 => case PM10p0 =>
        case RelativeHumidity => case Temperature => case VOC => case NOx => case CO2 =>
      }
    }
    assert RegisteredPrefix(s, 1) == [RelativeHumidityMeasurement];
    assert RegisteredPrefix(s, 2) == [RelativeHumidityMeasurement, TemperatureMeasurement];
    assert RegisteredPrefix(s, 3) == RegisteredPrefix(s, 2) + [CarbonDioxideConcentrationMeasurement];
    assert RegisteredPrefix(s, 4) == RegisteredPrefix(s, 3) + [Pm1ConcentrationMeasurement];
    assert RegisteredPrefix(s, 5) == RegisteredPrefix(s, 4) + [Pm25ConcentrationMeasurement];
    assert RegisteredPrefix(s, 6) == RegisteredPrefix(s, 5) + [Pm10ConcentrationMeasurement];
    assert RegisteredPrefix(s, 7) == RegisteredPrefix(s, 6) + [NitrogenDioxideConcentrationMeasurement];
    assert RegisteredPrefix(s, 8) == RegisteredPrefix(s, 7) + [TotalVolatileOrganicCompoundsConcentrationMeasurement];
  }

  // ---------------------------------------------------------------------
  // Ingestion (UpdateMeasurements)
  // ---------------------------------------------------------------------

  function Lookup(samples: map<ClusterId, seq<Sample>>, id: ClusterId): seq<Sample>
  {
    if id in samples then samples[id] else []
  }

  /**
    The store contents after appending a read, one measurement at a time;
    `elapsed[i]` is the clock reading taken for measurement i.
   */
  function Ingest(samples: map<ClusterId, seq<Sample>>, ms: seq<Sen66.Measurement>, elapsed: seq<real>): map<ClusterId, seq<Sample>>
    requires |elapsed| == |ms|
  {
    if ms == [] then samples
    else
      var n := |ms| - 1;
      var before := Ingest(samples, ms[..n], elapsed[..n]);
      match ClusterOf(ms[n].kind)
      case None => before
      case Some(id) => before[id := Lookup(before, id) + [Sample(ms[n].value, elapsed[n])]]
  }

  /** Reference: the samples a read contributes under one id, in read order. */
  function SamplesFor(ms: seq<Sen66.Measurement>, elapsed: seq<real>, id: ClusterId): seq<Sample>
    requires |elapsed| == |ms|
  {
    if ms == [] then []
    else
      var n := |ms| - 1;
      SamplesFor(ms[..n], elapsed[..n], id) + (if ClusterOf(ms[n].kind) == Some(id) then [Sample(ms[n].value, elapsed[n])] else [])
  }

  /** Ingestion appends to each id exactly the samples of the measurements mapped to it, in read order, and touches nothing else. */
  lemma {:induction false} IngestPerId(samples: map<ClusterId, seq<Sample>>, ms: seq<Sen66.Measurement>, elapsed: seq<real>, id: ClusterId)
    requires |elapsed| == |ms|
    ensures Lookup(Ingest(samples, ms, elapsed), id) == Lookup(samples, id) + SamplesFor(ms, elapsed, id)
  {
    if ms != [] {
      var n := |ms| - 1;
      IngestPerId(samples, ms[..n], elapsed[..n], id);
    }
  }

  /** A sample under an id comes from a measurement of a type mapped to that id; in particular no PM4 reading is ever stored. */
  lemma {:induction false} SamplesForSource(ms: seq<Sen66.Measurement>, elapsed: seq<real>, id: ClusterId, s: Sample)
    requires |elapsed| == |ms|
    ensures s in SamplesFor(ms, elapsed, id) <==>
            exists i :: 0 <= i < |ms| && ClusterOf(ms[i].kind) == Some(id) && s == Sample(ms[i].value, elapsed[i])
  {
    if ms != [] {
      var n := |ms| - 1;
      SamplesForSource(ms[..n], elapsed[..n], id, s);
      if s in SamplesFor(ms, elapsed, id) && s !in SamplesFor(ms[..n], elapsed[..n], id) {
        assert ClusterOf(ms[n].kind) == Some(id) && s == Sample(ms[n].value, elapsed[n]);
      }
      if i :| 0 <= i < |ms| && ClusterOf(ms[i].kind) == Some(id) && s == Sample(ms[i].value, elapsed[i]) {
        if i < n {
          assert ms[..n][i] == ms[i] && elapsed[..n][i] == elapsed[i];
        }
      }
    }
  }

  // ---------------------------------------------------------------------
  // Publication (UpdateAirQualityAttributes)
  // ---------------------------------------------------------------------

  /** What publishing one channel writes: one centi-unit value for RH and temperature, three floats otherwise. */
  function ChannelWrites(endpoint: Option<EndpointId>, id: ClusterId, view: View, q: Queries): seq<Write>
  {
    if id == RelativeHumidityMeasurement then HumidityWrites(endpoint, Some(q.latest(view)))
    else if id == TemperatureMeasurement then TemperatureWrites(endpoint, Some(q.latest(view)))
    else GuardedWrite(endpoint, id, MeasuredValue, FloatValue(q.latest(view)))
         + GuardedWrite(endpoint, id, AverageMeasuredValue, FloatValue(q.average(view)))
         + GuardedWrite(endpoint, id, PeakMeasuredValue, FloatValue(q.peak(view)))
  }

  /** What the loop over `GetIds` writes for the given ids, in order. */
  function LoopWrites(endpoint: Option<EndpointId>, ids: seq<ClusterId>, store: Measurements, q: Queries): seq<Write>
    reads store
  {
    if ids == [] then []
    else
      var n := |ids| - 1;
      LoopWrites(endpoint, ids[..n], store, q) + ChannelWrites(endpoint, ids[n], store.ViewOf(ids[n]), q)
  }

  /** One more iteration of the loop appends the next channel's writes. */
  lemma LoopWritesExtend(endpoint: Option<EndpointId>, ids: seq<ClusterId>, i: nat, store: Measurements, q: Queries)
    requires i < |ids|
    ensures LoopWrites(endpoint, ids[..i + 1], store, q) ==
            LoopWrites(endpoint, ids[..i], store, q) + ChannelWrites(endpoint, ids[i], store.ViewOf(ids[i]), q)
  {
    assert ids[..i + 1][..i] == ids[..i];
  }

  /** Every write of the loop goes to the sensor's endpoint, under a listed cluster, as the right kind of value. */
  ghost predicate WellFormedChannelWrite(w: Write, ep: EndpointId, ids: seq<ClusterId>)
  {
    w.endpoint == ep && w.cluster in ids &&
    (if w.cluster == RelativeHumidityMeasurement || w.cluster == TemperatureMeasurement
     then w.attribute == MeasuredValue && w.value.Int16Value?
     else w.attribute in {MeasuredValue, AverageMeasuredValue, PeakMeasuredValue} && w.value.FloatValue?)
  }

  /** One channel with the endpoint set: one int16 write for RH and temperature, three floats otherwise, all under its cluster. */
  lemma ChannelWritesShape(ep: EndpointId, id: ClusterId, view: View, q: Queries)
    ensures |ChannelWrites(Some(ep), id, view, q)| == (if id == RelativeHumidityMeasurement || id == TemperatureMeasurement then 1 else 3)
    ensures forall w :: w in ChannelWrites(Some(ep), id, view, q) ==> w.cluster == id && WellFormedChannelWrite(w, ep, [id])
  {
  }

  /**
    With the endpoint set, the loop writes one value per RH or temperature
    channel and three per other channel, all well formed; with the endpoint
    unset it writes nothing.
   */
  lemma {:induction false} LoopWritesShape(endpoint: Option<EndpointId>, ids: seq<ClusterId>, store: Measurements, q: Queries)
    ensures endpoint.None? ==> LoopWrites(endpoint, ids, store, q) == []
    ensures endpoint.Some? ==>
              |LoopWrites(endpoint, ids, store, q)| == WriteCount(ids) &&
              forall w :: w in LoopWrites(endpoint, ids, store, q) ==> WellFormedChannelWrite(w, endpoint.value, ids)
  {
    if ids != [] {
      var n := |ids| - 1;
      LoopWritesShape(endpoint, ids[..n], store, q);
      if endpoint.Some? {
        var earlier := LoopWrites(endpoint, ids[..n], store, q);
        var last := ChannelWrites(endpoint, ids[n], store.ViewOf(ids[n]), q);
        ChannelWritesShape(endpoint.value, ids[n], store.ViewOf(ids[n]), q);
        assert LoopWrites(endpoint, ids, store, q) == earlier + last;
        forall w | w in earlier + last
          ensures WellFormedChannelWrite(w, endpoint.value, ids)
        {
          if w in earlier {
            assert WellFormedChannelWrite(w, endpoint.value, ids[..n]);
            assert w.cluster in ids[..n];
          } else {
            assert w in last;
          }
        }
      }
    }
  }

  /** How many writes the loop makes for the given ids with the endpoint set. */
  function WriteCount(ids: seq<ClusterId>): nat
  {
    if ids == [] then 0
    else
      var n := |ids| - 1;
      WriteCount(ids[..n]) + (if ids[n] == RelativeHumidityMeasurement || ids[n] == TemperatureMeasurement then 1 else 3)
  }

  /** A concentration channel is published as MeasuredValue, then AverageMeasuredValue, then PeakMeasuredValue. */
  lemma ConcentrationWriteOrder(ep: EndpointId, id: ClusterId, view: View, q: Queries)
    requires id != RelativeHumidityMeasurement && id != TemperatureMeasurement
    ensures var ws := ChannelWrites(Some(ep), id, view, q);
            |ws| == 3 &&
            ws[0] == Write(ep, id, 0x0, FloatValue(q.latest(view))) &&
            ws[1] == Write(ep, id, 0x5, FloatValue(q.average(view))) &&
            ws[2] == Write(ep, id, 0x3, FloatValue(q.peak(view)))
  {
  }

  /** The three float-to-uint16 casts the classifiers make are defined. */
  ghost predicate Castable(store: Measurements, q: Queries)
    reads store
  {
    InUInt16Range(q.latest(store.ViewOf(CarbonDioxideConcentrationMeasurement))) &&
    InUInt16Range(q.average(store.ViewOf(Pm25ConcentrationMeasurement))) &&
    InUInt16Range(q.average(store.ViewOf(Pm10ConcentrationMeasurement)))
  }

  /**
    The level published: CO2 on its latest value, PM2.5 and PM10 on their
    averages, combined worst-of. All three are consulted whatever is registered.
   */
  function PublishedLevel(store: Measurements, q: Queries): (r: Level)
    reads store
    requires Castable(store, q)
    ensures r != Unknown
  {
    OverallLevel(q.latest(store.ViewOf(CarbonDioxideConcentrationMeasurement)),
                 q.average(store.ViewOf(Pm25ConcentrationMeasurement)),
                 q.average(store.ViewOf(Pm10ConcentrationMeasurement)))
  }

  /** What `SetLightByAirQuality(level)` writes to the light: on, then colour, then level. */
  function LightWrites(light: EndpointId, level: Level): (ws: seq<Write>)
    ensures |ws| == 5 && ws[0] == ExtendedColorLight.OnOffWrite(light, true)
    ensures ExtendedColorLight.AllTo(ws, light)
  {
    var s := LightSettingFor(level);
    [ExtendedColorLight.OnOffWrite(light, true)]
    + ExtendedColorLight.ColorWrites(light, s.hue, s.saturation)
    + [ExtendedColorLight.LevelWrite(light, s.levelPercent)]
  }

  /** The light's colour and level writes carry the table's hue, saturation 254 and level byte. */
  lemma LightWritesCarryTable(light: EndpointId, level: Level)
    ensures var ws := LightWrites(light, level);
            ws[1].value == UInt8Value(LightSettingFor(level).hue) &&
            ws[2].value == UInt8Value(254) &&
            ws[4].value == UInt8Value(LevelPercentToByte(LightSettingFor(level).levelPercent))
  {
  }

  /** Everything one publication writes, in order. */
  function PublicationWrites(endpoint: Option<EndpointId>, light: EndpointId, store: Measurements, q: Queries): seq<Write>
    reads store
    requires Castable(store, q)
  {
    var level := PublishedLevel(store, q);
    LoopWrites(endpoint, store.ids, store, q)
    + GuardedWrite(endpoint, AirQuality, AirQualityAttribute, Int16Value(Rank(level)))
    + LightWrites(light, level)
  }

  /**
    After the channels, a publication writes the AirQuality attribute (with the
    endpoint set), as the enum value of a known level, then drives the light
    with that same level.
   */
  lemma PublicationTail(ep: EndpointId, light: EndpointId, store: Measurements, q: Queries)
    requires Castable(store, q)
    ensures var ws := PublicationWrites(Some(ep), light, store, q);
            var k := |LoopWrites(Some(ep), store.ids, store, q)|;
            var level := PublishedLevel(store, q);
            |ws| == k + 6 &&
            ws[k] == Write(ep, AirQuality, AirQualityAttribute, Int16Value(Rank(level))) &&
            1 <= Rank(level) <= 6 &&
            ws[k + 1..] == LightWrites(light, level)
  {
  }

  class MatterAirQualitySensor {
    const base: SensorBase
    const light: ExtendedColorLight.ExtendedColorLight
    /** `m_measurements`. */
    const store: Measurements

    /** The light and the sensor write to the same attribute store. */
    ghost predicate Valid()
      reads this, store
    {
      light.sink == base.sink && store.Valid()
    }

    constructor (base: SensorBase, light: ExtendedColorLight.ExtendedColorLight)
      requires light.sink == base.sink
      ensures this.base == base && this.light == light
      ensures Valid() && fresh(store) && store.ids == [] && store.windows == map[] && store.samples == map[]
    {
      this.base := base;
      this.light := light;
      store := new Measurements();
    }

    /**
      `CreateEndpoint`: remembers the endpoint and registers one channel per
      supported type that has a cluster, in a fixed order.
     */
    method CreateEndpoint(id: EndpointId, supported: set<Sen66.MeasurementType>)
      requires Valid() && store.ids == [] && store.windows == map[]
      modifies base, store
      ensures Valid() && base.endpoint == Some(id)
      ensures store.ids == Registered(supported)
      ensures forall c :: c in store.windows ==> store.windows[c] == WindowFor(c)
      ensures store.samples == old(store.samples)
    {
      base.SetEndpoint(id);
      RegisterChannels(store, supported);
    }

    /**
      `UpdateMeasurements`, given what `ReadAllMeasurements` returned and the
      clock reading taken for each measurement: an empty read changes nothing;
      otherwise every mapped measurement is appended under its cluster, in
      read order, and exactly one publication is queued.
     */
    method UpdateMeasurements(measurements: seq<Sen66.Measurement>, elapsed: seq<real>, layer: SystemLayer<Task>)
      requires |elapsed| == |measurements|
      modifies store, layer
      ensures store.ids == old(store.ids) && store.windows == old(store.windows)
      ensures measurements == [] ==> store.samples == old(store.samples) && layer.queue == old(layer.queue)
      ensures measurements != [] ==>
                store.samples == Ingest(old(store.samples), measurements, elapsed) &&
                layer.queue == old(layer.queue) + [AirQualityPublication]
    {
      if measurements == [] {
        return;
      }
      AddMeasurements(store, measurements, elapsed);
      layer.ScheduleLambda(AirQualityPublication);
    }

    /** The body of the loop over `GetIds` for one cluster. */
    method PublishChannel(clusterId: ClusterId, q: Queries)
      modifies base.sink
      ensures base.sink.writes == old(base.sink.writes) + ChannelWrites(base.endpoint, clusterId, store.ViewOf(clusterId), q)
    {
      var view := store.ViewOf(clusterId);
      if clusterId == RelativeHumidityMeasurement {
        base.UpdateRelativeHumidityMeasurementAttributes(Some(q.latest(view)));
      } else if clusterId == TemperatureMeasurement {
        base.UpdateTemperatureMeasurementAttributes(Some(q.latest(view)));
      } else {
        base.UpdateAttributeValueFloat(clusterId, MeasuredValue, q.latest(view));
        base.UpdateAttributeValueFloat(clusterId, AverageMeasuredValue, q.average(view));
        base.UpdateAttributeValueFloat(clusterId, PeakMeasuredValue, q.peak(view));
      }
    }

    /** `SetLightByAirQuality`. */
    method SetLightByAirQuality(level: Level)
      modifies light.sink
      ensures light.sink.writes == old(light.sink.writes) + LightWrites(light.endpointId, level)
    {
      var setting := LightSettingFor(level);
      light.SetLightOnOff(true);
      light.SetLightColorHSV(setting.hue, setting.saturation);
      light.SetLightLevelPercent(setting.levelPercent);
    }

    /** The loop of `UpdateAirQualityAttributes` over `GetIds`, in registration order. */
    method PublishChannels(q: Queries)
      modifies base.sink
      ensures base.sink.writes == old(base.sink.writes) + LoopWrites(base.endpoint, store.ids, store, q)
    {
      var clusterIds := store.ids;
      ghost var endpoint := base.endpoint;
      for i := 0 to |clusterIds|
        invariant base.endpoint == endpoint
        invariant base.sink.writes == old(base.sink.writes) + LoopWrites(endpoint, clusterIds[..i], store, q)
      {
        LoopWritesExtend(endpoint, clusterIds, i, store, q);
        AppendAssociative(old(base.sink.writes), LoopWrites(endpoint, clusterIds[..i], store, q),
                          ChannelWrites(endpoint, clusterIds[i], store.ViewOf(clusterIds[i]), q));
        PublishChannel(clusterIds[i], q);
      }
      assert clusterIds[..|clusterIds|] == clusterIds;
    }

    /** The worst-of classification, its write to the AirQuality cluster and the light update. */
    method PublishAirQuality(q: Queries)
      requires Valid() && Castable(store, q)
      modifies base.sink
      ensures base.sink.writes == old(base.sink.writes)
                                  + GuardedWrite(base.endpoint, AirQuality, AirQualityAttribute, Int16Value(Rank(PublishedLevel(store, q))))
                                  + LightWrites(light.endpointId, PublishedLevel(store, q))
    {
      var airQualityCO2 := ClassifyByCO2(TruncateToUInt16(q.latest(store.ViewOf(CarbonDioxideConcentrationMeasurement))));
      var airQualityPM25 := ClassifyByPM25(TruncateToUInt16(q.average(store.ViewOf(Pm25ConcentrationMeasurement))));
      var airQualityPM10 := ClassifyByPM10(TruncateToUInt16(q.average(store.ViewOf(Pm10ConcentrationMeasurement))));
      var airQuality := Worst3(airQualityCO2, airQualityPM25, airQualityPM10);
      assert airQuality == PublishedLevel(store, q);
      base.UpdateAttributeValueInt16(AirQuality, AirQualityAttribute, Rank(airQuality));
      SetLightByAirQuality(airQuality);
    }

    /**
      `UpdateAirQualityAttributes`: publishes every registered channel in
      registration order, then the overall air quality, then the light.
     */
    method UpdateAirQualityAttributes(q: Queries)
      requires Valid() && Castable(store, q)
      modifies base.sink
      ensures base.sink.writes == old(base.sink.writes) + PublicationWrites(base.endpoint, light.endpointId, store, q)
    {
      ghost var level := PublishedLevel(store, q);
      ghost var channels := LoopWrites(base.endpoint, store.ids, store, q);
      ghost var levelWrite := GuardedWrite(base.endpoint, AirQuality, AirQualityAttribute, Int16Value(Rank(level)));
      PublishChannels(q);
      PublishAirQuality(q);
      AppendAssociative(old(base.sink.writes), channels, levelWrite);
      AppendAssociative(old(base.sink.writes), channels + levelWrite, LightWrites(light.endpointId, level));
    }
  }

  /** The channels are those of the first k checks, with their window sizes. */
  ghost predicate RegisteredUpTo(store: Measurements, supported: set<Sen66.MeasurementType>, k: nat)
    requires k <= |RegistrationOrder|
    reads store
  {
    store.Valid() && store.ids == RegisteredPrefix(supported, k) &&
    forall c :: c in store.windows ==> store.windows[c] == WindowFor(c)
  }

  /**
    Check k of `CreateEndpoint`: if the k-th type is supported, its
    `Add…MeasurementCluster` helper registers the type's cluster with the
    cluster's window sizes.
   */
  method RegisterIfSupported(store: Measurements, supported: set<Sen66.MeasurementType>, k: nat)
    requires k < |RegistrationOrder| && RegisteredUpTo(store, supported, k)
    modifies store
    ensures RegisteredUpTo(store, supported, k + 1)
    ensures store.samples == old(store.samples)
  {
    var t := RegistrationOrder[k];
    if t in supported {
      NextNotRegistered(supported, k);
      var c := ClusterOf(t).value;
      var w := WindowFor(c);
      store.AddId(c, w.averageSeconds, w.peakSeconds);
    }
  }

  /** The eight supported-type checks of `CreateEndpoint`, on an empty store. */
  method RegisterChannels(store: Measurements, supported: set<Sen66.MeasurementType>)
    requires store.Valid() && store.ids == [] && store.windows == map[]
    modifies store
    ensures store.Valid() && store.ids == Registered(supported)
    ensures forall c :: c in store.windows ==> store.windows[c] == WindowFor(c)
    ensures store.samples == old(store.samples)
  {
    RegisterIfSupported(store, supported, 0);
    RegisterIfSupported(store, supported, 1);
    RegisterIfSupported(store, supported, 2);
    RegisterIfSupported(store, supported, 3);
    RegisterIfSupported(store, supported, 4);
    RegisterIfSupported(store, supported, 5);
    RegisterIfSupported(store, supported, 6);
    RegisterIfSupported(store, supported, 7);
  }

  /**
    The loop over a read: each measurement whose type has a cluster is appended
    under that cluster with its clock reading, in read order; others are skipped.
   */
  method AddMeasurements(store: Measurements, measurements: seq<Sen66.Measurement>, elapsed: seq<real>)
    requires |elapsed| == |measurements|
    modifies store
    ensures store.ids == old(store.ids) && store.windows == old(store.windows)
    ensures store.samples == Ingest(old(store.samples), measurements, elapsed)
  {
    for i := 0 to |measurements|
      invariant store.ids == old(store.ids) && store.windows == old(store.windows)
      invariant store.samples == Ingest(old(store.samples), measurements[..i], elapsed[..i])
    {
      assert measurements[..i + 1][..i] == measurements[..i];
      assert elapsed[..i + 1][..i] == elapsed[..i];
      var measurement := measurements[i];
      var cluster := ClusterOf(measurement.kind);
      if cluster.None? {
        continue;
      }
      store.AddMeasurement(cluster.value, measurement.value, elapsed[i]);
    }
    assert measurements[..|measurements|] == measurements;
    assert elapsed[..|elapsed|] == elapsed;
  }

  /** The cluster of the next type checked is not registered yet. */
  lemma NextNotRegistered(supported: set<Sen66.MeasurementType>, k: nat)
    requires k < |RegistrationOrder|
    ensures ClusterOf(RegistrationOrder[k]).value !in RegisteredPrefix(supported, k)
  {
    var t := RegistrationOrder[k];
    var c := ClusterOf(t).value;
    if c in RegisteredPrefix(supported, k) {
      RegisteredPrefixMembers(supported, k, c);
      var j :| 0 <= j < k && RegistrationOrder[j] in supported && ClusterOf(RegistrationOrder[j]) == Some(c);
      ClusterOfInjective(RegistrationOrder[j], t);
      RegistrationOrderDistinct(j, k);
      assert false;
    }
  }
}
