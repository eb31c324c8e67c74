/**
  The interface of the `Measurements` store the air-quality classes keep.
  Its implementation is not part of this model: what is modelled is the
  registration order of ids with their window sizes, and the log of samples
  appended under each id. The latest, average and peak queries are opaque
  functions of what the store holds for an id.
 */
module MeasurementStore {
  import opened Matter
  import opened Wrappers

  /** One stored reading: its value and the elapsed seconds at which it was taken. */
  datatype Sample = Sample(value: real, seconds: real)

  /** The averaging and peak window sizes, in seconds, given to `AddId`. */
  datatype Windows = Windows(averageSeconds: real, peakSeconds: real)

  /** Everything the store holds for one id. */
  datatype View = View(id: ClusterId, windows: Option<Windows>, samples: seq<Sample>)

  /** `GetLatest`, `GetAverage` and `GetPeak`: whatever the store computes from a view. */
  datatype Queries = Queries(latest: View -> real, average: View -> real, peak: View -> real)

  ghost predicate Distinct(ids: seq<ClusterId>)
  {
    forall i, j :: 0 <= i < j < |ids| ==> ids[i] != ids[j]
  }

  /** Appending an id not yet listed keeps the list free of repeats. */
  lemma DistinctAppend(ids: seq<ClusterId>, id: ClusterId)
    requires Distinct(ids) && id !in ids
    ensures Distinct(ids + [id])
  {
    forall i, j | 0 <= i < j < |ids + [id]|
      ensures (ids + [id])[i] != (ids + [id])[j]
    {
      if j == |ids| {
        assert (ids + [id])[i] == ids[i];
      }
    }
  }

  class Measurements {
    /** What `GetIds` returns: the registered ids, in registration order. */
    var ids: seq<ClusterId>
    var windows: map<ClusterId, Windows>
    var samples: map<ClusterId, seq<Sample>>

    /** Registered ids are listed once each, and exactly they have windows. */
    ghost predicate Valid()
      reads this
    {
      Distinct(ids) && forall id :: id in windows <==> id in ids
    }

    constructor ()
      ensures Valid() && ids == [] && windows == map[] && samples == map[]
    {
      ids := [];
      windows := map[];
      samples := map[];
    }

    /** The samples appended under an id so far. */
    function SamplesOf(id: ClusterId): seq<Sample>
      reads this
    {
      if id in samples then samples[id] else []
    }

    /** What the queries see for an id. */
    function ViewOf(id: ClusterId): (v: View)
      reads this
      ensures v.id == id && v.samples == SamplesOf(id)
      ensures v.windows.Some? <==> id in windows
    {
      View(id, if id in windows then Some(windows[id]) else None, SamplesOf(id))
    }

    method AddId(id: ClusterId, averageSeconds: real, peakSeconds: real)
      requires Valid() && id !in windows
      modifies this
      ensures Valid()
      ensures ids == old(ids) + [id]
      ensures windows == old(windows)[id := Windows(averageSeconds, peakSeconds)]
      ensures samples == old(samples)
    {
      ids := ids + [id];
      windows := windows[id := Windows(averageSeconds, peakSeconds)];
    }

    method AddMeasurement(id: ClusterId, value: real, seconds: real)
      modifies this
      ensures ids == old(ids) && windows == old(windows)
      ensures samples == old(samples)[id := old(SamplesOf(id)) + [Sample(value, seconds)]]
    {
      samples := samples[id := SamplesOf(id) + [Sample(value, seconds)]];
    }
  }
}
