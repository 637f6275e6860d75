/** The statistics blocks of app.py: `get_trip_update_stats` and
    `get_vehicle_stats`, computed from the normalised records. */
module AppStats {
  import opened Wrappers
  import opened Aggregate
  import opened AppNormalizer

  datatype TripStats = TripStats(count: nat, avgDelayMinutes: real, maxDelayMinutes: real, minDelayMinutes: real)

  function DelaysOf(us: seq<TripUpdateRecord>): (ds: seq<real>)
    ensures |ds| == |us|
    ensures forall i :: 0 <= i < |us| ==> ds[i] == us[i].delayMinutes
  {
    seq(|us|, i requires 0 <= i < |us| => us[i].delayMinutes)
  }

  /** `get_trip_update_stats`: nothing for a missing or empty list; otherwise the
      count and the mean, largest and smallest delay in minutes, the mean lying
      between the two extremes. */
  function GetTripUpdateStats(updates: Option<seq<TripUpdateRecord>>): (r: Option<TripStats>)
    ensures r.None? <==> updates.None? || |updates.value| == 0
    ensures r.Some? ==> r.value.count == |updates.value|
    ensures r.Some? ==> r.value.minDelayMinutes <= r.value.avgDelayMinutes <= r.value.maxDelayMinutes
    ensures r.Some? ==> forall i :: 0 <= i < |updates.value| ==>
                          r.value.minDelayMinutes <= updates.value[i].delayMinutes <= r.value.maxDelayMinutes
    ensures r.Some? ==> exists i :: 0 <= i < |updates.value| && updates.value[i].delayMinutes == r.value.maxDelayMinutes
    ensures r.Some? ==> exists i :: 0 <= i < |updates.value| && updates.value[i].delayMinutes == r.value.minDelayMinutes
  {
    if updates.None? || |updates.value| == 0 then None
    else
      var delays := DelaysOf(updates.value);
      MeanBetweenMinAndMax(delays);
      Some(TripStats(|updates.value|, Mean(delays), Max(delays), Min(delays)))
  }

  datatype VehicleStats = VehicleStats(
    count: nat,
    avgSpeed: Option<real>,
    maxSpeed: Option<real>,
    minSpeed: Option<real>,
    statusCounts: map<string, nat>)

  /** The reported speeds, in record order, skipping records without one. */
  function Speeds(vs: seq<VehicleRecord>): seq<real>
    decreases |vs|
  {
    if vs == [] then []
    else
      var v := vs[|vs| - 1];
      Speeds(vs[..|vs| - 1]) + (if v.speed.Some? then [v.speed.value] else [])
  }

  /** Each listed speed is some record's reported speed. */
  lemma {:induction false} SpeedOrigin(vs: seq<VehicleRecord>, k: nat)
    requires k < |Speeds(vs)|
    ensures exists i :: 0 <= i < |vs| && vs[i].speed == Some(Speeds(vs)[k])
    decreases |vs|
  {
    var p := vs[..|vs| - 1];
    var v := vs[|vs| - 1];
    assert Speeds(vs) == Speeds(p) + (if v.speed.Some? then [v.speed.value] else []);
    if k < |Speeds(p)| {
      SpeedOrigin(p, k);
      var i :| 0 <= i < |p| && p[i].speed == Some(Speeds(p)[k]);
      assert vs[i] == p[i];
    } else {
      assert vs[|vs| - 1].speed == Some(Speeds(vs)[k]);
    }
  }

  /** Each record's reported speed is listed. */
  lemma {:induction false} SpeedListed(vs: seq<VehicleRecord>, i: nat)
    requires i < |vs| && vs[i].speed.Some?
    ensures exists k :: 0 <= k < |Speeds(vs)| && Speeds(vs)[k] == vs[i].speed.value
    decreases |vs|
  {
    var p := vs[..|vs| - 1];
    var v := vs[|vs| - 1];
    assert Speeds(vs) == Speeds(p) + (if v.speed.Some? then [v.speed.value] else []);
    if i < |p| {
      assert p[i] == vs[i];
      SpeedListed(p, i);
      var k :| 0 <= k < |Speeds(p)| && Speeds(p)[k] == p[i].speed.value;
      assert Speeds(vs)[k] == Speeds(p)[k];
    } else {
      assert Speeds(vs)[|Speeds(vs)| - 1] == v.speed.value;
    }
  }

  /** The speed list is empty exactly when no record reports a speed. */
  lemma SpeedsEmpty(vs: seq<VehicleRecord>)
    ensures |Speeds(vs)| == 0 <==> forall i :: 0 <= i < |vs| ==> vs[i].speed.None?
  {
    if |Speeds(vs)| > 0 {
      SpeedOrigin(vs, 0);
    } else {
      forall i | 0 <= i < |vs| ensures vs[i].speed.None? {
        if vs[i].speed.Some? {
          SpeedListed(vs, i);
        }
      }
    }
  }

  /** Every reported speed lies between the smallest and the largest, and
      both extremes are some vehicle's speed. */
  lemma SpeedExtremes(vs: seq<VehicleRecord>)
    requires |Speeds(vs)| > 0
    ensures forall i :: 0 <= i < |vs| && vs[i].speed.Some? ==> Min(Speeds(vs)) <= vs[i].speed.value <= Max(Speeds(vs))
    ensures exists i :: 0 <= i < |vs| && vs[i].speed == Some(Max(Speeds(vs)))
    ensures exists i :: 0 <= i < |vs| && vs[i].speed == Some(Min(Speeds(vs)))
  {
    var speeds := Speeds(vs);
    forall i | 0 <= i < |vs| && vs[i].speed.Some?
      ensures Min(speeds) <= vs[i].speed.value <= Max(speeds)
    {
      SpeedListed(vs, i);
      var k :| 0 <= k < |speeds| && speeds[k] == vs[i].speed.value;
    }
    var kHi :| 0 <= kHi < |speeds| && speeds[kHi] == Max(speeds);
    var kLo :| 0 <= kLo < |speeds| && speeds[kLo] == Min(speeds);
    SpeedOrigin(vs, kHi);
    SpeedOrigin(vs, kLo);
  }

  function StatusesOf(vs: seq<VehicleRecord>): (ss: seq<string>)
    ensures |ss| == |vs|
    ensures forall i :: 0 <= i < |vs| ==> ss[i] == vs[i].currentStatus
  {
    seq(|vs|, i requires 0 <= i < |vs| => vs[i].currentStatus)
  }

  /** The counting loop of `get_vehicle_stats`. */
  method CountStatuses(vs: seq<VehicleRecord>) returns (statusCounts: map<string, nat>)
    ensures statusCounts == Histogram(StatusesOf(vs))
  {
    statusCounts := map[];
    for i := 0 to |vs|
      invariant statusCounts == Histogram(StatusesOf(vs[..i]))
    {
      var status := vs[i].currentStatus;
      ghost var ss := StatusesOf(vs[..i + 1]);
      assert ss[..|ss| - 1] == StatusesOf(vs[..i]);
      assert ss[|ss| - 1] == status;
      assert Histogram(ss) == statusCounts[status := if status in statusCounts then statusCounts[status] + 1 else 1];
      if status in statusCounts {
        statusCounts := statusCounts[status := statusCounts[status] + 1];
      } else {
        statusCounts := statusCounts[status := 1];
      }
    }
    assert vs[..|vs|] == vs;
  }

  /** `get_vehicle_stats`: nothing for a missing or empty list; otherwise the
      count, speed statistics over the records that report a speed (absent
      when none does) and one counter per status value. */
  method GetVehicleStats(positions: Option<seq<VehicleRecord>>) returns (r: Option<VehicleStats>)
    ensures r.None? <==> positions.None? || |positions.value| == 0
    ensures r.Some? ==> r.value.count == |positions.value|
    ensures r.Some? ==> r.value.statusCounts == Histogram(StatusesOf(positions.value))
    ensures r.Some? ==> forall s :: s in r.value.statusCounts <==> exists i :: 0 <= i < |positions.value| && positions.value[i].currentStatus == s
    ensures r.Some? ==> (r.value.avgSpeed.Some? <==> exists i :: 0 <= i < |positions.value| && positions.value[i].speed.Some?)
    ensures r.Some? ==> r.value.maxSpeed.Some? == r.value.avgSpeed.Some? == r.value.minSpeed.Some?
    ensures r.Some? && r.value.avgSpeed.Some? ==> r.value.minSpeed.value <= r.value.avgSpeed.value <= r.value.maxSpeed.value
    ensures r.Some? && r.value.maxSpeed.Some? ==>
              forall i :: 0 <= i < |positions.value| && positions.value[i].speed.Some? ==>
                r.value.minSpeed.value <= positions.value[i].speed.value <= r.value.maxSpeed.value
    ensures r.Some? && r.value.maxSpeed.Some? ==>
              exists i :: 0 <= i < |positions.value| && positions.value[i].speed == r.value.maxSpeed
    ensures r.Some? && r.value.minSpeed.Some? ==>
              exists i :: 0 <= i < |positions.value| && positions.value[i].speed == r.value.minSpeed
  {
    if positions.None? || |positions.value| == 0 {
      return None;
    }
    var vs := positions.value;
    var speeds := Speeds(vs);
    SpeedsEmpty(vs);

    var statusCounts := CountStatuses(vs);
    forall s | s in statusCounts
      ensures exists i :: 0 <= i < |vs| && vs[i].currentStatus == s
    {
      var ss := StatusesOf(vs);
      var i :| 0 <= i < |ss| && ss[i] == s;
    }
    if |speeds| == 0 {
      return Some(VehicleStats(|vs|, None, None, None, statusCounts));
    }
    MeanBetweenMinAndMax(speeds);
    SpeedExtremes(vs);
    var hi, lo := Max(speeds), Min(speeds);
    return Some(VehicleStats(|vs|, Some(Mean(speeds)), Some(hi), Some(lo), statusCounts));
  }

  /** The status counters add up to the number of vehicles. */
  lemma StatusCountsTotal(vs: seq<VehicleRecord>, statuses: seq<string>)
    requires NoDuplicates(statuses)
    requires forall s :: s in statuses <==> s in Histogram(StatusesOf(vs))
    ensures SumOver(Histogram(StatusesOf(vs)), statuses) == |vs|
  {
    HistogramTotal(StatusesOf(vs), statuses);
  }
}
