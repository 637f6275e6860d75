/** The decision logic of the dashboard script static/js/main_new.js: the
    status and effect labels, the vehicle filter behind the map markers and
    the route-filter list. The vehicles it receives are the records that
    `/api/all-data` serves (app/api/data_routes.py); a JSON `null` position
    field is `None`. */
module Dashboard {
  import opened Wrappers
  import Feed
  import DataRoutes

  /** `getMarkerClass`. */
  function MarkerClass(status: string): (r: string)
    ensures status == "STOPPED_AT" ==> r == "marker-stopped"
    ensures status == "IN_TRANSIT_TO" ==> r == "marker-transit"
    ensures status == "INCOMING_AT" ==> r == "marker-incoming"
    ensures r == "marker-unknown" <==> status !in {"STOPPED_AT", "IN_TRANSIT_TO", "INCOMING_AT"}
  {
    if status == "STOPPED_AT" then "marker-stopped"
    else if status == "IN_TRANSIT_TO" then "marker-transit"
    else if status == "INCOMING_AT" then "marker-incoming"
    else "marker-unknown"
  }

  /** `getStatusText`. */
  function StatusText(status: string): (r: string)
    ensures status == "STOPPED_AT" ==> r == "Arrêté"
    ensures status == "IN_TRANSIT_TO" ==> r == "En transit"
    ensures status == "INCOMING_AT" ==> r == "En approche"
    ensures r == "Inconnu" <==> status !in {"STOPPED_AT", "IN_TRANSIT_TO", "INCOMING_AT"}
  {
    if status == "STOPPED_AT" then "Arrêté"
    else if status == "IN_TRANSIT_TO" then "En transit"
    else if status == "INCOMING_AT" then "En approche"
    else "Inconnu"
  }

  /** Every status a feed can carry gets its own marker and label; the
      backend's "UNKNOWN" placeholder gets the fallback ones. */
  lemma FeedStatusesAreKnown(s: Feed.VehicleStopStatus)
    ensures MarkerClass(Feed.StatusName(s)) != "marker-unknown"
    ensures StatusText(Feed.StatusName(s)) != "Inconnu"
    ensures MarkerClass("UNKNOWN") == "marker-unknown" && StatusText("UNKNOWN") == "Inconnu"
  {
  }

  /** The card class chosen from an alert's effect in `updateAlertsUI`. */
  function AlertClass(effect: string): (r: string)
    ensures r == "danger" <==> effect in {"NO_SERVICE", "SIGNIFICANT_DELAYS"}
    ensures r == "info" <==> effect in {"ADDITIONAL_SERVICE", "MODIFIED_SERVICE"}
    ensures r == "warning" <==> effect !in {"NO_SERVICE", "SIGNIFICANT_DELAYS", "ADDITIONAL_SERVICE", "MODIFIED_SERVICE"}
  {
    if effect == "NO_SERVICE" || effect == "SIGNIFICANT_DELAYS" then "danger"
    else if effect == "DETOUR" || effect == "STOP_MOVED" then "warning"
    else if effect == "ADDITIONAL_SERVICE" || effect == "MODIFIED_SERVICE" then "info"
    else "warning"
  }

  /** On the effect names of the feed: two effects are shown as danger, two as
      information, and every other one, the unknown placeholder included, as a warning. */
  lemma FeedEffectClasses(e: Feed.Effect)
    ensures AlertClass(Feed.EffectName(e)) == "danger" <==> e == Feed.NoService || e == Feed.SignificantDelays
    ensures AlertClass(Feed.EffectName(e)) == "info" <==> e == Feed.AdditionalService || e == Feed.ModifiedService
    ensures AlertClass("UNKNOWN_EFFECT") == "warning"
  {
  }

  // ----- Vehicle markers -----

  /** `!value` is false for a coordinate: set and non-zero. */
  predicate Truthy(x: Option<real>) {
    x.Some? && x.value != 0.0
  }

  /** The checks of `updateVehicleMarkers` that a vehicle must pass to get markers. */
  predicate Shown(v: DataRoutes.VehicleRecord, routeFilter: string, statusFilter: string) {
    Truthy(v.latitude) && Truthy(v.longitude)
    && (routeFilter == "all" || v.routeId == routeFilter)
    && (statusFilter == "all" || v.currentStatus == statusFilter)
  }

  /** The dashboard's two maps. */
  datatype MapName = MainMap | VehicleMap

  datatype Marker = Marker(latitude: real, longitude: real, markerClass: string, vehicleId: string, onMap: MapName)

  function MarkerOf(v: DataRoutes.VehicleRecord, onMap: MapName): Marker
    requires Truthy(v.latitude) && Truthy(v.longitude)
  {
    Marker(v.latitude.value, v.longitude.value, MarkerClass(v.currentStatus), v.vehicleId, onMap)
  }

  /** The vehicles that pass the filters, in order. */
  function ShownVehicles(vs: seq<DataRoutes.VehicleRecord>, routeFilter: string, statusFilter: string): (r: seq<DataRoutes.VehicleRecord>)
    ensures |r| <= |vs|
    ensures forall k :: 0 <= k < |r| ==> r[k] in vs && Shown(r[k], routeFilter, statusFilter)
    ensures forall i :: 0 <= i < |vs| && Shown(vs[i], routeFilter, statusFilter) ==> vs[i] in r
    ensures forall v :: multiset(r)[v] == if Shown(v, routeFilter, statusFilter) then multiset(vs)[v] else 0
  {
    if |vs| == 0 then []
    else
      var rest := ShownVehicles(vs[..|vs| - 1], routeFilter, statusFilter);
      var v := vs[|vs| - 1];
      assert vs == vs[..|vs| - 1] + [v];
      if Shown(v, routeFilter, statusFilter) then rest + [v] else rest
  }

  /** The markers after an update: one on each map per shown vehicle. */
  function MarkersFor(vs: seq<DataRoutes.VehicleRecord>, routeFilter: string, statusFilter: string): seq<Marker> {
    if |vs| == 0 then []
    else
      var rest := MarkersFor(vs[..|vs| - 1], routeFilter, statusFilter);
      var v := vs[|vs| - 1];
      if Shown(v, routeFilter, statusFilter) then rest + [MarkerOf(v, MainMap), MarkerOf(v, VehicleMap)] else rest
  }

  /** Exactly two markers per shown vehicle, the main map's first. */
  lemma {:induction false} MarkerPairs(vs: seq<DataRoutes.VehicleRecord>, routeFilter: string, statusFilter: string, k: nat)
    requires k < |ShownVehicles(vs, routeFilter, statusFilter)|
    ensures |MarkersFor(vs, routeFilter, statusFilter)| == 2 * |ShownVehicles(vs, routeFilter, statusFilter)|
    ensures var v := ShownVehicles(vs, routeFilter, statusFilter)[k];
      MarkersFor(vs, routeFilter, statusFilter)[2 * k] == MarkerOf(v, MainMap)
      && MarkersFor(vs, routeFilter, statusFilter)[2 * k + 1] == MarkerOf(v, VehicleMap)
  {
    var init := vs[..|vs| - 1];
    var v := vs[|vs| - 1];
    if k < |ShownVehicles(init, routeFilter, statusFilter)| {
      MarkerPairs(init, routeFilter, statusFilter, k);
    } else {
      MarkerCount(init, routeFilter, statusFilter);
    }
  }

  lemma {:induction false} MarkerCount(vs: seq<DataRoutes.VehicleRecord>, routeFilter: string, statusFilter: string)
    ensures |MarkersFor(vs, routeFilter, statusFilter)| == 2 * |ShownVehicles(vs, routeFilter, statusFilter)|
  {
    if |vs| > 0 {
      MarkerCount(vs[..|vs| - 1], routeFilter, statusFilter);
    }
  }

  /** A vehicle record built from an entity without a position never gets a marker. */
  lemma UnpositionedVehicleHidden(v: Feed.VehiclePosition, routeFilter: string, statusFilter: string)
    requires v.position.None?
    ensures !Shown(DataRoutes.VehicleRecordOf(v), routeFilter, statusFilter)
  {
  }

  /** `vehicleMarkers`, the markers on the maps. */
  class MarkerLayer {
    var markers: seq<Marker>

    constructor ()
      ensures markers == []
    {
      markers := [];
    }

    /** `updateVehicleMarkers`: nothing happens without data; otherwise the
        old markers are cleared and two are added per shown vehicle. */
    method Update(vehicles: Option<seq<DataRoutes.VehicleRecord>>, routeFilter: string, statusFilter: string)
      modifies this
      ensures vehicles.None? ==> markers == old(markers)
      ensures vehicles.Some? ==> markers == MarkersFor(vehicles.value, routeFilter, statusFilter)
    {
      if vehicles.None? {
        return;
      }
      var vs := vehicles.value;
      markers := [];
      for i := 0 to |vs|
        invariant markers == MarkersFor(vs[..i], routeFilter, statusFilter)
      {
        var v := vs[i];
        assert vs[..i + 1][..i] == vs[..i];
        if !Truthy(v.latitude) || !Truthy(v.longitude) {
          continue;
        }
        if routeFilter != "all" && v.routeId != routeFilter {
          continue;
        }
        if statusFilter != "all" && v.currentStatus != statusFilter {
          continue;
        }
        var marker := Marker(v.latitude.value, v.longitude.value, MarkerClass(v.currentStatus), v.vehicleId, MainMap);
        var markerCopy := Marker(v.latitude.value, v.longitude.value, MarkerClass(v.currentStatus), v.vehicleId, VehicleMap);
        markers := markers + [marker];
        markers := markers + [markerCopy];
      }
      assert vs[..|vs|] == vs;
    }
  }

  // ----- Route filter -----

  /** JavaScript's `<` on strings: the first differing character decides, and a proper prefix is smaller. */
  predicate Less(a: string, b: string)
    decreases |a|
  {
    if |b| == 0 then false
    else if |a| == 0 then true
    else if a[0] != b[0] then a[0] < b[0]
    else Less(a[1..], b[1..])
  }

  lemma {:induction false} LessIrreflexive(a: string)
    ensures !Less(a, a)
    decreases |a|
  {
    if |a| > 0 {
      LessIrreflexive(a[1..]);
    }
  }

  lemma {:induction false} LessTransitive(a: string, b: string, c: string)
    requires Less(a, b) && Less(b, c)
    ensures Less(a, c)
    decreases |a|
  {
    if |a| > 0 && a[0] == b[0] && b[0] == c[0] {
      LessTransitive(a[1..], b[1..], c[1..]);
    }
  }

  lemma {:induction false} LessTotal(a: string, b: string)
    requires a != b
    ensures Less(a, b) || Less(b, a)
    decreases |a|
  {
    if |a| > 0 && |b| > 0 && a[0] == b[0] {
      assert a == [a[0]] + a[1..] && b == [b[0]] + b[1..];
      LessTotal(a[1..], b[1..]);
    }
  }

  predicate StrictlySorted(s: seq<string>) {
    forall i, j :: 0 <= i < j < |s| ==> Less(s[i], s[j])
  }

  predicate NoDuplicates(s: seq<string>) {
    forall i, j :: 0 <= i < j < |s| ==> s[i] != s[j]
  }

  /** One step of the array sort: place `x` before the first element it is below. */
  function Insert(x: string, s: seq<string>): (r: seq<string>)
    ensures multiset(r) == multiset(s) + multiset{x}
  {
    if |s| == 0 then [x]
    else if Less(x, s[0]) then [x] + s
    else
      assert s == [s[0]] + s[1..];
      [s[0]] + Insert(x, s[1..])
  }

  /** `Array.prototype.sort` with the default comparison, on values. */
  function Sort(s: seq<string>): (r: seq<string>)
    ensures multiset(r) == multiset(s)
  {
    if |s| == 0 then []
    else
      assert s == [s[0]] + s[1..];
      Insert(s[0], Sort(s[1..]))
  }

  lemma {:induction false} InsertKeepsStrictOrder(x: string, s: seq<string>)
    requires StrictlySorted(s) && x !in s
    ensures StrictlySorted(Insert(x, s))
  {
    if |s| == 0 {
    } else if Less(x, s[0]) {
      var r := [x] + s;
      forall j | 0 < j < |r|
        ensures Less(r[0], r[j])
      {
        if j > 1 {
          LessTransitive(x, s[0], s[j - 1]);
        }
      }
    } else {
      assert s[0] != x;
      LessTotal(x, s[0]);
      var tail := Insert(x, s[1..]);
      InsertKeepsStrictOrder(x, s[1..]);
      forall k | 0 <= k < |tail|
        ensures Less(s[0], tail[k])
      {
        assert tail[k] in multiset(tail);
        if tail[k] != x {
          assert tail[k] in s[1..];
          var j :| 0 <= j < |s[1..]| && s[1..][j] == tail[k];
          assert s[j + 1] == tail[k];
        }
      }
    }
  }

  /** Sorting distinct strings gives them in strictly increasing order. */
  lemma {:induction false} SortDistinct(s: seq<string>)
    requires NoDuplicates(s)
    ensures StrictlySorted(Sort(s))
  {
    if |s| > 0 {
      SortDistinct(s[1..]);
      assert s[0] !in s[1..];
      assert multiset(Sort(s[1..])) == multiset(s[1..]);
      assert s[0] !in multiset(Sort(s[1..]));
      InsertKeepsStrictOrder(s[0], Sort(s[1..]));
    }
  }

  /** The route ids in first-seen order: truthy, and each once. */
  function DistinctRouteIds(vs: seq<DataRoutes.VehicleRecord>): seq<string> {
    if |vs| == 0 then []
    else
      var seen := DistinctRouteIds(vs[..|vs| - 1]);
      var id := vs[|vs| - 1].routeId;
      if id != "" && id !in seen then seen + [id] else seen
  }

  lemma {:induction false} DistinctRouteIdsSpec(vs: seq<DataRoutes.VehicleRecord>)
    ensures NoDuplicates(DistinctRouteIds(vs))
    ensures forall r :: r in DistinctRouteIds(vs) <==> r != "" && exists i :: 0 <= i < |vs| && vs[i].routeId == r
  {
    if |vs| > 0 {
      var init := vs[..|vs| - 1];
      DistinctRouteIdsSpec(init);
      forall r
        ensures r in DistinctRouteIds(vs) <==> r != "" && exists i :: 0 <= i < |vs| && vs[i].routeId == r
      {
        if r != "" && (exists i :: 0 <= i < |vs| && vs[i].routeId == r) {
          var i :| 0 <= i < |vs| && vs[i].routeId == r;
          if i < |vs| - 1 {
            assert init[i].routeId == r;
          }
        }
        if r in DistinctRouteIds(init) {
          var i :| 0 <= i < |init| && init[i].routeId == r;
          assert vs[i].routeId == r;
        }
      }
    }
  }

  /** The id list of `updateRouteFilterOptions`: distinct truthy ids, pushed
      in order, then sorted; without data (`None`) the list is left as it was. */
  method RouteFilterOptions(vehicles: Option<seq<DataRoutes.VehicleRecord>>) returns (r: Option<seq<string>>)
    ensures vehicles.None? <==> r.None?
    ensures r.Some? ==> r.value == Sort(DistinctRouteIds(vehicles.value))
    ensures r.Some? ==> StrictlySorted(r.value)
    ensures r.Some? ==> forall id :: id in r.value <==> id != "" && exists i :: 0 <= i < |vehicles.value| && vehicles.value[i].routeId == id
  {
    if vehicles.None? {
      return None;
    }
    var vs := vehicles.value;
    var routeIds: seq<string> := [];
    for i := 0 to |vs|
      invariant routeIds == DistinctRouteIds(vs[..i])
    {
      var vehicle := vs[i];
      assert vs[..i + 1][..i] == vs[..i];
      if vehicle.routeId != "" && vehicle.routeId !in routeIds {
        routeIds := routeIds + [vehicle.routeId];
      }
    }
    assert vs[..|vs|] == vs;
    DistinctRouteIdsSpec(vs);
    SortDistinct(routeIds);
    var collected := routeIds;
    routeIds := Sort(routeIds);
    forall id
      ensures id in routeIds <==> id in collected
    {
      assert id in routeIds <==> id in multiset(routeIds);
      assert id in collected <==> id in multiset(collected);
    }
    return Some(routeIds);
  }

  /** The selection after the options are rebuilt: the previous value (`null`
      as `None`) when it is non-empty and is "all" or listed, else the first option, "all". */
  function Selection(previous: Option<string>, routeIds: seq<string>): (r: string)
    ensures r == "all" || r in routeIds
    ensures previous.Some? && previous.value != "" && (previous.value == "all" || previous.value in routeIds) ==> r == previous.value
    ensures r != "all" ==> previous == Some(r)
  {
    if previous.Some? && previous.value != "" && (previous.value == "all" || previous.value in routeIds) then previous.value
    else "all"
  }
}
