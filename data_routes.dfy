/** The JSON API's own copy of the normalisers (app/api/data_routes.py) and
    the statistics block of `/api/all-data`. A missing feed gives an empty
    list here, not `None`. */
module DataRoutes {
  import opened Wrappers
  import opened Feed
  import opened Json
  import opened Aggregate
  import AppNormalizer
  import GtfsRtReader

  // ----- Trip updates -------------------------------------------------------

  /** The inner loop over one trip update's stop-time updates. */
  method AppendStopRecords(entity: FeedEntity, tripUpdates0: seq<AppNormalizer.TripUpdateRecord>)
    returns (tripUpdates: seq<AppNormalizer.TripUpdateRecord>)
    requires entity.tripUpdate.Some?
    ensures tripUpdates == tripUpdates0 + AppNormalizer.EntityTripRecords(entity)
  {
    var tripUpdate := entity.tripUpdate.value;
    ghost var block := AppNormalizer.EntityTripRecords(entity);
    tripUpdates := tripUpdates0;
    for j := 0 to |tripUpdate.stopTimeUpdates|
      invariant tripUpdates == tripUpdates0 + block[..j]
    {
      assert block[..j + 1] == block[..j] + [block[j]];
      tripUpdates := tripUpdates + [AppNormalizer.StopRecord(tripUpdate.trip, tripUpdate.stopTimeUpdates[j])];
    }
    assert block[..|tripUpdate.stopTimeUpdates|] == block;
  }

  /** Same departure-first rule and `'Unknown'` defaults as app.py, so the
      records are app.py's records. */
  method ProcessTripUpdates(feed: Option<FeedMessage>) returns (r: seq<AppNormalizer.TripUpdateRecord>)
    ensures feed.None? ==> r == []
    ensures feed.Some? ==> r == AppNormalizer.TripRecords(feed.value.entities)
  {
    if feed.None? {
      return [];
    }
    var entities := feed.value.entities;
    var tripUpdates: seq<AppNormalizer.TripUpdateRecord> := [];
    for i := 0 to |entities|
      invariant tripUpdates == AppNormalizer.TripRecords(entities[..i])
    {
      var entity := entities[i];
      assert entities[..i + 1][..i] == entities[..i];
      if entity.tripUpdate.Some? {
        tripUpdates := AppendStopRecords(entity, tripUpdates);
      }
    }
    assert entities[..|entities|] == entities;
    return tripUpdates;
  }

  // ----- Vehicle positions --------------------------------------------------

  /** The nine-field vehicle record: no route enrichment. */
  datatype VehicleRecord = VehicleRecord(
    vehicleId: string,
    tripId: string,
    routeId: string,
    latitude: Option<real>,
    longitude: Option<real>,
    bearing: Option<real>,
    speed: Option<real>,
    currentStatus: string,
    timestamp: Option<LocalTime>)

  /** The first nine fields of an app.py vehicle record. */
  function WithoutRoute(a: AppNormalizer.VehicleRecord): VehicleRecord {
    VehicleRecord(a.vehicleId, a.tripId, a.routeId, a.latitude, a.longitude, a.bearing, a.speed, a.currentStatus, a.timestamp)
  }

  function VehicleRecordOf(v: VehiclePosition): (r: VehicleRecord)
    ensures r.vehicleId == (if v.vehicle.Some? && v.vehicle.value.id.Some? then v.vehicle.value.id.value else "Unknown")
    ensures r.tripId == (if v.trip.Some? && v.trip.value.tripId.Some? then v.trip.value.tripId.value else "Unknown")
    ensures r.routeId == (if v.trip.Some? && v.trip.value.routeId.Some? then v.trip.value.routeId.value else "Unknown")
    ensures r.latitude.Some? <==> v.position.Some? && v.position.value.latitude.Some?
    ensures r.latitude.Some? ==> r.latitude == v.position.value.latitude
    ensures r.longitude.Some? <==> v.position.Some? && v.position.value.longitude.Some?
    ensures r.longitude.Some? ==> r.longitude == v.position.value.longitude
    ensures r.bearing.Some? <==> v.position.Some? && v.position.value.bearing.Some?
    ensures r.bearing.Some? ==> r.bearing == v.position.value.bearing
    ensures r.speed.Some? <==> v.position.Some? && v.position.value.speed.Some?
    ensures r.speed.Some? ==> r.speed == v.position.value.speed
    ensures r.currentStatus == "UNKNOWN" <==> v.currentStatus.None?
    ensures v.currentStatus.Some? ==> r.currentStatus == StatusName(v.currentStatus.value)
    ensures r.timestamp.Some? <==> v.timestamp.Some?
    ensures r.timestamp.Some? ==> r.timestamp.value.epoch == v.timestamp.value
  {
    var pos := v.position;
    VehicleRecord(
      if v.vehicle.Some? && v.vehicle.value.id.Some? then v.vehicle.value.id.value else "Unknown",
      if v.trip.Some? && v.trip.value.tripId.Some? then v.trip.value.tripId.value else "Unknown",
      if v.trip.Some? && v.trip.value.routeId.Some? then v.trip.value.routeId.value else "Unknown",
      if pos.Some? then pos.value.latitude else None,
      if pos.Some? then pos.value.longitude else None,
      if pos.Some? then pos.value.bearing else None,
      if pos.Some? then pos.value.speed else None,
      if v.currentStatus.Some? then StatusName(v.currentStatus.value) else "UNKNOWN",
      if v.timestamp.Some? then Some(LocalTime(v.timestamp.value)) else None)
  }

  /** Apart from the four route fields, each record is exactly app.py's,
      whatever route table app.py joins. */
  lemma VehicleRecordIsAppRecordWithoutRoute(v: VehiclePosition, routes: AppNormalizer.RouteTable)
    ensures VehicleRecordOf(v) == WithoutRoute(AppNormalizer.VehicleRecordOf(v, routes))
  {
  }

  function VehicleRecords(es: seq<FeedEntity>): seq<VehicleRecord>
    decreases |es|
  {
    if es == [] then []
    else
      var e := es[|es| - 1];
      VehicleRecords(es[..|es| - 1]) + (if e.vehicle.Some? then [VehicleRecordOf(e.vehicle.value)] else [])
  }

  method ProcessVehiclePositions(feed: Option<FeedMessage>) returns (r: seq<VehicleRecord>)
    ensures feed.None? ==> r == []
    ensures feed.Some? ==> r == VehicleRecords(feed.value.entities)
  {
    if feed.None? {
      return [];
    }
    var entities := feed.value.entities;
    var vehiclePositions: seq<VehicleRecord> := [];
    for i := 0 to |entities|
      invariant vehiclePositions == VehicleRecords(entities[..i])
    {
      var entity := entities[i];
      assert entities[..i + 1][..i] == entities[..i];
      if entity.vehicle.Some? {
        vehiclePositions := vehiclePositions + [VehicleRecordOf(entity.vehicle.value)];
      }
    }
    assert entities[..|entities|] == entities;
    return vehiclePositions;
  }

  /** One record per vehicle entity, in feed order. */
  lemma {:induction false} VehicleRecordsPerEntity(es: seq<FeedEntity>)
    ensures |VehicleRecords(es)| == |VehicleEntities(es)|
    ensures forall k :: 0 <= k < |VehicleEntities(es)| ==> VehicleRecords(es)[k] == VehicleRecordOf(VehicleEntities(es)[k].vehicle.value)
    decreases |es|
  {
    if es != [] {
      VehicleRecordsPerEntity(es[..|es| - 1]);
    }
  }

  // ----- Alerts -------------------------------------------------------------

  /** The five-key alert record: no time range. */
  datatype AlertRecord = AlertRecord(
    header: string,
    description: string,
    cause: string,
    effect: string,
    affectedEntities: seq<Object>)

  /** An informed entity's dictionary: `trip_id` only when the trip sets it;
      never `route_type`, and a trip's `route_id` is ignored. */
  function EntityInfo(sel: EntitySelector): (m: Object)
    ensures m.Keys <= {"agency_id", "route_id", "stop_id", "trip_id"}
    ensures "agency_id" in m <==> sel.agencyId.Some?
    ensures sel.agencyId.Some? ==> m["agency_id"] == JStr(sel.agencyId.value)
    ensures "route_id" in m <==> sel.routeId.Some?
    ensures sel.routeId.Some? ==> m["route_id"] == JStr(sel.routeId.value)
    ensures "stop_id" in m <==> sel.stopId.Some?
    ensures sel.stopId.Some? ==> m["stop_id"] == JStr(sel.stopId.value)
    ensures "trip_id" in m <==> sel.trip.Some? && sel.trip.value.tripId.Some?
    ensures "trip_id" in m ==> m["trip_id"] == JStr(sel.trip.value.tripId.value)
  {
    var m0: Object := map[];
    var m1 := if sel.agencyId.Some? then m0["agency_id" := JStr(sel.agencyId.value)] else m0;
    var m2 := if sel.routeId.Some? then m1["route_id" := JStr(sel.routeId.value)] else m1;
    var m3 := if sel.stopId.Some? then m2["stop_id" := JStr(sel.stopId.value)] else m2;
    if sel.trip.Some? && sel.trip.value.tripId.Some? then m3["trip_id" := JStr(sel.trip.value.tripId.value)] else m3
  }

  /** When the trip sets no route id, this dictionary is app.py's without `route_type`. */
  lemma EntityInfoAgainstApp(sel: EntitySelector)
    requires AppNormalizer.TripRouteId(sel).None?
    ensures EntityInfo(sel) == AppNormalizer.EntityInfo(sel) - {"route_type"}
  {
    var m, a := EntityInfo(sel), AppNormalizer.EntityInfo(sel) - {"route_type"};
    assert m.Keys == a.Keys;
    forall k | k in m ensures m[k] == a[k] {
    }
  }

  function AlertRecordOf(a: Alert): AlertRecord {
    AlertRecord(
      GtfsRtReader.BlockFirstText(a.headerText), GtfsRtReader.BlockFirstText(a.descriptionText),
      if a.cause.Some? then CauseName(a.cause.value) else "UNKNOWN_CAUSE",
      if a.effect.Some? then EffectName(a.effect.value) else "UNKNOWN_EFFECT",
      seq(|a.informedEntities|, k requires 0 <= k < |a.informedEntities| => EntityInfo(a.informedEntities[k])))
  }

  function AlertRecords(es: seq<FeedEntity>): seq<AlertRecord>
    decreases |es|
  {
    if es == [] then []
    else
      var e := es[|es| - 1];
      AlertRecords(es[..|es| - 1]) + (if e.alert.Some? then [AlertRecordOf(e.alert.value)] else [])
  }

  method AffectedEntities(selectors: seq<EntitySelector>) returns (affected: seq<Object>)
    ensures affected == seq(|selectors|, k requires 0 <= k < |selectors| => EntityInfo(selectors[k]))
  {
    affected := [];
    for i := 0 to |selectors|
      invariant |affected| == i
      invariant forall k :: 0 <= k < i ==> affected[k] == EntityInfo(selectors[k])
    {
      var sel := selectors[i];
      var entityInfo: Object := map[];
      if sel.agencyId.Some? {
        entityInfo := entityInfo["agency_id" := JStr(sel.agencyId.value)];
      }
      if sel.routeId.Some? {
        entityInfo := entityInfo["route_id" := JStr(sel.routeId.value)];
      }
      if sel.stopId.Some? {
        entityInfo := entityInfo["stop_id" := JStr(sel.stopId.value)];
      }
      if sel.trip.Some? {
        if sel.trip.value.tripId.Some? {
          entityInfo := entityInfo["trip_id" := JStr(sel.trip.value.tripId.value)];
        }
      }
      affected := affected + [entityInfo];
    }
  }

  method ProcessAlerts(feed: Option<FeedMessage>) returns (r: seq<AlertRecord>)
    ensures feed.None? ==> r == []
    ensures feed.Some? ==> r == AlertRecords(feed.value.entities)
  {
    if feed.None? {
      return [];
    }
    var entities := feed.value.entities;
    var alerts: seq<AlertRecord> := [];
    for i := 0 to |entities|
      invariant alerts == AlertRecords(entities[..i])
    {
      var entity := entities[i];
      assert entities[..i + 1][..i] == entities[..i];
      if entity.alert.Some? {
        var alert := entity.alert.value;
        var header := GtfsRtReader.FirstText(alert.headerText);
        var description := GtfsRtReader.FirstText(alert.descriptionText);
        var cause := if alert.cause.Some? then CauseName(alert.cause.value) else "UNKNOWN_CAUSE";
        var effect := if alert.effect.Some? then EffectName(alert.effect.value) else "UNKNOWN_EFFECT";
        var affectedEntities := AffectedEntities(alert.informedEntities);
        var record := AlertRecord(header, description, cause, effect, affectedEntities);
        assert record == AlertRecordOf(alert);
        alerts := alerts + [record];
      }
    }
    assert entities[..|entities|] == entities;
    return alerts;
  }

  /** One record per alert entity, in feed order. */
  lemma {:induction false} AlertRecordsPerEntity(es: seq<FeedEntity>)
    ensures |AlertRecords(es)| == |AlertEntities(es)|
    ensures forall k :: 0 <= k < |AlertEntities(es)| ==> AlertRecords(es)[k] == AlertRecordOf(AlertEntities(es)[k].alert.value)
    decreases |es|
  {
    if es != [] {
      AlertRecordsPerEntity(es[..|es| - 1]);
    }
  }

  // ----- Statistics of /api/all-data ----------------------------------------

  datatype DelaySummary = DelaySummary(average: real, max: real, min: real)

  /** The `trip_updates` statistics dictionary when it is not empty. */
  datatype TripUpdateSummary = TripUpdateSummary(delay: DelaySummary, trips: nat, routes: nat)

  /** The `vehicles` statistics dictionary when it is not empty. */
  datatype VehicleSummary = VehicleSummary(vehicles: nat, status: map<string, nat>)

  /** The `statistics` block; `None` stands for an empty dictionary. */
  datatype Statistics = Statistics(
    tripUpdates: Option<TripUpdateSummary>,
    vehicles: Option<VehicleSummary>,
    alertCount: nat)

  function TripIds(us: seq<AppNormalizer.TripUpdateRecord>): seq<string> {
    seq(|us|, i requires 0 <= i < |us| => us[i].tripId)
  }

  function RouteIds(us: seq<AppNormalizer.TripUpdateRecord>): seq<string> {
    seq(|us|, i requires 0 <= i < |us| => us[i].routeId)
  }

  function DelayMinutes(us: seq<AppNormalizer.TripUpdateRecord>): seq<real> {
    seq(|us|, i requires 0 <= i < |us| => us[i].delayMinutes)
  }

  function VehicleIds(vs: seq<VehicleRecord>): seq<string> {
    seq(|vs|, i requires 0 <= i < |vs| => vs[i].vehicleId)
  }

  function Statuses(vs: seq<VehicleRecord>): seq<string> {
    seq(|vs|, i requires 0 <= i < |vs| => vs[i].currentStatus)
  }

  function TripUpdateStatistics(us: seq<AppNormalizer.TripUpdateRecord>): (r: Option<TripUpdateSummary>)
    ensures r.None? <==> |us| == 0
    ensures r.Some? ==> r.value.delay.min <= r.value.delay.average <= r.value.delay.max
    ensures r.Some? ==> 1 <= r.value.trips <= |us| && 1 <= r.value.routes <= |us|
    ensures r.Some? ==> r.value.trips == DistinctCount(TripIds(us)) && r.value.routes == DistinctCount(RouteIds(us))
    ensures r.Some? ==> forall i :: 0 <= i < |us| ==> r.value.delay.min <= us[i].delayMinutes <= r.value.delay.max
  {
    if |us| == 0 then None
    else
      var ds := DelayMinutes(us);
      MeanBetweenMinAndMax(ds);
      DistinctCountBounds(TripIds(us));
      DistinctCountBounds(RouteIds(us));
      assert forall i :: 0 <= i < |us| ==> ds[i] == us[i].delayMinutes;
      Some(TripUpdateSummary(DelaySummary(Mean(ds), Max(ds), Min(ds)), DistinctCount(TripIds(us)), DistinctCount(RouteIds(us))))
  }

  function VehicleStatistics(vs: seq<VehicleRecord>): (r: Option<VehicleSummary>)
    ensures r.None? <==> |vs| == 0
    ensures r.Some? ==> 1 <= r.value.vehicles <= |vs| && r.value.vehicles == DistinctCount(VehicleIds(vs))
    ensures r.Some? ==> forall s :: s in r.value.status <==> exists i :: 0 <= i < |vs| && vs[i].currentStatus == s
    ensures r.Some? ==> forall s :: s in r.value.status ==> r.value.status[s] == Count(Statuses(vs), s)
  {
    if |vs| == 0 then None
    else
      DistinctCountBounds(VehicleIds(vs));
      var h := Histogram(Statuses(vs));
      assert forall s :: s in h <==> exists i :: 0 <= i < |vs| && vs[i].currentStatus == s by {
        forall s ensures s in h <==> exists i :: 0 <= i < |vs| && vs[i].currentStatus == s {
          if s in h {
            var ss := Statuses(vs);
            var i :| 0 <= i < |ss| && ss[i] == s;
            assert vs[i].currentStatus == s;
          }
          if exists i :: 0 <= i < |vs| && vs[i].currentStatus == s {
            var i :| 0 <= i < |vs| && vs[i].currentStatus == s;
            assert Statuses(vs)[i] == s;
          }
        }
      }
      Some(VehicleSummary(DistinctCount(VehicleIds(vs)), h))
  }

  function AllDataStatistics(
    trips: seq<AppNormalizer.TripUpdateRecord>, vehicles: seq<VehicleRecord>, alerts: seq<AlertRecord>): (r: Statistics)
    ensures r.tripUpdates == TripUpdateStatistics(trips)
    ensures r.vehicles == VehicleStatistics(vehicles)
    ensures r.alertCount == |alerts|
  {
    Statistics(TripUpdateStatistics(trips), VehicleStatistics(vehicles), |alerts|)
  }

  /** The status counts add up to the number of vehicle records. */
  lemma StatusCountsTotal(vs: seq<VehicleRecord>, statuses: seq<string>)
    requires |vs| > 0
    requires NoDuplicates(statuses)
    requires forall s :: s in statuses <==> s in VehicleStatistics(vs).value.status
    ensures SumOver(VehicleStatistics(vs).value.status, statuses) == |vs|
  {
    HistogramTotal(Statuses(vs), statuses);
  }
}
