/** The record-extraction loops of the command-line reader
    (app/core/gtfs_rt_reader.py): `analyze_trip_updates`,
    `analyze_vehicle_positions`, `analyze_alerts` and the rule that shortens a
    displayed description. Printing, data frames and plots are not modelled. */
module GtfsRtReader {
  import opened Wrappers
  import opened Feed
  import opened Json
  import AppNormalizer

  // ----- Trip updates -------------------------------------------------------

  /** The reader's delay rule: the arrival's delay whenever the arrival event is
      there (0 if it leaves `delay` unset), else the departure's, else 0. */
  function ArrivalFirstDelay(stu: StopTimeUpdate): int {
    if stu.arrival.Some? then stu.arrival.value.delay.GetOr(0)
    else if stu.departure.Some? then stu.departure.value.delay.GetOr(0)
    else 0
  }

  /** One collected entry: the same position in each of the four lists. */
  datatype Entry = Entry(tripId: string, routeId: string, stopId: string, delay: int)

  function EntryOf(trip: TripDescriptor, stu: StopTimeUpdate): Entry {
    Entry(trip.tripId.GetOr(""), trip.routeId.GetOr("N/A"), stu.stopId.GetOr(""), ArrivalFirstDelay(stu))
  }

  function TripEntries(tu: TripUpdate): seq<Entry> {
    seq(|tu.stopTimeUpdates|, k requires 0 <= k < |tu.stopTimeUpdates| => EntryOf(tu.trip, tu.stopTimeUpdates[k]))
  }

  function EntityEntries(e: FeedEntity): seq<Entry> {
    if e.tripUpdate.None? then [] else TripEntries(e.tripUpdate.value)
  }

  function Entries(es: seq<FeedEntity>): seq<Entry>
    decreases |es|
  {
    if es == [] then [] else Entries(es[..|es| - 1]) + EntityEntries(es[|es| - 1])
  }

  /** The data frame built from the four lists, with the derived minutes column. */
  datatype TripFrame = TripFrame(
    tripIds: seq<string>,
    routeIds: seq<string>,
    stopIds: seq<string>,
    delaySeconds: seq<int>,
    delayMinutes: seq<real>)

  /** The four lists hold, row by row, exactly the entries `Entries` lists. */
  predicate Lockstep(tripIds: seq<string>, routeIds: seq<string>, stopIds: seq<string>, delays: seq<int>, rows: seq<Entry>) {
    |tripIds| == |rows| && |routeIds| == |rows| && |stopIds| == |rows| && |delays| == |rows|
    && forall k :: 0 <= k < |rows| ==> rows[k] == Entry(tripIds[k], routeIds[k], stopIds[k], delays[k])
  }

  /** The inner loop over one trip update's stop-time updates. */
  method AppendStops(tripUpdate: TripUpdate, tripIds0: seq<string>, routeIds0: seq<string>, stopIds0: seq<string>, delays0: seq<int>, ghost before: seq<Entry>)
    returns (tripIds: seq<string>, routeIds: seq<string>, stopIds: seq<string>, delays: seq<int>)
    requires Lockstep(tripIds0, routeIds0, stopIds0, delays0, before)
    ensures Lockstep(tripIds, routeIds, stopIds, delays, before + TripEntries(tripUpdate))
  {
    tripIds, routeIds, stopIds, delays := tripIds0, routeIds0, stopIds0, delays0;
    var tripId := tripUpdate.trip.tripId.GetOr("");
    var routeId := if tripUpdate.trip.routeId.Some? then tripUpdate.trip.routeId.value else "N/A";
    ghost var block := TripEntries(tripUpdate);
    for j := 0 to |tripUpdate.stopTimeUpdates|
      invariant Lockstep(tripIds, routeIds, stopIds, delays, before + block[..j])
    {
      var stu := tripUpdate.stopTimeUpdates[j];
      var delay := if stu.arrival.Some? then stu.arrival.value.delay.GetOr(0)
        else if stu.departure.Some? then stu.departure.value.delay.GetOr(0)
        else 0;
      var stopId := stu.stopId.GetOr("");
      delays := delays + [delay];
      tripIds := tripIds + [tripId];
      routeIds := routeIds + [routeId];
      stopIds := stopIds + [stopId];
      assert before + block[..j + 1] == (before + block[..j]) + [Entry(tripId, routeId, stopId, delay)];
    }
    assert block[..|tripUpdate.stopTimeUpdates|] == block;
  }

  method AnalyzeTripUpdates(feed: Option<FeedMessage>) returns (r: Option<TripFrame>)
    ensures feed.None? ==> r.None?
    ensures feed.Some? ==> (r.None? <==> |Entries(feed.value.entities)| == 0)
    ensures r.Some? ==> Lockstep(r.value.tripIds, r.value.routeIds, r.value.stopIds, r.value.delaySeconds, Entries(feed.value.entities))
    ensures r.Some? ==> |r.value.delayMinutes| == |r.value.delaySeconds|
    ensures r.Some? ==> forall k :: 0 <= k < |r.value.delayMinutes| ==> r.value.delayMinutes[k] * 60.0 == r.value.delaySeconds[k] as real
  {
    if feed.None? {
      return None;
    }
    var entities := feed.value.entities;
    var delays: seq<int> := [];
    var tripIds: seq<string> := [];
    var routeIds: seq<string> := [];
    var stopIds: seq<string> := [];
    for i := 0 to |entities|
      invariant Lockstep(tripIds, routeIds, stopIds, delays, Entries(entities[..i]))
    {
      var entity := entities[i];
      assert entities[..i + 1][..i] == entities[..i];
      if entity.tripUpdate.Some? {
        tripIds, routeIds, stopIds, delays := AppendStops(entity.tripUpdate.value, tripIds, routeIds, stopIds, delays, Entries(entities[..i]));
      }
    }
    assert entities[..|entities|] == entities;
    if |delays| > 0 {
      var minutes := seq(|delays|, k requires 0 <= k < |delays| => (delays[k] as real) / 60.0);
      return Some(TripFrame(tripIds, routeIds, stopIds, delays, minutes));
    }
    return None;
  }

  /** One entry per stop-time update over all trip-update entities, like app.py's records. */
  lemma {:induction false} EntriesCount(es: seq<FeedEntity>)
    ensures |Entries(es)| == StopTimeUpdateCount(es)
    ensures |Entries(es)| == |AppNormalizer.TripRecords(es)|
    decreases |es|
  {
    if es != [] {
      EntriesCount(es[..|es| - 1]);
    }
  }

  /** The two delay rules agree whenever at most one of the two events is present. */
  lemma DelayRulesAgreeOnOneEvent(stu: StopTimeUpdate)
    requires stu.arrival.None? || stu.departure.None?
    ensures ArrivalFirstDelay(stu) == AppNormalizer.DepartureFirstDelay(stu)
  {
  }

  /** With both events present they differ: arrival 60 s and departure 120 s
      gives 60 here and 120 in app.py; an arrival without a delay hides the
      departure's delay here. */
  lemma DelayRulesDifferOnBothEvents()
    ensures var stu := StopTimeUpdate(Some("S1"), Some(StopTimeEvent(Some(60), None)), Some(StopTimeEvent(Some(120), None)));
      ArrivalFirstDelay(stu) == 60 && AppNormalizer.DepartureFirstDelay(stu) == 120
    ensures var stu := StopTimeUpdate(Some("S1"), Some(StopTimeEvent(None, Some(1000))), Some(StopTimeEvent(Some(30), None)));
      ArrivalFirstDelay(stu) == 0 && AppNormalizer.DepartureFirstDelay(stu) == 30
  {
  }

  // ----- Vehicle positions --------------------------------------------------

  /** A row of the vehicle frame: raw status number and raw timestamp. */
  datatype VehicleRow = VehicleRow(
    vehicleId: string,
    tripId: string,
    routeId: string,
    latitude: Option<real>,
    longitude: Option<real>,
    bearing: Option<real>,
    speed: Option<real>,
    currentStatus: Option<int>,
    timestamp: Option<int>)

  function VehicleRowOf(v: VehiclePosition): (r: VehicleRow)
    ensures r.vehicleId == (if v.vehicle.Some? && v.vehicle.value.id.Some? then v.vehicle.value.id.value else "N/A")
    ensures r.tripId == (if v.trip.Some? && v.trip.value.tripId.Some? then v.trip.value.tripId.value else "N/A")
    ensures r.routeId == (if v.trip.Some? && v.trip.value.routeId.Some? then v.trip.value.routeId.value else "N/A")
    ensures r.latitude.Some? <==> v.position.Some?
    ensures r.longitude.Some? <==> v.position.Some?
    ensures r.bearing.Some? <==> v.position.Some? && v.position.value.bearing.Some?
    ensures r.speed.Some? <==> v.position.Some? && v.position.value.speed.Some?
    ensures r.currentStatus.Some? <==> v.currentStatus.Some?
    ensures v.currentStatus.Some? ==> r.currentStatus.value == StatusNumber(v.currentStatus.value)
    ensures r.timestamp == v.timestamp
  {
    var pos := v.position;
    VehicleRow(
      if v.vehicle.Some? && v.vehicle.value.id.Some? then v.vehicle.value.id.value else "N/A",
      if v.trip.Some? && v.trip.value.tripId.Some? then v.trip.value.tripId.value else "N/A",
      if v.trip.Some? && v.trip.value.routeId.Some? then v.trip.value.routeId.value else "N/A",
      if pos.Some? then Some(pos.value.latitude.GetOr(0.0)) else None,
      if pos.Some? then Some(pos.value.longitude.GetOr(0.0)) else None,
      if pos.Some? then pos.value.bearing else None,
      if pos.Some? then pos.value.speed else None,
      if v.currentStatus.Some? then Some(StatusNumber(v.currentStatus.value)) else None,
      v.timestamp)
  }

  function VehicleRows(es: seq<FeedEntity>): seq<VehicleRow>
    decreases |es|
  {
    if es == [] then []
    else
      var e := es[|es| - 1];
      VehicleRows(es[..|es| - 1]) + (if e.vehicle.Some? then [VehicleRowOf(e.vehicle.value)] else [])
  }

  method AnalyzeVehiclePositions(feed: Option<FeedMessage>) returns (r: Option<seq<VehicleRow>>)
    ensures feed.None? ==> r.None?
    ensures feed.Some? ==> (r.None? <==> |VehicleRows(feed.value.entities)| == 0)
    ensures r.Some? ==> r.value == VehicleRows(feed.value.entities)
  {
    if feed.None? {
      return None;
    }
    var entities := feed.value.entities;
    var vehicleData: seq<VehicleRow> := [];
    for i := 0 to |entities|
      invariant vehicleData == VehicleRows(entities[..i])
    {
      var entity := entities[i];
      assert entities[..i + 1][..i] == entities[..i];
      if entity.vehicle.Some? {
        vehicleData := vehicleData + [VehicleRowOf(entity.vehicle.value)];
      }
    }
    assert entities[..|entities|] == entities;
    if |vehicleData| > 0 {
      return Some(vehicleData);
    }
    return None;
  }

  /** One row per vehicle entity, as many as app.py's records. */
  lemma {:induction false} VehicleRowsPerEntity(es: seq<FeedEntity>)
    ensures |VehicleRows(es)| == |VehicleEntities(es)|
    ensures forall k :: 0 <= k < |VehicleEntities(es)| ==> VehicleRows(es)[k] == VehicleRowOf(VehicleEntities(es)[k].vehicle.value)
    decreases |es|
  {
    if es != [] {
      VehicleRowsPerEntity(es[..|es| - 1]);
    }
  }

  /** Where app.py reports a coordinate the reader reports the same one; the
      reader also reports 0.0 for a position whose coordinate app.py leaves None. */
  lemma CoordinatesAgainstApp(v: VehiclePosition, routes: AppNormalizer.RouteTable)
    ensures AppNormalizer.VehicleRecordOf(v, routes).latitude.Some? ==>
              VehicleRowOf(v).latitude == AppNormalizer.VehicleRecordOf(v, routes).latitude
    ensures AppNormalizer.VehicleRecordOf(v, routes).longitude.Some? ==>
              VehicleRowOf(v).longitude == AppNormalizer.VehicleRecordOf(v, routes).longitude
    ensures v.position.Some? && v.position.value.latitude.None? ==>
              AppNormalizer.VehicleRecordOf(v, routes).latitude.None? && VehicleRowOf(v).latitude == Some(0.0)
    ensures VehicleRowOf(v).speed == AppNormalizer.VehicleRecordOf(v, routes).speed
    ensures VehicleRowOf(v).bearing == AppNormalizer.VehicleRecordOf(v, routes).bearing
  {
  }

  // ----- Alerts -------------------------------------------------------------

  datatype AlertRow = AlertRow(
    id: string,
    cause: Option<int>,
    effect: Option<int>,
    headerText: string,
    descriptionText: string,
    affectedEntities: seq<Object>)

  /** The text of the first translation that sets `text` (possibly empty), or `''`. */
  function FirstTextOf(ts: seq<Translation>): (s: string)
    decreases |ts|
  {
    if ts == [] then ""
    else if ts[0].text.Some? then ts[0].text.value
    else FirstTextOf(ts[1..])
  }

  /** The result is the text of translation `j` exactly when `j` is the first one with a text. */
  lemma {:induction false} FirstTextIsFirst(ts: seq<Translation>, j: nat)
    requires j < |ts| && ts[j].text.Some?
    requires forall k :: 0 <= k < j ==> ts[k].text.None?
    ensures FirstTextOf(ts) == ts[j].text.value
    decreases j
  {
    if j > 0 {
      assert ts[1..][j - 1] == ts[j];
      FirstTextIsFirst(ts[1..], j - 1);
    }
  }

  /** No translation sets `text`: the result is `''`. */
  lemma {:induction false} FirstTextNone(ts: seq<Translation>)
    requires forall k :: 0 <= k < |ts| ==> ts[k].text.None?
    ensures FirstTextOf(ts) == ""
    decreases |ts|
  {
    if ts != [] {
      FirstTextNone(ts[1..]);
    }
  }

  function BlockFirstText(block: Option<TranslatedString>): string {
    if block.None? then "" else FirstTextOf(block.value.translations)
  }

  /** The translation loop with `break` of the reader (and of data_routes.py). */
  method FirstText(block: Option<TranslatedString>) returns (text: string)
    ensures text == BlockFirstText(block)
  {
    text := "";
    if block.Some? {
      var ts := block.value.translations;
      var i := 0;
      while i < |ts|
        invariant 0 <= i <= |ts|
        invariant forall k :: 0 <= k < i ==> ts[k].text.None?
      {
        if ts[i].text.Some? {
          text := ts[i].text.value;
          FirstTextIsFirst(ts, i);
          break;
        }
        i := i + 1;
      }
      if i == |ts| {
        FirstTextNone(ts);
      }
    }
  }

  /** An informed entity's dictionary: `trip_id` whenever a trip is present
      (`''` if the trip leaves it unset); no `route_type`. */
  function EntityInfo(sel: EntitySelector): (m: Object)
    ensures m.Keys <= {"agency_id", "route_id", "stop_id", "trip_id"}
    ensures "agency_id" in m <==> sel.agencyId.Some?
    ensures sel.agencyId.Some? ==> m["agency_id"] == JStr(sel.agencyId.value)
    ensures "route_id" in m <==> sel.routeId.Some?
    ensures sel.routeId.Some? ==> m["route_id"] == JStr(sel.routeId.value)
    ensures "stop_id" in m <==> sel.stopId.Some?
    ensures sel.stopId.Some? ==> m["stop_id"] == JStr(sel.stopId.value)
    ensures "trip_id" in m <==> sel.trip.Some?
    ensures sel.trip.Some? ==> m["trip_id"] == JStr(sel.trip.value.tripId.GetOr(""))
  {
    var m0: Object := map[];
    var m1 := if sel.agencyId.Some? then m0["agency_id" := JStr(sel.agencyId.value)] else m0;
    var m2 := if sel.routeId.Some? then m1["route_id" := JStr(sel.routeId.value)] else m1;
    var m3 := if sel.trip.Some? then m2["trip_id" := JStr(sel.trip.value.tripId.GetOr(""))] else m2;
    if sel.stopId.Some? then m3["stop_id" := JStr(sel.stopId.value)] else m3
  }

  function AlertRowOf(id: string, a: Alert): AlertRow {
    AlertRow(
      id,
      if a.cause.Some? then Some(CauseNumber(a.cause.value)) else None,
      if a.effect.Some? then Some(EffectNumber(a.effect.value)) else None,
      BlockFirstText(a.headerText), BlockFirstText(a.descriptionText),
      seq(|a.informedEntities|, k requires 0 <= k < |a.informedEntities| => EntityInfo(a.informedEntities[k])))
  }

  function AlertRows(es: seq<FeedEntity>): seq<AlertRow>
    decreases |es|
  {
    if es == [] then []
    else
      var e := es[|es| - 1];
      AlertRows(es[..|es| - 1]) + (if e.alert.Some? then [AlertRowOf(e.id, e.alert.value)] else [])
  }

  method AffectedEntities(selectors: seq<EntitySelector>) returns (affected: seq<Object>)
    ensures affected == seq(|selectors|, k requires 0 <= k < |selectors| => EntityInfo(selectors[k]))
  {
    affected := [];
    for i := 0 to |selectors|
      invariant |affected| == i
      invariant forall k :: 0 <= k < i ==> affected[k] == EntityInfo(selectors[k])
    {
      var sel := selectors[i];
      var entityInfo: Object := map[];
      if sel.agencyId.Some? {
        entityInfo := entityInfo["agency_id" := JStr(sel.agencyId.value)];
      }
      if sel.routeId.Some? {
        entityInfo := entityInfo["route_id" := JStr(sel.routeId.value)];
      }
      if sel.trip.Some? {
        entityInfo := entityInfo["trip_id" := JStr(sel.trip.value.tripId.GetOr(""))];
      }
      if sel.stopId.Some? {
        entityInfo := entityInfo["stop_id" := JStr(sel.stopId.value)];
      }
      affected := affected + [entityInfo];
    }
  }

  method AnalyzeAlerts(feed: Option<FeedMessage>) returns (r: Option<seq<AlertRow>>)
    ensures feed.None? ==> r.None?
    ensures feed.Some? ==> (r.None? <==> |AlertRows(feed.value.entities)| == 0)
    ensures r.Some? ==> r.value == AlertRows(feed.value.entities)
  {
    if feed.None? {
      return None;
    }
    var entities := feed.value.entities;
    var alertData: seq<AlertRow> := [];
    for i := 0 to |entities|
      invariant alertData == AlertRows(entities[..i])
    {
      var entity := entities[i];
      assert entities[..i + 1][..i] == entities[..i];
      if entity.alert.Some? {
        var alert := entity.alert.value;
        var affectedEntities := AffectedEntities(alert.informedEntities);
        var headerText := FirstText(alert.headerText);
        var descriptionText := FirstText(alert.descriptionText);
        var cause := if alert.cause.Some? then Some(CauseNumber(alert.cause.value)) else None;
        var effect := if alert.effect.Some? then Some(EffectNumber(alert.effect.value)) else None;
        var row := AlertRow(entity.id, cause, effect, headerText, descriptionText, affectedEntities);
        assert row == AlertRowOf(entity.id, alert);
        alertData := alertData + [row];
      }
    }
    assert entities[..|entities|] == entities;
    if |alertData| > 0 {
      return Some(alertData);
    }
    return None;
  }

  /** One row per alert entity, in feed order, carrying the entity's id. */
  lemma {:induction false} AlertRowsPerEntity(es: seq<FeedEntity>)
    ensures |AlertRows(es)| == |AlertEntities(es)|
    ensures forall k :: 0 <= k < |AlertEntities(es)| ==>
              AlertRows(es)[k] == AlertRowOf(AlertEntities(es)[k].id, AlertEntities(es)[k].alert.value)
    decreases |es|
  {
    if es != [] {
      AlertRowsPerEntity(es[..|es| - 1]);
    }
  }

  /** When every translation carries a non-empty text and none is French, the
      reader's first-text rule and app.py's French-preferring fold agree. */
  lemma {:induction false} FirstTextMatchesAppFold(ts: seq<Translation>)
    requires forall k :: 0 <= k < |ts| ==> ts[k].text.Some? && ts[k].text.value != ""
    requires forall k :: 0 <= k < |ts| ==> !AppNormalizer.IsFrench(ts[k])
    ensures FirstTextOf(ts) == AppNormalizer.FrFold(ts)
  {
    AppNormalizer.FrFoldWithoutFrench(ts);
    if ts != [] {
      assert AppNormalizer.FirstNonEmptyText(ts) == ts[0].text.value;
    }
  }

  /** With a French translation after an English one they differ. */
  lemma FirstTextDiffersFromAppFold()
    ensures var ts := [Translation(Some("Delay"), Some("en")), Translation(Some("Retard"), Some("fr"))];
      FirstTextOf(ts) == "Delay" && AppNormalizer.FrFold(ts) == "Retard"
  {
    AppNormalizer.FrenchPreferredExample();
  }

  // ----- Description display ------------------------------------------------

  /** The displayed description: its first 100 characters followed by `...`
      when it is longer than 100 characters, otherwise the text unchanged. */
  function Truncate(d: string): (r: string)
    ensures |d| <= 100 ==> r == d
    ensures |d| > 100 ==> |r| == 103 && r[..100] == d[..100] && r[100..] == "..."
    ensures |r| <= 103
  {
    if |d| > 100 then d[..100] + "..." else d
  }

  /** Shortening a shortened description changes nothing. */
  lemma TruncateIdempotent(d: string)
    ensures Truncate(Truncate(d)) == Truncate(d)
  {
    if |d| > 100 {
      var r := Truncate(d);
      assert r[..100] + "..." == r;
    }
  }
}
