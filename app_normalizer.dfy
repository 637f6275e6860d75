/** The record normalisers of app.py: `process_trip_updates`,
    `process_vehicle_positions` (with the route-table join of
    `load_routes_data`) and `process_alerts`. A missing feed gives `None`;
    otherwise every record field resolves to app.py's fixed default when the
    decoded message leaves it unset. */
module AppNormalizer {
  import opened Wrappers
  import opened Feed
  import opened Json

  // ----- Trip updates -------------------------------------------------------

  datatype TripUpdateRecord = TripUpdateRecord(
    tripId: string,
    routeId: string,
    stopId: string,
    delaySeconds: int,
    delayMinutes: real,
    arrivalTime: Option<LocalTime>,
    departureTime: Option<LocalTime>)

  /** The delay an event carries: present only when the event is there and sets `delay`. */
  function EventDelay(ev: Option<StopTimeEvent>): Option<int> {
    if ev.Some? && ev.value.delay.Some? then Some(ev.value.delay.value) else None
  }

  /** The rendered time of an event: present only when the event is there and sets `time`. */
  function EventTime(ev: Option<StopTimeEvent>): Option<LocalTime> {
    if ev.Some? && ev.value.time.Some? then Some(LocalTime(ev.value.time.value)) else None
  }

  /** app.py's delay rule: the departure's delay if set, else the arrival's, else 0. */
  function DepartureFirstDelay(stu: StopTimeUpdate): int {
    EventDelay(stu.departure).GetOr(EventDelay(stu.arrival).GetOr(0))
  }

  /** `delay_seconds / 60`; the `round(..., 1)` applied to it is not modelled. */
  function Minutes(seconds: int): real {
    (seconds as real) / 60.0
  }

  /** The record of one stop-time update of a trip. */
  function StopRecord(trip: TripDescriptor, stu: StopTimeUpdate): (r: TripUpdateRecord)
    ensures trip.tripId.Some? ==> r.tripId == trip.tripId.value
    ensures trip.tripId.None? ==> r.tripId == "Unknown"
    ensures trip.routeId.Some? ==> r.routeId == trip.routeId.value
    ensures trip.routeId.None? ==> r.routeId == "Unknown"
    ensures stu.stopId.Some? ==> r.stopId == stu.stopId.value
    ensures stu.stopId.None? ==> r.stopId == "Unknown"
    ensures r.arrivalTime.Some? <==> stu.arrival.Some? && stu.arrival.value.time.Some?
    ensures r.arrivalTime.Some? ==> r.arrivalTime.value.epoch == stu.arrival.value.time.value
    ensures r.departureTime.Some? <==> stu.departure.Some? && stu.departure.value.time.Some?
    ensures r.departureTime.Some? ==> r.departureTime.value.epoch == stu.departure.value.time.value
    ensures stu.departure.Some? && stu.departure.value.delay.Some? ==> r.delaySeconds == stu.departure.value.delay.value
    ensures !(stu.departure.Some? && stu.departure.value.delay.Some?) && stu.arrival.Some? && stu.arrival.value.delay.Some? ==>
              r.delaySeconds == stu.arrival.value.delay.value
    ensures !(stu.departure.Some? && stu.departure.value.delay.Some?) && !(stu.arrival.Some? && stu.arrival.value.delay.Some?) ==>
              r.delaySeconds == 0
    ensures r.delayMinutes * 60.0 == r.delaySeconds as real
  {
    var d := DepartureFirstDelay(stu);
    TripUpdateRecord(
      trip.tripId.GetOr("Unknown"), trip.routeId.GetOr("Unknown"), stu.stopId.GetOr("Unknown"),
      d, Minutes(d), EventTime(stu.arrival), EventTime(stu.departure))
  }

  /** What one entity contributes: a record per stop-time update of its trip update, in order. */
  function EntityTripRecords(e: FeedEntity): seq<TripUpdateRecord> {
    if e.tripUpdate.None? then []
    else
      var tu := e.tripUpdate.value;
      seq(|tu.stopTimeUpdates|, k requires 0 <= k < |tu.stopTimeUpdates| => StopRecord(tu.trip, tu.stopTimeUpdates[k]))
  }

  function TripRecords(es: seq<FeedEntity>): seq<TripUpdateRecord>
    decreases |es|
  {
    if es == [] then [] else TripRecords(es[..|es| - 1]) + EntityTripRecords(es[|es| - 1])
  }

  method ProcessTripUpdates(feed: Option<FeedMessage>) returns (r: Option<seq<TripUpdateRecord>>)
    ensures feed.None? ==> r.None?
    ensures feed.Some? ==> r == Some(TripRecords(feed.value.entities))
  {
    if feed.None? {
      return None;
    }
    var entities := feed.value.entities;
    var tripUpdates: seq<TripUpdateRecord> := [];
    for i := 0 to |entities|
      invariant tripUpdates == TripRecords(entities[..i])
    {
      var entity := entities[i];
      assert entities[..i + 1][..i] == entities[..i];
      if entity.tripUpdate.Some? {
        tripUpdates := AppendStopRecords(entity, tripUpdates);
      }
    }
    assert entities[..|entities|] == entities;
    return Some(tripUpdates);
  }

  /** The inner loop of `process_trip_updates`: one record per stop-time update, appended in order. */
  method AppendStopRecords(entity: FeedEntity, tripUpdates: seq<TripUpdateRecord>) returns (out: seq<TripUpdateRecord>)
    requires entity.tripUpdate.Some?
    ensures out == tripUpdates + EntityTripRecords(entity)
  {
    var tripUpdate := entity.tripUpdate.value;
    var tripId := if tripUpdate.trip.tripId.Some? then tripUpdate.trip.tripId.value else "Unknown";
    var routeId := if tripUpdate.trip.routeId.Some? then tripUpdate.trip.routeId.value else "Unknown";
    ghost var block := EntityTripRecords(entity);
    out := tripUpdates;
    for j := 0 to |tripUpdate.stopTimeUpdates|
      invariant out == tripUpdates + block[..j]
    {
      var stu := tripUpdate.stopTimeUpdates[j];
      var stopId := if stu.stopId.Some? then stu.stopId.value else "Unknown";
      var delaySeconds :=
        if stu.departure.Some? && stu.departure.value.delay.Some? then stu.departure.value.delay.value
        else if stu.arrival.Some? && stu.arrival.value.delay.Some? then stu.arrival.value.delay.value
        else 0;
      var delayMinutes := Minutes(delaySeconds);
      var arrivalTime: Option<LocalTime> := None;
      var departureTime: Option<LocalTime> := None;
      if stu.arrival.Some? && stu.arrival.value.time.Some? {
        arrivalTime := Some(LocalTime(stu.arrival.value.time.value));
      }
      if stu.departure.Some? && stu.departure.value.time.Some? {
        departureTime := Some(LocalTime(stu.departure.value.time.value));
      }
      var record := TripUpdateRecord(tripId, routeId, stopId, delaySeconds, delayMinutes, arrivalTime, departureTime);
      assert record == StopRecord(tripUpdate.trip, stu);
      assert block[..j + 1] == block[..j] + [record];
      out := out + [record];
    }
    assert block[..|tripUpdate.stopTimeUpdates|] == block;
  }

  /** One record per stop-time update over all trip-update entities. */
  lemma {:induction false} TripRecordsCount(es: seq<FeedEntity>)
    ensures |TripRecords(es)| == StopTimeUpdateCount(es)
    decreases |es|
  {
    if es != [] {
      TripRecordsCount(es[..|es| - 1]);
    }
  }

  /** Records of a concatenated entity list are the concatenated records: every
      entity's block stays contiguous and in feed order. */
  lemma {:induction false} TripRecordsAppend(a: seq<FeedEntity>, b: seq<FeedEntity>)
    ensures TripRecords(a + b) == TripRecords(a) + TripRecords(b)
    decreases |b|
  {
    if b == [] {
      assert a + b == a;
    } else {
      var b' := b[..|b| - 1];
      var ab := a + b;
      assert ab[..|ab| - 1] == a + b';
      assert ab[|ab| - 1] == b[|b| - 1];
      calc {
        TripRecords(ab);
        TripRecords(a + b') + EntityTripRecords(b[|b| - 1]);
        { TripRecordsAppend(a, b'); }
        TripRecords(a) + TripRecords(b') + EntityTripRecords(b[|b| - 1]);
        TripRecords(a) + TripRecords(b);
      }
    }
  }

  /** Every record comes from one stop-time update of one trip-update entity. */
  lemma {:induction false} TripRecordOrigin(es: seq<FeedEntity>, n: nat)
    requires n < |TripRecords(es)|
    ensures exists i, k :: (0 <= i < |es| && es[i].tripUpdate.Some?
                            && 0 <= k < |es[i].tripUpdate.value.stopTimeUpdates|
                            && TripRecords(es)[n] == StopRecord(es[i].tripUpdate.value.trip, es[i].tripUpdate.value.stopTimeUpdates[k]))
    decreases |es|
  {
    var p := es[..|es| - 1];
    var e := es[|es| - 1];
    if n < |TripRecords(p)| {
      TripRecordOrigin(p, n);
      var i, k :| 0 <= i < |p| && p[i].tripUpdate.Some?
        && 0 <= k < |p[i].tripUpdate.value.stopTimeUpdates|
        && TripRecords(p)[n] == StopRecord(p[i].tripUpdate.value.trip, p[i].tripUpdate.value.stopTimeUpdates[k]);
      assert es[i] == p[i];
    } else {
      var k := n - |TripRecords(p)|;
      assert TripRecords(es)[n] == EntityTripRecords(e)[k];
      assert es[|es| - 1] == e;
    }
  }

  // ----- Route table --------------------------------------------------------

  /** A routes.csv cell as pandas reads it: text, an integer (in a column
      pandas infers as numeric, such as route ids `1,2,10` or a colour
      `000000`), or NaN for an empty cell. */
  datatype Cell = Text(text: string) | Number(n: int) | NaN

  /** One row of the table: column name to cell; a column the file lacks is absent. */
  type Row = map<string, Cell>

  /** The four route fields as app.py stores them: a string, a number, or `''`. */
  datatype RouteInfo = RouteInfo(shortName: Json, longName: Json, color: Json, textColor: Json)

  /** The table keyed by the row's `route_id` cell. A feed's route id is text,
      so it never matches a numeric or NaN key. */
  type RouteTable = map<Cell, RouteInfo>

  /** A column's value: the text or the number it holds, or `''` when the
      column is missing or the cell is NaN. */
  function CellValue(row: Row, column: string): (j: Json)
    ensures column in row && row[column].Text? ==> j == JStr(row[column].text)
    ensures column in row && row[column].Number? ==> j == JInt(row[column].n)
    ensures !(column in row && !row[column].NaN?) ==> j == JStr("")
  {
    if column !in row then JStr("")
    else match row[column]
      case Text(t) => JStr(t)
      case Number(n) => JInt(n)
      case NaN => JStr("")
  }

  function RouteInfoOf(row: Row): RouteInfo {
    RouteInfo(
      CellValue(row, "route_short_name"), CellValue(row, "route_long_name"),
      CellValue(row, "route_color"), CellValue(row, "route_text_color"))
  }

  predicate AllRowsHaveRouteId(rows: seq<Row>) {
    forall i :: 0 <= i < |rows| ==> "route_id" in rows[i]
  }

  function RoutesFrom(rows: seq<Row>): RouteTable
    requires AllRowsHaveRouteId(rows)
    decreases |rows|
  {
    if rows == [] then map[]
    else
      var row := rows[|rows| - 1];
      RoutesFrom(rows[..|rows| - 1])[row["route_id"] := RouteInfoOf(row)]
  }

  /** `load_routes_data` given the parsed table (`None`: the file is missing or
      cannot be parsed). A row without a `route_id` raises inside the `try`,
      which yields the empty table. */
  method LoadRoutesData(table: Option<seq<Row>>) returns (routes: RouteTable)
    ensures table.None? ==> routes == map[]
    ensures table.Some? && !AllRowsHaveRouteId(table.value) ==> routes == map[]
    ensures table.Some? && AllRowsHaveRouteId(table.value) ==> routes == RoutesFrom(table.value)
  {
    if table.None? {
      return map[];
    }
    var rows := table.value;
    var routesDict: RouteTable := map[];
    for i := 0 to |rows|
      invariant AllRowsHaveRouteId(rows[..i])
      invariant routesDict == RoutesFrom(rows[..i])
    {
      var row := rows[i];
      var info := RouteInfo(
        CellValue(row, "route_short_name"), CellValue(row, "route_long_name"),
        CellValue(row, "route_color"), CellValue(row, "route_text_color"));
      if "route_id" !in row {
        return map[];
      }
      assert rows[..i + 1][..i] == rows[..i];
      routesDict := routesDict[row["route_id"] := info];
    }
    assert rows[..|rows|] == rows;
    return routesDict;
  }

  /** A route id is in the table exactly when some row carries it. */
  lemma {:induction false} RouteTableKeys(rows: seq<Row>, key: Cell)
    requires AllRowsHaveRouteId(rows)
    ensures key in RoutesFrom(rows) <==> exists i :: 0 <= i < |rows| && rows[i]["route_id"] == key
    decreases |rows|
  {
    if rows != [] {
      var p := rows[..|rows| - 1];
      var last := |rows| - 1;
      assert AllRowsHaveRouteId(p);
      RouteTableKeys(p, key);
      if key in RoutesFrom(rows) && rows[last]["route_id"] != key {
        var i :| 0 <= i < |p| && p[i]["route_id"] == key;
        assert rows[i] == p[i];
      }
      if (exists i :: 0 <= i < |rows| && rows[i]["route_id"] == key) && rows[last]["route_id"] != key {
        var i :| 0 <= i < |rows| && rows[i]["route_id"] == key;
        assert i < last && p[i] == rows[i];
      }
    }
  }

  /** A later row with the same id replaces an earlier one: the entry is the
      last such row's. */
  lemma {:induction false} LastRowWins(rows: seq<Row>, j: nat)
    requires AllRowsHaveRouteId(rows)
    requires j < |rows|
    requires forall k :: j < k < |rows| ==> rows[k]["route_id"] != rows[j]["route_id"]
    ensures rows[j]["route_id"] in RoutesFrom(rows)
    ensures RoutesFrom(rows)[rows[j]["route_id"]] == RouteInfoOf(rows[j])
    decreases |rows|
  {
    var last := |rows| - 1;
    if j < last {
      var p := rows[..last];
      assert AllRowsHaveRouteId(p);
      assert p[j] == rows[j];
      assert forall k :: j < k < |p| ==> p[k]["route_id"] != p[j]["route_id"] by {
        forall k | j < k < |p| ensures p[k]["route_id"] != p[j]["route_id"] {
          assert p[k] == rows[k];
        }
      }
      LastRowWins(p, j);
    }
  }

  // ----- Vehicle positions --------------------------------------------------

  datatype VehicleRecord = VehicleRecord(
    vehicleId: string,
    tripId: string,
    routeId: string,
    latitude: Option<real>,
    longitude: Option<real>,
    bearing: Option<real>,
    speed: Option<real>,
    currentStatus: string,
    timestamp: Option<LocalTime>,
    routeShortName: Json,
    routeLongName: Json,
    routeColor: Json,
    routeTextColor: Json)

  function VehicleRecordOf(v: VehiclePosition, routes: RouteTable): (r: VehicleRecord)
    ensures r.vehicleId == (if v.vehicle.Some? && v.vehicle.value.id.Some? then v.vehicle.value.id.value else "Unknown")
    ensures r.tripId == (if v.trip.Some? && v.trip.value.tripId.Some? then v.trip.value.tripId.value else "Unknown")
    ensures r.routeId == (if v.trip.Some? && v.trip.value.routeId.Some? then v.trip.value.routeId.value else "Unknown")
    ensures r.latitude.Some? <==> v.position.Some? && v.position.value.latitude.Some?
    ensures r.latitude.Some? ==> r.latitude == v.position.value.latitude
    ensures r.longitude.Some? <==> v.position.Some? && v.position.value.longitude.Some?
    ensures r.longitude.Some? ==> r.longitude == v.position.value.longitude
    ensures r.bearing.Some? <==> v.position.Some? && v.position.value.bearing.Some?
    ensures r.bearing.Some? ==> r.bearing == v.position.value.bearing
    ensures r.speed.Some? <==> v.position.Some? && v.position.value.speed.Some?
    ensures r.speed.Some? ==> r.speed == v.position.value.speed
    ensures r.currentStatus == "UNKNOWN" <==> v.currentStatus.None?
    ensures v.currentStatus.Some? ==> r.currentStatus == StatusName(v.currentStatus.value)
    ensures r.timestamp.Some? <==> v.timestamp.Some?
    ensures r.timestamp.Some? ==> r.timestamp.value.epoch == v.timestamp.value
    ensures Text(r.routeId) in routes ==>
      RouteInfo(r.routeShortName, r.routeLongName, r.routeColor, r.routeTextColor) == routes[Text(r.routeId)]
    ensures Text(r.routeId) !in routes ==>
      r.routeShortName == JStr("") && r.routeLongName == JStr("") && r.routeColor == JStr("") && r.routeTextColor == JStr("")
  {
    var routeId := if v.trip.Some? && v.trip.value.routeId.Some? then v.trip.value.routeId.value else "Unknown";
    var info := if Text(routeId) in routes then routes[Text(routeId)] else RouteInfo(JStr(""), JStr(""), JStr(""), JStr(""));
    VehicleRecord(
      if v.vehicle.Some? && v.vehicle.value.id.Some? then v.vehicle.value.id.value else "Unknown",
      if v.trip.Some? && v.trip.value.tripId.Some? then v.trip.value.tripId.value else "Unknown",
      routeId,
      if v.position.Some? then v.position.value.latitude else None,
      if v.position.Some? then v.position.value.longitude else None,
      if v.position.Some? then v.position.value.bearing else None,
      if v.position.Some? then v.position.value.speed else None,
      if v.currentStatus.Some? then StatusName(v.currentStatus.value) else "UNKNOWN",
      if v.timestamp.Some? then Some(LocalTime(v.timestamp.value)) else None,
      info.shortName, info.longName, info.color, info.textColor)
  }

  /** When pandas reads the `route_id` column as numbers, no vehicle's text
      route id finds its row: the four route fields are all `''`. */
  lemma NumericRouteIdsNeverMatch(v: VehiclePosition, rows: seq<Row>)
    requires AllRowsHaveRouteId(rows)
    requires forall i :: 0 <= i < |rows| ==> rows[i]["route_id"].Number?
    ensures var r := VehicleRecordOf(v, RoutesFrom(rows));
      r.routeShortName == JStr("") && r.routeLongName == JStr("") && r.routeColor == JStr("") && r.routeTextColor == JStr("")
  {
    var r := VehicleRecordOf(v, RoutesFrom(rows));
    RouteTableKeys(rows, Text(r.routeId));
  }

  function VehicleRecords(es: seq<FeedEntity>, routes: RouteTable): seq<VehicleRecord>
    decreases |es|
  {
    if es == [] then []
    else
      var e := es[|es| - 1];
      VehicleRecords(es[..|es| - 1], routes) + (if e.vehicle.Some? then [VehicleRecordOf(e.vehicle.value, routes)] else [])
  }

  /** `process_vehicle_positions`; `routes` is what `load_routes_data()` returned. */
  method ProcessVehiclePositions(feed: Option<FeedMessage>, routes: RouteTable) returns (r: Option<seq<VehicleRecord>>)
    ensures feed.None? ==> r.None?
    ensures feed.Some? ==> r == Some(VehicleRecords(feed.value.entities, routes))
  {
    if feed.None? {
      return None;
    }
    var entities := feed.value.entities;
    var vehiclePositions: seq<VehicleRecord> := [];
    for i := 0 to |entities|
      invariant vehiclePositions == VehicleRecords(entities[..i], routes)
    {
      var entity := entities[i];
      assert entities[..i + 1][..i] == entities[..i];
      if entity.vehicle.Some? {
        vehiclePositions := vehiclePositions + [VehicleRecordOf(entity.vehicle.value, routes)];
      }
    }
    assert entities[..|entities|] == entities;
    return Some(vehiclePositions);
  }

  /** Exactly one record per vehicle entity, in feed order, each built from that entity's payload. */
  lemma {:induction false} VehicleRecordsPerEntity(es: seq<FeedEntity>, routes: RouteTable)
    ensures |VehicleRecords(es, routes)| == |VehicleEntities(es)|
    ensures forall k :: 0 <= k < |VehicleEntities(es)| ==>
      VehicleRecords(es, routes)[k] == VehicleRecordOf(VehicleEntities(es)[k].vehicle.value, routes)
    decreases |es|
  {
    if es != [] {
      VehicleRecordsPerEntity(es[..|es| - 1], routes);
    }
  }

  // ----- Alerts -------------------------------------------------------------

  datatype AlertRecord = AlertRecord(
    headerText: string,
    descriptionText: string,
    cause: string,
    effect: string,
    startTime: Option<LocalTime>,
    endTime: Option<LocalTime>,
    affectedEntities: seq<Object>)

  predicate IsFrench(t: Translation) {
    t.language.GetOr("") == "fr"
  }

  /** One turn of app.py's translation loop: a French translation, or any
      translation while the text so far is empty, replaces the text. */
  function FrStep(current: string, t: Translation): string {
    if IsFrench(t) || current == "" then t.text.GetOr("") else current
  }

  /** The left fold of `FrStep` from `''` over the translations. */
  function FrFold(ts: seq<Translation>): string
    decreases |ts|
  {
    if ts == [] then "" else FrStep(FrFold(ts[..|ts| - 1]), ts[|ts| - 1])
  }

  /** Header or description text: `''` when the block is absent. */
  function BlockText(block: Option<TranslatedString>): string {
    if block.None? then "" else FrFold(block.value.translations)
  }

  /** The first translation whose text is non-empty, or `''`. */
  function FirstNonEmptyText(ts: seq<Translation>): string
    decreases |ts|
  {
    if ts == [] then ""
    else if ts[0].text.GetOr("") != "" then ts[0].text.value
    else FirstNonEmptyText(ts[1..])
  }

  /** When the last French translation has text, that text is the result,
      whatever comes after it. */
  lemma {:induction false} FrFoldLastFrenchWins(ts: seq<Translation>, j: nat)
    requires j < |ts| && IsFrench(ts[j]) && ts[j].text.GetOr("") != ""
    requires forall k :: j < k < |ts| ==> !IsFrench(ts[k])
    ensures FrFold(ts) == ts[j].text.value
    decreases |ts|
  {
    if j < |ts| - 1 {
      var p := ts[..|ts| - 1];
      assert p[j] == ts[j];
      FrFoldLastFrenchWins(p, j);
    }
  }

  lemma {:induction false} FirstNonEmptyAppend(ts: seq<Translation>, t: Translation)
    ensures FirstNonEmptyText(ts + [t]) ==
      if FirstNonEmptyText(ts) != "" then FirstNonEmptyText(ts) else t.text.GetOr("")
    decreases |ts|
  {
    if ts == [] {
      assert ts + [t] == [t];
      assert [t][1..] == [];
    } else {
      assert (ts + [t])[1..] == ts[1..] + [t];
      FirstNonEmptyAppend(ts[1..], t);
    }
  }

  /** With no French translation the fold keeps the first non-empty text. */
  lemma {:induction false} FrFoldWithoutFrench(ts: seq<Translation>)
    requires forall k :: 0 <= k < |ts| ==> !IsFrench(ts[k])
    ensures FrFold(ts) == FirstNonEmptyText(ts)
    decreases |ts|
  {
    if ts != [] {
      var p := ts[..|ts| - 1];
      FrFoldWithoutFrench(p);
      FirstNonEmptyAppend(p, ts[|ts| - 1]);
      assert p + [ts[|ts| - 1]] == ts;
    }
  }

  /** The last value that is set, scanning the whole sequence. */
  function LastSet(xs: seq<Option<int>>): Option<int>
    decreases |xs|
  {
    if xs == [] then None
    else if xs[|xs| - 1].Some? then xs[|xs| - 1]
    else LastSet(xs[..|xs| - 1])
  }

  lemma {:induction false} LastSetIsLastIndex(xs: seq<Option<int>>)
    ensures LastSet(xs).None? <==> forall i :: 0 <= i < |xs| ==> xs[i].None?
    ensures forall j :: 0 <= j < |xs| && xs[j].Some? && (forall k :: j < k < |xs| ==> xs[k].None?) ==> LastSet(xs) == xs[j]
    decreases |xs|
  {
    if xs != [] {
      var p := xs[..|xs| - 1];
      LastSetIsLastIndex(p);
      forall j | 0 <= j < |xs| && xs[j].Some? && (forall k :: j < k < |xs| ==> xs[k].None?)
        ensures LastSet(xs) == xs[j]
      {
        if j < |xs| - 1 {
          assert p[j] == xs[j];
          assert forall k :: j < k < |p| ==> p[k].None? by {
            forall k | j < k < |p| ensures p[k].None? {
              assert p[k] == xs[k];
            }
          }
        }
      }
      if xs[|xs| - 1].None? && LastSet(xs).None? {
        forall i | 0 <= i < |xs| ensures xs[i].None? {
          if i < |xs| - 1 {
            assert p[i] == xs[i];
          }
        }
      }
    }
  }

  function Starts(ps: seq<TimeRange>): seq<Option<int>> {
    seq(|ps|, i requires 0 <= i < |ps| => ps[i].start)
  }

  function Ends(ps: seq<TimeRange>): seq<Option<int>> {
    seq(|ps|, i requires 0 <= i < |ps| => ps[i].end)
  }

  function AsLocalTime(t: Option<int>): Option<LocalTime> {
    if t.Some? then Some(LocalTime(t.value)) else None
  }

  function ActiveStart(ps: seq<TimeRange>): Option<LocalTime> {
    AsLocalTime(LastSet(Starts(ps)))
  }

  function ActiveEnd(ps: seq<TimeRange>): Option<LocalTime> {
    AsLocalTime(LastSet(Ends(ps)))
  }

  /** The route id an informed entity's trip sets, if any. */
  function TripRouteId(sel: EntitySelector): Option<string> {
    if sel.trip.Some? && sel.trip.value.routeId.Some? then sel.trip.value.routeId else None
  }

  /** An informed entity's dictionary: a key for each field that is set, and the
      trip's `route_id` written over a top-level one. */
  function EntityInfo(sel: EntitySelector): (m: Object)
    ensures m.Keys <= {"agency_id", "route_id", "route_type", "stop_id", "trip_id"}
    ensures "agency_id" in m <==> sel.agencyId.Some?
    ensures sel.agencyId.Some? ==> m["agency_id"] == JStr(sel.agencyId.value)
    ensures "route_type" in m <==> sel.routeType.Some?
    ensures sel.routeType.Some? ==> m["route_type"] == JInt(sel.routeType.value)
    ensures "stop_id" in m <==> sel.stopId.Some?
    ensures sel.stopId.Some? ==> m["stop_id"] == JStr(sel.stopId.value)
    ensures "trip_id" in m <==> sel.trip.Some? && sel.trip.value.tripId.Some?
    ensures "trip_id" in m ==> m["trip_id"] == JStr(sel.trip.value.tripId.value)
    ensures "route_id" in m <==> sel.routeId.Some? || TripRouteId(sel).Some?
    ensures TripRouteId(sel).Some? ==> m["route_id"] == JStr(TripRouteId(sel).value)
    ensures TripRouteId(sel).None? && sel.routeId.Some? ==> m["route_id"] == JStr(sel.routeId.value)
  {
    var m0: Object := map[];
    var m1 := if sel.agencyId.Some? then m0["agency_id" := JStr(sel.agencyId.value)] else m0;
    var m2 := if sel.routeId.Some? then m1["route_id" := JStr(sel.routeId.value)] else m1;
    var m3 := if sel.routeType.Some? then m2["route_type" := JInt(sel.routeType.value)] else m2;
    var m4 := if sel.stopId.Some? then m3["stop_id" := JStr(sel.stopId.value)] else m3;
    if sel.trip.None? then m4
    else
      var m5 := if sel.trip.value.tripId.Some? then m4["trip_id" := JStr(sel.trip.value.tripId.value)] else m4;
      if sel.trip.value.routeId.Some? then m5["route_id" := JStr(sel.trip.value.routeId.value)] else m5
  }

  function AlertRecordOf(a: Alert): AlertRecord {
    AlertRecord(
      BlockText(a.headerText), BlockText(a.descriptionText),
      if a.cause.Some? then CauseName(a.cause.value) else "UNKNOWN_CAUSE",
      if a.effect.Some? then EffectName(a.effect.value) else "UNKNOWN_EFFECT",
      ActiveStart(a.activePeriods), ActiveEnd(a.activePeriods),
      seq(|a.informedEntities|, k requires 0 <= k < |a.informedEntities| => EntityInfo(a.informedEntities[k])))
  }

  function AlertRecords(es: seq<FeedEntity>): seq<AlertRecord>
    decreases |es|
  {
    if es == [] then []
    else
      var e := es[|es| - 1];
      AlertRecords(es[..|es| - 1]) + (if e.alert.Some? then [AlertRecordOf(e.alert.value)] else [])
  }

  /** The translation loop of one text block. */
  method FoldTranslations(block: Option<TranslatedString>) returns (text: string)
    ensures text == BlockText(block)
  {
    text := "";
    if block.Some? {
      var ts := block.value.translations;
      for i := 0 to |ts|
        invariant text == FrFold(ts[..i])
      {
        var translation := ts[i];
        assert ts[..i + 1][..i] == ts[..i];
        if translation.language.GetOr("") == "fr" || text == "" {
          text := translation.text.GetOr("");
        }
      }
      assert ts[..|ts|] == ts;
    }
  }

  /** The active-period loop: each period that sets `start` (or `end`) overwrites it. */
  method ActiveTimes(periods: seq<TimeRange>) returns (startTime: Option<LocalTime>, endTime: Option<LocalTime>)
    ensures startTime == ActiveStart(periods)
    ensures endTime == ActiveEnd(periods)
  {
    startTime, endTime := None, None;
    if |periods| > 0 {
      for i := 0 to |periods|
        invariant startTime == AsLocalTime(LastSet(Starts(periods[..i])))
        invariant endTime == AsLocalTime(LastSet(Ends(periods[..i])))
      {
        var period := periods[i];
        assert Starts(periods[..i + 1])[..i] == Starts(periods[..i]);
        assert Starts(periods[..i + 1])[i] == period.start;
        assert Ends(periods[..i + 1])[..i] == Ends(periods[..i]);
        assert Ends(periods[..i + 1])[i] == period.end;
        if period.start.Some? {
          startTime := Some(LocalTime(period.start.value));
        }
        if period.end.Some? {
          endTime := Some(LocalTime(period.end.value));
        }
      }
      assert periods[..|periods|] == periods;
    }
  }

  method AffectedEntities(selectors: seq<EntitySelector>) returns (affected: seq<Object>)
    ensures affected == seq(|selectors|, k requires 0 <= k < |selectors| => EntityInfo(selectors[k]))
  {
    affected := [];
    for i := 0 to |selectors|
      invariant |affected| == i
      invariant forall k :: 0 <= k < i ==> affected[k] == EntityInfo(selectors[k])
    {
      var sel := selectors[i];
      var entityInfo: Object := map[];
      if sel.agencyId.Some? {
        entityInfo := entityInfo["agency_id" := JStr(sel.agencyId.value)];
      }
      if sel.routeId.Some? {
        entityInfo := entityInfo["route_id" := JStr(sel.routeId.value)];
      }
      if sel.routeType.Some? {
        entityInfo := entityInfo["route_type" := JInt(sel.routeType.value)];
      }
      if sel.stopId.Some? {
        entityInfo := entityInfo["stop_id" := JStr(sel.stopId.value)];
      }
      if sel.trip.Some? {
        if sel.trip.value.tripId.Some? {
          entityInfo := entityInfo["trip_id" := JStr(sel.trip.value.tripId.value)];
        }
        if sel.trip.value.routeId.Some? {
          entityInfo := entityInfo["route_id" := JStr(sel.trip.value.routeId.value)];
        }
      }
      affected := affected + [entityInfo];
    }
  }

  method ProcessAlerts(feed: Option<FeedMessage>) returns (r: Option<seq<AlertRecord>>)
    ensures feed.None? ==> r.None?
    ensures feed.Some? ==> r == Some(AlertRecords(feed.value.entities))
  {
    if feed.None? {
      return None;
    }
    var entities := feed.value.entities;
    var alerts: seq<AlertRecord> := [];
    for i := 0 to |entities|
      invariant alerts == AlertRecords(entities[..i])
    {
      var entity := entities[i];
      assert entities[..i + 1][..i] == entities[..i];
      if entity.alert.Some? {
        var alert := entity.alert.value;
        var headerText := FoldTranslations(alert.headerText);
        var descriptionText := FoldTranslations(alert.descriptionText);
        var cause := if alert.cause.Some? then CauseName(alert.cause.value) else "UNKNOWN_CAUSE";
        var effect := if alert.effect.Some? then EffectName(alert.effect.value) else "UNKNOWN_EFFECT";
        var startTime, endTime := ActiveTimes(alert.activePeriods);
        var affectedEntities := AffectedEntities(alert.informedEntities);
        var record := AlertRecord(headerText, descriptionText, cause, effect, startTime, endTime, affectedEntities);
        assert record == AlertRecordOf(alert);
        alerts := alerts + [record];
      }
    }
    assert entities[..|entities|] == entities;
    return Some(alerts);
  }

  /** Exactly one record per alert entity, in feed order. */
  lemma {:induction false} AlertRecordsPerEntity(es: seq<FeedEntity>)
    ensures |AlertRecords(es)| == |AlertEntities(es)|
    ensures forall k :: 0 <= k < |AlertEntities(es)| ==>
      AlertRecords(es)[k] == AlertRecordOf(AlertEntities(es)[k].alert.value)
    decreases |es|
  {
    if es != [] {
      AlertRecordsPerEntity(es[..|es| - 1]);
    }
  }

  /** An alert's start (end) time is that of the last active period setting
      it, and absent exactly when no period sets it. */
  lemma ActiveStartIsLastStart(ps: seq<TimeRange>)
    ensures ActiveStart(ps).None? <==> forall i :: 0 <= i < |ps| ==> ps[i].start.None?
    ensures forall j :: 0 <= j < |ps| && ps[j].start.Some? && (forall k :: j < k < |ps| ==> ps[k].start.None?) ==> ActiveStart(ps) == Some(LocalTime(ps[j].start.value))
  {
    var xs := Starts(ps);
    LastSetIsLastIndex(xs);
    assert forall i :: 0 <= i < |ps| ==> xs[i] == ps[i].start;
  }

  lemma ActiveEndIsLastEnd(ps: seq<TimeRange>)
    ensures ActiveEnd(ps).None? <==> forall i :: 0 <= i < |ps| ==> ps[i].end.None?
    ensures forall j :: 0 <= j < |ps| && ps[j].end.Some? && (forall k :: j < k < |ps| ==> ps[k].end.None?) ==> ActiveEnd(ps) == Some(LocalTime(ps[j].end.value))
  {
    var xs := Ends(ps);
    LastSetIsLastIndex(xs);
    assert forall i :: 0 <= i < |ps| ==> xs[i] == ps[i].end;
  }

  /** The French text is preferred: English "Delay" then French "Retard" gives "Retard". */
  lemma FrenchPreferredExample()
    ensures FrFold([Translation(Some("Delay"), Some("en")), Translation(Some("Retard"), Some("fr"))]) == "Retard"
  {
    var ts := [Translation(Some("Delay"), Some("en")), Translation(Some("Retard"), Some("fr"))];
    assert ts[..1] == [ts[0]];
    assert ts[..1][..0] == [];
  }
}
