/** A decoded GTFS Realtime feed (FeedMessage -> FeedEntity -> TripUpdate /
    VehiclePosition / Alert) as the protobuf library hands it to the
    normalisers. Every proto2 `optional` field is an `Option`, so each
    `HasField` test is a `Some?` test and each unguarded read of an unset
    scalar is `GetOr` of the proto2 default (`""` for strings, `0` for numbers). */
module Feed {
  import opened Wrappers

  /** The text `datetime.fromtimestamp(epoch).strftime('%Y-%m-%d %H:%M:%S')`
      renders for a POSIX time. Its characters depend on the host's time zone,
      so the model keeps the instant it is rendered from. */
  datatype LocalTime = LocalTime(epoch: int)

  datatype TripDescriptor = TripDescriptor(tripId: Option<string>, routeId: Option<string>)

  datatype StopTimeEvent = StopTimeEvent(delay: Option<int>, time: Option<int>)

  datatype StopTimeUpdate = StopTimeUpdate(
    stopId: Option<string>,
    arrival: Option<StopTimeEvent>,
    departure: Option<StopTimeEvent>)

  /** `trip` is a required field of TripUpdate, so it is always there. */
  datatype TripUpdate = TripUpdate(trip: TripDescriptor, stopTimeUpdates: seq<StopTimeUpdate>)

  datatype VehicleDescriptor = VehicleDescriptor(id: Option<string>)

  /** Coordinates, bearing and speed are floats; the model passes them through as reals. */
  datatype Position = Position(
    latitude: Option<real>,
    longitude: Option<real>,
    bearing: Option<real>,
    speed: Option<real>)

  datatype VehicleStopStatus = IncomingAt | StoppedAt | InTransitTo

  datatype VehiclePosition = VehiclePosition(
    trip: Option<TripDescriptor>,
    vehicle: Option<VehicleDescriptor>,
    position: Option<Position>,
    currentStatus: Option<VehicleStopStatus>,
    timestamp: Option<int>)

  datatype Translation = Translation(text: Option<string>, language: Option<string>)

  datatype TranslatedString = TranslatedString(translations: seq<Translation>)

  datatype TimeRange = TimeRange(start: Option<int>, end: Option<int>)

  datatype EntitySelector = EntitySelector(
    agencyId: Option<string>,
    routeId: Option<string>,
    routeType: Option<int>,
    trip: Option<TripDescriptor>,
    stopId: Option<string>)

  datatype Cause =
    | UnknownCause | OtherCause | TechnicalProblem | Strike | Demonstration | Accident
    | Holiday | Weather | Maintenance | Construction | PoliceActivity | MedicalEmergency

  datatype Effect =
    | NoService | ReducedService | SignificantDelays | Detour | AdditionalService
    | ModifiedService | OtherEffect | UnknownEffect | StopMoved | NoEffect | AccessibilityIssue

  datatype Alert = Alert(
    activePeriods: seq<TimeRange>,
    informedEntities: seq<EntitySelector>,
    cause: Option<Cause>,
    effect: Option<Effect>,
    headerText: Option<TranslatedString>,
    descriptionText: Option<TranslatedString>)

  /** A feed entity may carry any of the three payloads; the normalisers test each one. */
  datatype FeedEntity = FeedEntity(
    id: string,
    tripUpdate: Option<TripUpdate>,
    vehicle: Option<VehiclePosition>,
    alert: Option<Alert>)

  datatype FeedHeader = FeedHeader(version: string, timestamp: Option<int>)

  datatype FeedMessage = FeedMessage(header: FeedHeader, entities: seq<FeedEntity>)

  /** `VehicleStopStatus.Name`: the enum value's identifier in gtfs-realtime.proto. */
  function StatusName(s: VehicleStopStatus): string {
    match s
    case IncomingAt => "INCOMING_AT"
    case StoppedAt => "STOPPED_AT"
    case InTransitTo => "IN_TRANSIT_TO"
  }

  /** The wire number of the enum value. */
  function StatusNumber(s: VehicleStopStatus): int {
    match s
    case IncomingAt => 0
    case StoppedAt => 1
    case InTransitTo => 2
  }

  function CauseName(c: Cause): string {
    match c
    case UnknownCause => "UNKNOWN_CAUSE"
    case OtherCause => "OTHER_CAUSE"
    case TechnicalProblem => "TECHNICAL_PROBLEM"
    case Strike => "STRIKE"
    case Demonstration => "DEMONSTRATION"
    case Accident => "ACCIDENT"
    case Holiday => "HOLIDAY"
    case Weather => "WEATHER"
    case Maintenance => "MAINTENANCE"
    case Construction => "CONSTRUCTION"
    case PoliceActivity => "POLICE_ACTIVITY"
    case MedicalEmergency => "MEDICAL_EMERGENCY"
  }

  function CauseNumber(c: Cause): int {
    match c
    case UnknownCause => 1
    case OtherCause => 2
    case TechnicalProblem => 3
    case Strike => 4
    case Demonstration => 5
    case Accident => 6
    case Holiday => 7
    case Weather => 8
    case Maintenance => 9
    case Construction => 10
    case PoliceActivity => 11
    case MedicalEmergency => 12
  }

  function EffectName(e: Effect): string {
    match e
    case NoService => "NO_SERVICE"
    case ReducedService => "REDUCED_SERVICE"
    case SignificantDelays => "SIGNIFICANT_DELAYS"
    case Detour => "DETOUR"
    case AdditionalService => "ADDITIONAL_SERVICE"
    case ModifiedService => "MODIFIED_SERVICE"
    case OtherEffect => "OTHER_EFFECT"
    case UnknownEffect => "UNKNOWN_EFFECT"
    case StopMoved => "STOP_MOVED"
    case NoEffect => "NO_EFFECT"
    case AccessibilityIssue => "ACCESSIBILITY_ISSUE"
  }

  function EffectNumber(e: Effect): int {
    match e
    case NoService => 1
    case ReducedService => 2
    case SignificantDelays => 3
    case Detour => 4
    case AdditionalService => 5
    case ModifiedService => 6
    case OtherEffect => 7
    case UnknownEffect => 8
    case StopMoved => 9
    case NoEffect => 10
    case AccessibilityIssue => 11
  }

  /** The number of stop-time updates over all trip-update entities. */
  function StopTimeUpdateCount(es: seq<FeedEntity>): nat
    decreases |es|
  {
    if es == [] then 0
    else
      var e := es[|es| - 1];
      StopTimeUpdateCount(es[..|es| - 1]) + (if e.tripUpdate.Some? then |e.tripUpdate.value.stopTimeUpdates| else 0)
  }

  /** The entities that carry a vehicle position, in feed order. */
  function VehicleEntities(es: seq<FeedEntity>): (r: seq<FeedEntity>)
    ensures forall i :: 0 <= i < |r| ==> r[i].vehicle.Some?
    decreases |es|
  {
    if es == [] then []
    else
      var e := es[|es| - 1];
      VehicleEntities(es[..|es| - 1]) + (if e.vehicle.Some? then [e] else [])
  }

  /** The entities that carry an alert, in feed order. */
  function AlertEntities(es: seq<FeedEntity>): (r: seq<FeedEntity>)
    ensures forall i :: 0 <= i < |r| ==> r[i].alert.Some?
    decreases |es|
  {
    if es == [] then []
    else
      var e := es[|es| - 1];
      AlertEntities(es[..|es| - 1]) + (if e.alert.Some? then [e] else [])
  }
}
