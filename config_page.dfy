/** The decision logic of the configuration page static/js/config.js: the
    checks the add and edit forms make before sending a request, the payload
    they send, and the line shown for each feed after a URL test. */
module ConfigPage {
  import opened Wrappers
  import opened Json
  import ConfigManager
  import ConfigRoutes
  import AppConfigApi

  /** The fields of the add or edit form; an empty input reads as "". */
  datatype SourceForm = SourceForm(
    name: string,
    useLocalFiles: bool,
    tripUpdateUrl: string,
    vehiclePositionUrl: string,
    alertUrl: string)

  const NameMissing: string := "Veuillez saisir un nom pour la source."
  const UrlMissing: string := "Veuillez saisir au moins une URL ou utiliser des fichiers locaux."
  const NothingToTest: string := "Veuillez saisir au moins une URL à tester."

  /** A warning shown instead of a request, or the source object sent. */
  datatype Submission = Rejected(message: string) | Submit(source: ConfigManager.Source)

  /** The form input behind a URL key. */
  function FormUrl(form: SourceForm, key: string): string
    requires key in AppConfigApi.UrlKeys
  {
    if key == "trip_update_url" then form.tripUpdateUrl
    else if key == "vehicle_position_url" then form.vehiclePositionUrl
    else form.alertUrl
  }

  predicate HasSomeUrl(form: SourceForm) {
    form.tripUpdateUrl != "" || form.vehiclePositionUrl != "" || form.alertUrl != ""
  }

  /** The checks and payload shared by `saveNewSource` and `updateSource`:
      a name is required; without local files at least one URL is; with local
      files the URL inputs are not read and "" is sent for each. */
  function SourceFromForm(form: SourceForm): (r: Submission)
    ensures form.name == "" ==> r == Rejected(NameMissing)
    ensures form.name != "" && !form.useLocalFiles && !HasSomeUrl(form) ==> r == Rejected(UrlMissing)
    ensures r.Submit? <==> form.name != "" && (form.useLocalFiles || HasSomeUrl(form))
    ensures r.Submit? ==> r.source.Keys == AppConfigApi.UrlKeys + {"name", "use_local_files"}
    ensures r.Submit? ==> r.source["name"] == JStr(form.name) && r.source["use_local_files"] == JBool(form.useLocalFiles)
    ensures r.Submit? ==> forall k :: k in AppConfigApi.UrlKeys ==> r.source[k] == JStr(if form.useLocalFiles then "" else FormUrl(form, k))
  {
    if form.name == "" then Rejected(NameMissing)
    else
      var trip := if form.useLocalFiles then "" else form.tripUpdateUrl;
      var vehicle := if form.useLocalFiles then "" else form.vehiclePositionUrl;
      var alert := if form.useLocalFiles then "" else form.alertUrl;
      if !form.useLocalFiles && trip == "" && vehicle == "" && alert == "" then Rejected(UrlMissing)
      else
        Submit(map[
          "name" := JStr(form.name),
          "use_local_files" := JBool(form.useLocalFiles),
          "trip_update_url" := JStr(trip),
          "vehicle_position_url" := JStr(vehicle),
          "alert_url" := JStr(alert)])
  }

  /** A source the page sends passes the name check of both add handlers. */
  lemma SubmittedSourceHasName(form: SourceForm)
    requires SourceFromForm(form).Submit?
    ensures ConfigRoutes.ValidateSource(SourceFromForm(form).source).None?
    ensures "name" in SourceFromForm(form).source && Truthy(SourceFromForm(form).source["name"])
  {
  }

  /** The edit form's request body: `Number.parseInt` of the hidden index
      (`None` for NaN, which travels as JSON null) and the source. */
  datatype UpdateSubmission = UpdateRejected(message: string) | SubmitUpdate(index: Json, source: ConfigManager.Source)

  function UpdateFromForm(form: SourceForm, index: Option<int>): (r: UpdateSubmission)
    ensures r.UpdateRejected? <==> SourceFromForm(form).Rejected?
    ensures r.UpdateRejected? ==> r.message == SourceFromForm(form).message
    ensures r.SubmitUpdate? ==> r.source == SourceFromForm(form).source
    ensures r.SubmitUpdate? ==> r.index == (if index.Some? then JInt(index.value) else JNull)
  {
    match SourceFromForm(form)
    case Rejected(message) => UpdateRejected(message)
    case Submit(source) => SubmitUpdate(if index.Some? then JInt(index.value) else JNull, source)
  }

  /** What app.py answers to an update the page sends: the index is the only
      check left, a NaN index raising inside the handler. */
  lemma UpdateReachesIndexCheck(form: SourceForm, index: Option<int>, count: nat)
    requires UpdateFromForm(form, index).SubmitUpdate?
    ensures var u := UpdateFromForm(form, index);
      AppConfigApi.ValidateUpdate(AppConfigApi.UpdateRequest(Some(u.index), Some(u.source)), count) ==
        if index.None? then Some(AppConfigApi.RaisedReply)
        else if 0 <= index.value < count then None
        else Some(AppConfigApi.Rejected("Invalid source index"))
  {
  }

  /** `testUrls` and `testEditUrls`: at least one URL, then a body with the three URLs only. */
  function TestRequest(tripUpdateUrl: string, vehiclePositionUrl: string, alertUrl: string): (r: Submission)
    ensures r.Rejected? <==> tripUpdateUrl == "" && vehiclePositionUrl == "" && alertUrl == ""
    ensures r.Rejected? ==> r.message == NothingToTest
    ensures r.Submit? ==> r.source == map[
      "trip_update_url" := JStr(tripUpdateUrl),
      "vehicle_position_url" := JStr(vehiclePositionUrl),
      "alert_url" := JStr(alertUrl)]
  {
    if tripUpdateUrl == "" && vehiclePositionUrl == "" && alertUrl == "" then Rejected(NothingToTest)
    else Submit(map[
      "trip_update_url" := JStr(tripUpdateUrl),
      "vehicle_position_url" := JStr(vehiclePositionUrl),
      "alert_url" := JStr(alertUrl)])
  }

  /** app.py tests exactly the non-empty URLs of such a body, and at least one. */
  lemma TestRequestTestsGivenUrls(tripUpdateUrl: string, vehiclePositionUrl: string, alertUrl: string)
    requires TestRequest(tripUpdateUrl, vehiclePositionUrl, alertUrl).Submit?
    ensures var body := TestRequest(tripUpdateUrl, vehiclePositionUrl, alertUrl).source;
      !AppConfigApi.UsesLocalFiles(body)
      && (AppConfigApi.Tests(body, "trip_update") <==> tripUpdateUrl != "")
      && (AppConfigApi.Tests(body, "vehicle_position") <==> vehiclePositionUrl != "")
      && (AppConfigApi.Tests(body, "alert") <==> alertUrl != "")
      && exists f :: f in ConfigRoutes.FeedTypes && AppConfigApi.Tests(body, f)
  {
    var body := TestRequest(tripUpdateUrl, vehiclePositionUrl, alertUrl).source;
    assert ConfigRoutes.UrlKey("trip_update") == "trip_update_url";
    assert ConfigRoutes.UrlKey("vehicle_position") == "vehicle_position_url";
    assert ConfigRoutes.UrlKey("alert") == "alert_url";
    if tripUpdateUrl != "" {
      assert AppConfigApi.Tests(body, ConfigRoutes.FeedTypes[0]);
    } else if vehiclePositionUrl != "" {
      assert AppConfigApi.Tests(body, ConfigRoutes.FeedTypes[1]);
    } else {
      assert AppConfigApi.Tests(body, ConfigRoutes.FeedTypes[2]);
    }
  }

  // ----- Test results -----

  /** A JavaScript value read from the answer; a missing member is `Undefined`. */
  datatype JsValue = Undefined | Null | Bool(b: bool) | Num(n: int) | Str(s: string)

  predicate JsTruthy(v: JsValue) {
    match v
    case Undefined => false
    case Null => false
    case Bool(b) => b
    case Num(n) => n != 0
    case Str(s) => s != ""
  }

  /** Template-literal interpolation `${v}`. */
  function Show(v: JsValue): string {
    match v
    case Undefined => "undefined"
    case Null => "null"
    case Bool(b) => if b then "true" else "false"
    case Num(n) => IntToString(n)
    case Str(s) => s
  }

  /** `result.success`, `result.status_code` and `result.error` of one feed's entry. */
  datatype TestResult = TestResult(success: JsValue, statusCode: JsValue, error: JsValue)

  /** The label of a feed type; an unknown one looks up `undefined`. */
  function FeedTypeLabel(feedType: string): (r: string)
    ensures feedType == "trip_update" ==> r == "TripUpdate"
    ensures feedType == "vehicle_position" ==> r == "VehiclePosition"
    ensures feedType == "alert" ==> r == "Alert"
    ensures r == "undefined" <==> feedType !in {"trip_update", "vehicle_position", "alert"}
  {
    if feedType == "trip_update" then "TripUpdate"
    else if feedType == "vehicle_position" then "VehiclePosition"
    else if feedType == "alert" then "Alert"
    else "undefined"
  }

  /** One line of the result list. */
  datatype ResultItem = ResultItem(feedLabel: string, statusClass: string, message: string)

  /** The line of one feed: `success === true` gives the status code,
      `success === false` the error, else the status code, else "Échec"; any
      other value "Statut inconnu". */
  function ResultLine(feedType: string, r: TestResult): (item: ResultItem)
    ensures item.feedLabel == FeedTypeLabel(feedType)
    ensures r.success == Bool(true) ==> item.statusClass == "test-success" && item.message == "Code: " + Show(r.statusCode) + " (OK)"
    ensures r.success == Bool(false) ==> item.statusClass == "test-error"
    ensures r.success == Bool(false) && JsTruthy(r.error) ==> item.message == "Erreur: " + Show(r.error)
    ensures r.success == Bool(false) && !JsTruthy(r.error) && JsTruthy(r.statusCode) ==> item.message == "Code: " + Show(r.statusCode) + " (Erreur)"
    ensures r.success == Bool(false) && !JsTruthy(r.error) && !JsTruthy(r.statusCode) ==> item.message == "Échec"
    ensures !r.success.Bool? ==> item.statusClass == "test-neutral" && item.message == "Statut inconnu"
  {
    var feedLabel := FeedTypeLabel(feedType);
    if r.success == Bool(true) then ResultItem(feedLabel, "test-success", "Code: " + Show(r.statusCode) + " (OK)")
    else if r.success == Bool(false) then
      ResultItem(feedLabel, "test-error",
        if JsTruthy(r.error) then "Erreur: " + Show(r.error)
        else if JsTruthy(r.statusCode) then "Code: " + Show(r.statusCode) + " (Erreur)"
        else "Échec")
    else ResultItem(feedLabel, "test-neutral", "Statut inconnu")
  }

  /** `displayTestResults`: one line per feed, in the order of the answer's keys. */
  method DisplayTestResults(results: seq<(string, TestResult)>) returns (items: seq<ResultItem>)
    ensures |items| == |results|
    ensures forall k :: 0 <= k < |items| ==> items[k] == ResultLine(results[k].0, results[k].1)
  {
    items := [];
    for i := 0 to |results|
      invariant |items| == i
      invariant forall k :: 0 <= k < i ==> items[k] == ResultLine(results[k].0, results[k].1)
    {
      var (feedType, result) := results[i];
      var statusClass := "test-neutral";
      var statusMessage := "Statut inconnu";
      if result.success == Bool(true) {
        statusClass := "test-success";
        statusMessage := "Code: " + Show(result.statusCode) + " (OK)";
      } else if result.success == Bool(false) {
        statusClass := "test-error";
        statusMessage :=
          if JsTruthy(result.error) then "Erreur: " + Show(result.error)
          else if JsTruthy(result.statusCode) then "Code: " + Show(result.statusCode) + " (Erreur)"
          else "Échec";
      }
      var item := ResultItem(FeedTypeLabel(feedType), statusClass, statusMessage);
      assert item == ResultLine(feedType, result);
      items := items + [item];
    }
  }

  /** An app.py result as the page reads it. */
  function FromAppOutcome(t: AppConfigApi.TestOutcome): TestResult {
    match t
    case Tested(success, code) => TestResult(Bool(success), Num(code), Undefined)
    case Errored(message) => TestResult(Bool(false), Undefined, Str(message))
  }

  /** A config_routes.py result, a bare boolean, as the page reads it: it has no members. */
  function FromRouteOutcome(passed: bool): TestResult {
    TestResult(Undefined, Undefined, Undefined)
  }

  /** Every app.py outcome is shown as success or error, never as unknown:
      an answered request shows its status code, a failed one its error. */
  lemma AppOutcomesAreShown(f: ConfigRoutes.Fetch)
    ensures FromAppOutcome(AppConfigApi.OutcomeOf(f)).success.Bool?
    ensures f.Responded? ==> FromAppOutcome(AppConfigApi.OutcomeOf(f)) == TestResult(Bool(f.statusCode == 200), Num(f.statusCode), Undefined)
    ensures f.Raised? ==> FromAppOutcome(AppConfigApi.OutcomeOf(f)) == TestResult(Bool(false), Undefined, Str(f.message))
  {
  }

  /** The boolean answers of config_routes.py always show as "Statut inconnu". */
  lemma RouteOutcomesAreUnknown(passed: bool)
    ensures !FromRouteOutcome(passed).success.Bool?
  {
  }
}
