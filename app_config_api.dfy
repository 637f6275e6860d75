/** The configuration handlers of app.py (`/api/config/add-source`,
    `update-source`, `remove-source`, `set-current-source`, `test-source`).
    They change the loaded configuration themselves rather than calling the
    configuration manager, answer `{success, error}` objects, and turn any
    exception into a 400 answer. */
module AppConfigApi {
  import opened Wrappers
  import opened Json
  import opened ConfigManager
  import ConfigRoutes

  /** An error text: a fixed message, or the text of a caught exception (not modelled). */
  datatype AppError = Message(text: string) | ExceptionText

  datatype AppReply = AppReply(code: int, success: bool, error: Option<AppError>, index: Option<int>)

  function Rejected(message: string): AppReply {
    AppReply(400, false, Some(Message(message)), None)
  }

  /** The answer of the handler's `except` branch. */
  const RaisedReply: AppReply := AppReply(400, false, Some(ExceptionText), None)

  /** How Python uses a JSON index in `<`, `>=` and subscripts: an integer as
      itself, a boolean as 0 or 1; anything else raises `TypeError`. */
  function IndexValue(j: Json): (r: Option<int>)
    ensures j.JInt? ==> r == Some(j.i)
    ensures j.JBool? ==> r == Some(if j.b then 1 else 0)
    ensures (j.JNull? || j.JStr?) ==> r.None?
  {
    match j
    case JInt(i) => Some(i)
    case JBool(b) => Some(if b then 1 else 0)
    case _ => None
  }

  const UrlKeys: set<string> := {"trip_update_url", "vehicle_position_url", "alert_url"}

  /** app.py's defaults for a new source: the three URLs empty and
      `use_local_files` false; `active` is not added. */
  function AppDefaults(source: Source): (r: Source)
    ensures r.Keys == source.Keys + UrlKeys + {"use_local_files"}
    ensures forall k :: k in source ==> r[k] == source[k]
    ensures forall k :: k in UrlKeys && k !in source ==> r[k] == JStr("")
    ensures "use_local_files" !in source ==> r["use_local_files"] == JBool(false)
  {
    var s1 := if "trip_update_url" in source then source else source["trip_update_url" := JStr("")];
    var s2 := if "vehicle_position_url" in s1 then s1 else s1["vehicle_position_url" := JStr("")];
    var s3 := if "alert_url" in s2 then s2 else s2["alert_url" := JStr("")];
    if "use_local_files" in s3 then s3 else s3["use_local_files" := JBool(false)]
  }

  /** The two add routes disagree on a source that leaves `use_local_files`
      out: app.py stores false, config_routes.py true; and only the latter adds `active`. */
  lemma AddDefaultsDisagree(source: Source)
    requires "use_local_files" !in source && "active" !in source
    ensures AppDefaults(source)["use_local_files"] == JBool(false)
    ensures "active" !in AppDefaults(source)
    ensures var filled := ConfigRoutes.WithDefaults(source, ConfigRoutes.Defaults);
      "use_local_files" in filled && filled["use_local_files"] == JBool(true) && "active" in filled
  {
    ConfigRoutes.FilledSourceHasAllKeys(source);
  }

  method AppAddSource(store: ConfigStore, source: Source, saved: bool) returns (reply: AppReply)
    modifies store
    ensures "name" !in source ==> reply == Rejected("Missing source name") && store.State() == old(store.State())
    ensures "name" in source ==> store.State() == Add(old(store.State()), AppDefaults(source), saved).config
    ensures "name" in source ==> reply == AppReply(200, saved, None, Some(if saved then |old(store.sources)| else -1))
  {
    if "name" !in source {
      return Rejected("Missing source name");
    }
    var s := source;
    if "trip_update_url" !in s {
      s := s["trip_update_url" := JStr("")];
    }
    if "vehicle_position_url" !in s {
      s := s["vehicle_position_url" := JStr("")];
    }
    if "alert_url" !in s {
      s := s["alert_url" := JStr("")];
    }
    if "use_local_files" !in s {
      s := s["use_local_files" := JBool(false)];
    }
    var working := store.sources + [s];
    if saved {
      store.sources := working;
    }
    return AppReply(200, saved, None, Some(if saved then |working| - 1 else -1));
  }

  /** The `index` and `source` members of an update request (`None`: key missing). */
  datatype UpdateRequest = UpdateRequest(index: Option<Json>, source: Option<Source>)

  /** The checks of `api_config_update_source`, in the order the handler makes them. */
  function ValidateUpdate(request: UpdateRequest, count: nat): (r: Option<AppReply>)
    ensures r.None? <==> request.index.Some? && request.source.Some? && "name" in request.source.value
                         && IndexValue(request.index.value).Some? && 0 <= IndexValue(request.index.value).value < count
    ensures request.index.None? ==> r == Some(Rejected("Missing source index"))
    ensures request.index.Some? && request.source.None? ==> r == Some(Rejected("Missing source data"))
    ensures request.index.Some? && request.source.Some? && "name" !in request.source.value ==> r == Some(Rejected("Missing source name"))
    ensures r.Some? ==> r.value.code == 400 && !r.value.success
  {
    if request.index.None? then Some(Rejected("Missing source index"))
    else if request.source.None? then Some(Rejected("Missing source data"))
    else if "name" !in request.source.value then Some(Rejected("Missing source name"))
    else if IndexValue(request.index.value).None? then Some(RaisedReply)
    else
      var i := IndexValue(request.index.value).value;
      if i < 0 || i >= count then Some(Rejected("Invalid source index")) else None
  }

  method AppUpdateSource(store: ConfigStore, request: UpdateRequest, saved: bool) returns (reply: AppReply)
    modifies store
    ensures ValidateUpdate(request, |old(store.sources)|).Some? ==>
              reply == ValidateUpdate(request, |old(store.sources)|).value && store.State() == old(store.State())
    ensures ValidateUpdate(request, |old(store.sources)|).None? ==>
              reply == AppReply(200, saved, None, None)
              && store.State() == Update(old(store.State()), IndexValue(request.index.value).value, request.source.value, saved).config
  {
    var invalid := ValidateUpdate(request, |store.sources|);
    if invalid.Some? {
      return invalid.value;
    }
    var index := IndexValue(request.index.value).value;
    var working := store.sources[index := request.source.value];
    if saved {
      store.sources := working;
    }
    return AppReply(200, saved, None, None);
  }

  /** The checks of the remove and set-current handlers on the request's `index`. */
  function ValidateIndexRequest(index: Option<Json>, count: nat): (r: Option<AppReply>)
    ensures r.None? <==> index.Some? && IndexValue(index.value).Some? && 0 <= IndexValue(index.value).value < count
    ensures index.None? ==> r == Some(Rejected("Missing source index"))
    ensures index.Some? && IndexValue(index.value).None? ==> r == Some(RaisedReply)
    ensures index.Some? && IndexValue(index.value).Some? && !(0 <= IndexValue(index.value).value < count) ==>
              r == Some(Rejected("Invalid source index"))
  {
    if index.None? then Some(Rejected("Missing source index"))
    else if IndexValue(index.value).None? then Some(RaisedReply)
    else
      var i := IndexValue(index.value).value;
      if i < 0 || i >= count then Some(Rejected("Invalid source index")) else None
  }

  /** Remove: same deletion and clamp as the configuration manager, and, unlike
      config_routes.py, the last source may be removed. */
  method AppRemoveSource(store: ConfigStore, index: Option<Json>, saved: bool) returns (reply: AppReply)
    modifies store
    ensures ValidateIndexRequest(index, |old(store.sources)|).Some? ==>
              reply == ValidateIndexRequest(index, |old(store.sources)|).value && store.State() == old(store.State())
    ensures ValidateIndexRequest(index, |old(store.sources)|).None? ==>
              reply == AppReply(200, saved, None, None)
              && store.State() == Remove(old(store.State()), IndexValue(index.value).value, saved).config
  {
    var invalid := ValidateIndexRequest(index, |store.sources|);
    if invalid.Some? {
      return invalid.value;
    }
    var i := IndexValue(index.value).value;
    var working := store.sources[..i] + store.sources[i + 1..];
    var current := store.currentSource;
    if current >= |working| {
      current := if |working| > 0 then |working| - 1 else 0;
    }
    if saved {
      store.sources, store.currentSource := working, current;
    }
    return AppReply(200, saved, None, None);
  }

  method AppSetCurrentSource(store: ConfigStore, index: Option<Json>, saved: bool) returns (reply: AppReply)
    modifies store
    ensures ValidateIndexRequest(index, |old(store.sources)|).Some? ==>
              reply == ValidateIndexRequest(index, |old(store.sources)|).value && store.State() == old(store.State())
    ensures ValidateIndexRequest(index, |old(store.sources)|).None? ==>
              reply == AppReply(200, saved, None, None)
              && store.State() == SetCurrent(old(store.State()), IndexValue(index.value).value, saved).config
  {
    var invalid := ValidateIndexRequest(index, |store.sources|);
    if invalid.Some? {
      return invalid.value;
    }
    var i := IndexValue(index.value).value;
    if saved {
      store.currentSource := i;
    }
    return AppReply(200, saved, None, None);
  }

  /** One feed's entry in app.py's test results. */
  datatype TestOutcome = Tested(success: bool, statusCode: int) | Errored(error: string)

  function OutcomeOf(f: ConfigRoutes.Fetch): (t: TestOutcome)
    ensures f.Responded? ==> t.Tested? && (t.success <==> f.statusCode == 200) && t.statusCode == f.statusCode
    ensures f.Raised? ==> t == Errored(f.message)
  {
    match f
    case Responded(code) => Tested(code == 200, code)
    case Raised(message) => Errored(message)
  }

  /** `source.get('use_local_files', False)` taken as a condition. */
  predicate UsesLocalFiles(source: Source) {
    "use_local_files" in source && Truthy(source["use_local_files"])
  }

  /** A feed is tested when its URL key is present and truthy. */
  predicate Tests(source: Source, feedType: string) {
    ConfigRoutes.UrlKey(feedType) in source && Truthy(source[ConfigRoutes.UrlKey(feedType)])
  }

  /** app.py's test-source: nothing for a local-files source; otherwise one
      entry per feed whose URL is given, and none for the others. */
  method AppTestSource(source: Source, fetch: Json -> ConfigRoutes.Fetch) returns (results: map<string, TestOutcome>)
    ensures UsesLocalFiles(source) ==> results == map[]
    ensures !UsesLocalFiles(source) ==> forall f :: f in results <==> f in ConfigRoutes.FeedTypes && Tests(source, f)
    ensures forall f :: f in results ==> Tests(source, f) && results[f] == OutcomeOf(fetch(source[ConfigRoutes.UrlKey(f)]))
  {
    results := map[];
    var useLocal := if "use_local_files" in source then source["use_local_files"] else JBool(false);
    if !Truthy(useLocal) {
      var feedTypes := ConfigRoutes.FeedTypes;
      for i := 0 to |feedTypes|
        invariant forall f :: f in results <==> f in feedTypes[..i] && Tests(source, f)
        invariant forall f :: f in results ==> Tests(source, f) && results[f] == OutcomeOf(fetch(source[ConfigRoutes.UrlKey(f)]))
      {
        var feedType := feedTypes[i];
        var urlKey := feedType + "_url";
        assert feedTypes[..i + 1] == feedTypes[..i] + [feedType];
        if urlKey in source && Truthy(source[urlKey]) {
          var response := fetch(source[urlKey]);
          match response {
            case Responded(code) =>
              results := results[feedType := Tested(code == 200, code)];
            case Raised(message) =>
              results := results[feedType := Errored(message)];
          }
        }
      }
      assert feedTypes[..|feedTypes|] == feedTypes;
    }
  }
}
