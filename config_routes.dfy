/** The request validation and default-filling of the configuration routes
    in app/api/config_routes.py, over a `ConfigManager.ConfigStore`. */
module ConfigRoutes {
  import opened Wrappers
  import opened Json
  import opened ConfigManager

  /** A route's answer: 200 with the echoed source or index, or an error code and message. */
  datatype Reply = Success(source: Option<Source>, currentSource: Option<int>) | Failure(code: int, message: string)

  /** What `requests.get(url)` does with a URL: answer with a status code, or raise. */
  datatype Fetch = Responded(statusCode: int) | Raised(message: string)

  /** The defaults of `api_config_add_source`, in the order the loop visits them. */
  const Defaults: seq<(string, Json)> := [
    ("active", JBool(true)),
    ("trip_update_url", JStr("")),
    ("vehicle_position_url", JStr("")),
    ("alert_url", JStr("")),
    ("use_local_files", JBool(true))]

  /** The source with each default written in only where its key is missing. */
  function WithDefaults(source: Source, defaults: seq<(string, Json)>): Source
    decreases |defaults|
  {
    if defaults == [] then source
    else
      var d := defaults[|defaults| - 1];
      var s := WithDefaults(source, defaults[..|defaults| - 1]);
      if d.0 in s then s else s[d.0 := d.1]
  }

  predicate DistinctKeys(defaults: seq<(string, Json)>) {
    forall i, j :: 0 <= i < j < |defaults| ==> defaults[i].0 != defaults[j].0
  }

  /** A key already present keeps its value. */
  lemma {:induction false} DefaultsKeepPresent(source: Source, defaults: seq<(string, Json)>, k: string)
    requires k in source
    ensures k in WithDefaults(source, defaults) && WithDefaults(source, defaults)[k] == source[k]
    decreases |defaults|
  {
    if defaults != [] {
      DefaultsKeepPresent(source, defaults[..|defaults| - 1], k);
    }
  }

  /** A missing default key gets its default value. */
  lemma {:induction false} DefaultsFillMissing(source: Source, defaults: seq<(string, Json)>, i: nat)
    requires DistinctKeys(defaults)
    requires i < |defaults| && defaults[i].0 !in source
    ensures defaults[i].0 in WithDefaults(source, defaults)
    ensures WithDefaults(source, defaults)[defaults[i].0] == defaults[i].1
    decreases |defaults|
  {
    var p := defaults[..|defaults| - 1];
    assert DistinctKeys(p);
    if i < |p| {
      assert p[i] == defaults[i];
      DefaultsFillMissing(source, p, i);
    } else {
      var k := defaults[i].0;
      if k in WithDefaults(source, p) {
        var j := DefaultsOnlyKnownKeys(source, p, k);
      }
    }
  }

  /** Every key of the result was in the source or is a default key. */
  lemma {:induction false} DefaultsOnlyKnownKeys(source: Source, defaults: seq<(string, Json)>, k: string) returns (i: nat)
    requires k in WithDefaults(source, defaults) && k !in source
    ensures i < |defaults| && defaults[i].0 == k
    decreases |defaults|
  {
    var p := defaults[..|defaults| - 1];
    if k in WithDefaults(source, p) {
      i := DefaultsOnlyKnownKeys(source, p, k);
      assert defaults[i] == p[i];
    } else {
      i := |defaults| - 1;
    }
  }

  /** A source that already has every default key is left as it is. */
  lemma {:induction false} DefaultsOnCompleteSource(source: Source, defaults: seq<(string, Json)>)
    requires forall i :: 0 <= i < |defaults| ==> defaults[i].0 in source
    ensures WithDefaults(source, defaults) == source
    decreases |defaults|
  {
    if defaults != [] {
      var p := defaults[..|defaults| - 1];
      assert forall i :: 0 <= i < |p| ==> p[i].0 in source by {
        forall i | 0 <= i < |p| ensures p[i].0 in source {
          assert p[i] == defaults[i];
        }
      }
      DefaultsOnCompleteSource(source, p);
    }
  }

  /** Filling twice adds nothing more. */
  lemma WithDefaultsIdempotent(source: Source, defaults: seq<(string, Json)>)
    requires DistinctKeys(defaults)
    ensures WithDefaults(WithDefaults(source, defaults), defaults) == WithDefaults(source, defaults)
  {
    var once := WithDefaults(source, defaults);
    forall i | 0 <= i < |defaults| ensures defaults[i].0 in once {
      if defaults[i].0 in source {
        DefaultsKeepPresent(source, defaults, defaults[i].0);
      } else {
        DefaultsFillMissing(source, defaults, i);
      }
    }
    DefaultsOnCompleteSource(once, defaults);
  }

  /** The default-filling loop, which writes into the request's own dictionary. */
  method ApplyDefaults(source: Source) returns (filled: Source)
    ensures filled == WithDefaults(source, Defaults)
  {
    filled := source;
    for i := 0 to |Defaults|
      invariant filled == WithDefaults(source, Defaults[..i])
    {
      var (key, value) := Defaults[i];
      assert Defaults[..i + 1][..i] == Defaults[..i];
      if key !in filled {
        filled := filled[key := value];
      }
    }
    assert Defaults[..|Defaults|] == Defaults;
  }

  /** A filled source has all five default keys, whatever was sent; a missing
      `active` or `use_local_files` becomes true. */
  lemma FilledSourceHasAllKeys(source: Source)
    ensures forall i :: 0 <= i < |Defaults| ==> Defaults[i].0 in WithDefaults(source, Defaults)
    ensures "use_local_files" !in source ==>
              "use_local_files" in WithDefaults(source, Defaults) && WithDefaults(source, Defaults)["use_local_files"] == JBool(true)
    ensures "active" !in source ==>
              "active" in WithDefaults(source, Defaults) && WithDefaults(source, Defaults)["active"] == JBool(true)
  {
    assert DistinctKeys(Defaults);
    forall i | 0 <= i < |Defaults| ensures Defaults[i].0 in WithDefaults(source, Defaults) {
      if Defaults[i].0 in source {
        DefaultsKeepPresent(source, Defaults, Defaults[i].0);
      } else {
        DefaultsFillMissing(source, Defaults, i);
      }
    }
    if "use_local_files" !in source {
      DefaultsFillMissing(source, Defaults, 4);
    }
    if "active" !in source {
      DefaultsFillMissing(source, Defaults, 0);
    }
  }

  /** The required-field check of add and update. */
  function ValidateSource(source: Source): (r: Option<Reply>)
    ensures r.None? <==> "name" in source
    ensures r.Some? ==> r.value == Failure(400, "Missing required field: name")
  {
    if "name" !in source then Some(Failure(400, "Missing required field: name")) else None
  }

  /** The index and length checks of remove, over the number of stored sources. */
  function ValidateRemove(count: nat, index: int): (r: Option<Reply>)
    ensures r.None? <==> 0 <= index < count && count > 1
    ensures !(0 <= index < count) ==> r == Some(Failure(400, "Invalid source index"))
    ensures 0 <= index < count && count <= 1 ==> r == Some(Failure(400, "Cannot remove the last source"))
  {
    if index < 0 || index >= count then Some(Failure(400, "Invalid source index"))
    else if count <= 1 then Some(Failure(400, "Cannot remove the last source"))
    else None
  }

  /** The index check of set-current. */
  function ValidateIndex(count: nat, index: int): (r: Option<Reply>)
    ensures r.None? <==> 0 <= index < count
    ensures r.Some? ==> r.value == Failure(400, "Invalid source index")
  {
    if index < 0 || index >= count then Some(Failure(400, "Invalid source index")) else None
  }

  /** A removal this route lets through never empties the list, and keeps the
      current index in range when it was. */
  lemma RemoveRouteKeepsASource(c: Config, index: int, saved: bool)
    requires ValidateRemove(|c.sources|, index).None?
    ensures |Remove(c, index, saved).config.sources| >= 1
    ensures CurrentInRange(c) ==> CurrentInRange(Remove(c, index, saved).config)
  {
  }

  method AddSourceRoute(store: ConfigStore, source: Source, saved: bool) returns (reply: Reply)
    modifies store
    ensures "name" !in source ==> reply == Failure(400, "Missing required field: name") && store.State() == old(store.State())
    ensures "name" in source ==> store.State() == Add(old(store.State()), WithDefaults(source, Defaults), saved).config
    ensures "name" in source && saved ==> reply == Success(Some(WithDefaults(source, Defaults)), None)
    ensures "name" in source && !saved ==> reply == Failure(500, "Failed to add source")
  {
    var invalid := ValidateSource(source);
    if invalid.Some? {
      return invalid.value;
    }
    var filled := ApplyDefaults(source);
    var ok := store.AddSource(filled, saved);
    if ok {
      return Success(Some(filled), None);
    }
    return Failure(500, "Failed to add source");
  }

  /** Update: an invalid index is only caught by `update_source`, so it is answered with 500, not 400. */
  method UpdateSourceRoute(store: ConfigStore, index: int, source: Source, saved: bool) returns (reply: Reply)
    modifies store
    ensures "name" !in source ==> reply == Failure(400, "Missing required field: name") && store.State() == old(store.State())
    ensures "name" in source ==> store.State() == Update(old(store.State()), index, source, saved).config
    ensures "name" in source ==> (reply == Success(Some(source), None) <==> (0 <= index < |old(store.sources)| && saved))
    ensures "name" in source && !(0 <= index < |old(store.sources)| && saved) ==> reply == Failure(500, "Failed to update source")
  {
    var invalid := ValidateSource(source);
    if invalid.Some? {
      return invalid.value;
    }
    var ok := store.UpdateSource(index, source, saved);
    if ok {
      return Success(Some(source), None);
    }
    return Failure(500, "Failed to update source");
  }

  method RemoveSourceRoute(store: ConfigStore, index: int, saved: bool) returns (reply: Reply)
    modifies store
    ensures ValidateRemove(|old(store.sources)|, index).Some? ==>
              reply == ValidateRemove(|old(store.sources)|, index).value && store.State() == old(store.State())
    ensures ValidateRemove(|old(store.sources)|, index).None? ==>
              store.State() == Remove(old(store.State()), index, saved).config
              && reply == (if saved then Success(None, None) else Failure(500, "Failed to remove source"))
    ensures |store.sources| >= 1 || |old(store.sources)| == 0
  {
    var invalid := ValidateRemove(|store.sources|, index);
    if invalid.Some? {
      return invalid.value;
    }
    var ok := store.RemoveSource(index, saved);
    if ok {
      return Success(None, None);
    }
    return Failure(500, "Failed to remove source");
  }

  method SetCurrentSourceRoute(store: ConfigStore, index: int, saved: bool) returns (reply: Reply)
    modifies store
    ensures ValidateIndex(|old(store.sources)|, index).Some? ==>
              reply == Failure(400, "Invalid source index") && store.State() == old(store.State())
    ensures ValidateIndex(|old(store.sources)|, index).None? ==>
              store.State() == SetCurrent(old(store.State()), index, saved).config
              && reply == (if saved then Success(None, Some(index)) else Failure(500, "Failed to set current source"))
  {
    var invalid := ValidateIndex(|store.sources|, index);
    if invalid.Some? {
      return invalid.value;
    }
    var ok := store.SetCurrentSource(index, saved);
    if ok {
      return Success(None, Some(index));
    }
    return Failure(500, "Failed to set current source");
  }

  const FeedTypes: seq<string> := ["trip_update", "vehicle_position", "alert"]

  function UrlKey(feedType: string): string {
    feedType + "_url"
  }

  /** Whether a feed's test passes: its URL key is present and truthy and the request answers 200. */
  predicate Passes(source: Source, feedType: string, fetch: Json -> Fetch) {
    UrlKey(feedType) in source && Truthy(source[UrlKey(feedType)]) && fetch(source[UrlKey(feedType)]) == Responded(200)
  }

  /** `api_config_test_source`: one boolean per feed type, false unless the test passes. */
  method TestSource(source: Source, fetch: Json -> Fetch) returns (results: map<string, bool>)
    ensures results.Keys == {"trip_update", "vehicle_position", "alert"}
    ensures forall f :: f in results ==> (results[f] <==> Passes(source, f, fetch))
  {
    results := map["trip_update" := false, "vehicle_position" := false, "alert" := false];
    for i := 0 to |FeedTypes|
      invariant results.Keys == {"trip_update", "vehicle_position", "alert"}
      invariant forall j :: 0 <= j < i ==> (results[FeedTypes[j]] <==> Passes(source, FeedTypes[j], fetch))
      invariant forall j :: i <= j < |FeedTypes| ==> !results[FeedTypes[j]]
    {
      var feedType := FeedTypes[i];
      var urlKey := feedType + "_url";
      if urlKey in source && Truthy(source[urlKey]) {
        var response := fetch(source[urlKey]);
        if response.Responded? {
          results := results[feedType := response.statusCode == 200];
        } else {
          results := results[feedType := false];
        }
      }
    }
    forall f | f in results ensures results[f] <==> Passes(source, f, fetch) {
      assert f == FeedTypes[0] || f == FeedTypes[1] || f == FeedTypes[2];
    }
  }
}
