/** The data-source configuration of app/utils/config_manager.py: a list of
    sources and the index of the current one. Every operation loads the
    stored configuration, changes it and saves it; `saved` stands for the
    outcome of `save_config`, and a failed save leaves the stored
    configuration as it was. */
module ConfigManager {
  import opened Wrappers
  import opened Json

  /** A source as stored: a JSON object. */
  type Source = Object

  const DefaultSource: Source := map[
    "name" := JStr("Local Files"),
    "active" := JBool(true),
    "trip_update_url" := JStr(""),
    "vehicle_position_url" := JStr(""),
    "alert_url" := JStr(""),
    "use_local_files" := JBool(true)]

  datatype Config = Config(sources: seq<Source>, currentSource: int)

  /** `DEFAULT_CONFIG`: one local-files source, selected. */
  function Default(): (c: Config)
    ensures |c.sources| == 1 && c.currentSource == 0
    ensures "use_local_files" in c.sources[0] && c.sources[0]["use_local_files"] == JBool(true)
    ensures "name" in c.sources[0] && c.sources[0]["name"] == JStr("Local Files")
    ensures CurrentInRange(c)
  {
    Config([DefaultSource], 0)
  }

  predicate CurrentInRange(c: Config) {
    0 <= c.currentSource < |c.sources|
  }

  /** What an operation reports, and the stored configuration after it. */
  datatype Outcome = Outcome(ok: bool, config: Config)

  /** `add_source`: append at the end; nothing else moves. */
  function Add(c: Config, source: Source, saved: bool): (r: Outcome)
    ensures r.ok == saved
    ensures !r.ok ==> r.config == c
    ensures r.ok ==> |r.config.sources| == |c.sources| + 1 && r.config.sources[|c.sources|] == source
    ensures r.ok ==> r.config.sources[..|c.sources|] == c.sources && r.config.currentSource == c.currentSource
  {
    if saved then Outcome(true, Config(c.sources + [source], c.currentSource)) else Outcome(false, c)
  }

  /** `update_source`: replace slot `index` when it exists; otherwise report failure and change nothing. */
  function Update(c: Config, index: int, source: Source, saved: bool): (r: Outcome)
    ensures r.ok <==> 0 <= index < |c.sources| && saved
    ensures !r.ok ==> r.config == c
    ensures r.ok ==> |r.config.sources| == |c.sources| && r.config.sources[index] == source
    ensures r.ok ==> forall k :: 0 <= k < |c.sources| && k != index ==> r.config.sources[k] == c.sources[k]
    ensures r.ok ==> r.config.currentSource == c.currentSource
  {
    if 0 <= index < |c.sources| && saved then Outcome(true, Config(c.sources[index := source], c.currentSource))
    else Outcome(false, c)
  }

  /** The index after a removal left `n` sources: pulled back to the last
      source (0 for an empty list) only when it no longer fits. */
  function ClampCurrent(current: int, n: nat): (r: int)
    ensures current >= n ==> r == (if n > 0 then n - 1 else 0)
    ensures current < n ==> r == current
  {
    if current >= n then (if n - 1 > 0 then n - 1 else 0) else current
  }

  /** `remove_source`: delete slot `index`, keep the others in order, clamp the current index. */
  function Remove(c: Config, index: int, saved: bool): (r: Outcome)
    ensures r.ok <==> 0 <= index < |c.sources| && saved
    ensures !r.ok ==> r.config == c
    ensures r.ok ==> |r.config.sources| == |c.sources| - 1
    ensures r.ok ==> forall k :: 0 <= k < index ==> r.config.sources[k] == c.sources[k]
    ensures r.ok ==> forall k :: index <= k < |r.config.sources| ==> r.config.sources[k] == c.sources[k + 1]
    ensures r.ok ==> r.config.currentSource == ClampCurrent(c.currentSource, |c.sources| - 1)
  {
    if 0 <= index < |c.sources| && saved then
      var rest := c.sources[..index] + c.sources[index + 1..];
      Outcome(true, Config(rest, ClampCurrent(c.currentSource, |rest|)))
    else Outcome(false, c)
  }

  /** `set_current_source`: select `index` when it names a source. */
  function SetCurrent(c: Config, index: int, saved: bool): (r: Outcome)
    ensures r.ok <==> 0 <= index < |c.sources| && saved
    ensures !r.ok ==> r.config == c
    ensures r.ok ==> r.config == Config(c.sources, index)
  {
    if 0 <= index < |c.sources| && saved then Outcome(true, Config(c.sources, index)) else Outcome(false, c)
  }

  /** `get_current_source`: the selected source exactly when the index is in range. */
  function CurrentSource(c: Config): (r: Option<Source>)
    ensures r.Some? <==> CurrentInRange(c)
    ensures r.Some? ==> r.value == c.sources[c.currentSource]
  {
    if 0 <= c.currentSource < |c.sources| then Some(c.sources[c.currentSource]) else None
  }

  /** Every operation keeps the current index in range, as long as some sources remain. */
  lemma OperationsKeepCurrentInRange(c: Config, index: int, source: Source, saved: bool)
    requires CurrentInRange(c)
    ensures CurrentInRange(Add(c, source, saved).config)
    ensures CurrentInRange(Update(c, index, source, saved).config)
    ensures CurrentInRange(SetCurrent(c, index, saved).config)
    ensures |Remove(c, index, saved).config.sources| > 0 ==> CurrentInRange(Remove(c, index, saved).config)
  {
  }

  /** Removal keeps the number of the current source, even when that number
      now names the next source: with three sources and the second one
      selected, removing the first leaves index 1, which now names the third. */
  lemma RemoveKeepsIndexNotSource(a: Source, b: Source, d: Source)
    requires b != d
    ensures var r := Remove(Config([a, b, d], 1), 0, true);
      r.ok && r.config.currentSource == 1 && CurrentSource(r.config) == Some(d) && CurrentSource(Config([a, b, d], 1)) == Some(b)
  {
    var r := Remove(Config([a, b, d], 1), 0, true);
    assert r.config.sources == [b, d];
  }

  /** Removing the only source empties the list and resets the index to 0. */
  lemma RemoveLastSource(c: Config)
    requires |c.sources| == 1 && CurrentInRange(c)
    ensures Remove(c, 0, true).config == Config([], 0)
  {
    assert c.sources[..0] + c.sources[1..] == [];
  }

  /** The stored configuration as an object whose fields the operations update in place. */
  class ConfigStore {
    var sources: seq<Source>
    var currentSource: int

    function State(): Config
      reads this
    {
      Config(sources, currentSource)
    }

    /** A fresh store holds `DEFAULT_CONFIG`. */
    constructor ()
      ensures State() == Default()
    {
      sources := [DefaultSource];
      currentSource := 0;
    }

    method AddSource(source: Source, saved: bool) returns (ok: bool)
      modifies this
      ensures ok == Add(old(State()), source, saved).ok
      ensures State() == Add(old(State()), source, saved).config
    {
      var working := sources + [source];
      if saved {
        sources := working;
      }
      return saved;
    }

    method UpdateSource(index: int, source: Source, saved: bool) returns (ok: bool)
      modifies this
      ensures ok == Update(old(State()), index, source, saved).ok
      ensures State() == Update(old(State()), index, source, saved).config
    {
      if 0 <= index < |sources| {
        var working := sources[index := source];
        if saved {
          sources := working;
        }
        return saved;
      }
      return false;
    }

    method RemoveSource(index: int, saved: bool) returns (ok: bool)
      modifies this
      ensures ok == Remove(old(State()), index, saved).ok
      ensures State() == Remove(old(State()), index, saved).config
    {
      if 0 <= index < |sources| {
        var working := sources[..index] + sources[index + 1..];
        var current := currentSource;
        if current >= |working| {
          current := if |working| - 1 > 0 then |working| - 1 else 0;
        }
        if saved {
          sources, currentSource := working, current;
        }
        return saved;
      }
      return false;
    }

    method SetCurrentSource(index: int, saved: bool) returns (ok: bool)
      modifies this
      ensures ok == SetCurrent(old(State()), index, saved).ok
      ensures State() == SetCurrent(old(State()), index, saved).config
    {
      if 0 <= index < |sources| {
        if saved {
          currentSource := index;
        }
        return saved;
      }
      return false;
    }

    method GetCurrentSource() returns (r: Option<Source>)
      ensures r.Some? <==> 0 <= currentSource < |sources|
      ensures r.Some? ==> r.value == sources[currentSource]
    {
      if 0 <= currentSource < |sources| {
        return Some(sources[currentSource]);
      }
      return None;
    }
  }
}
