/** The module registry of volley-sense/apps/api/app/modules/manager.py: enablement, the
    config file, `load`, the request guard, enable/disable and the health refresh. The
    environment is the map `env`; importing a module's router is the parameter `importError`
    (the text of the exception an import raises, keyed by the router path); a health request
    is the parameter `probe` (the outcome for a module id); the clock is the rendered time
    `now`. The config file is a `ConfigFile` value. */
module Registry {
  import opened Base
  import opened Text
  import opened PyValues

  datatype Manifest = Manifest(id: string, name: string, version: string, optional: bool, enabledByDefault: bool,
                               backend: Option<string>, health: Option<string>)

  /** `ModuleStatusType`: the four status words. */
  datatype Status = Healthy | Degraded | Error | Disabled

  function Word(st: Status): (w: string)
    ensures w in {"healthy", "degraded", "error", "disabled"}
  {
    match st
    case Healthy => "healthy"
    case Degraded => "degraded"
    case Error => "error"
    case Disabled => "disabled"
  }

  /** The mutable part of `ModuleState`, with its manifest; `lastChecked` is the ISO text. */
  datatype ModuleState = ModuleState(manifest: Manifest, enabled: bool, status: Status, lastError: Option<string>,
                                     failureCount: nat, lastChecked: Option<string>)

  datatype StatusPayload = StatusPayload(id: string, name: string, version: string, optional: bool, enabled: bool,
                                         status: string, lastError: Option<string>, lastChecked: Option<string>,
                                         failureCount: nat)

  /** `ModuleState.payload`. */
  function Payload(s: ModuleState): StatusPayload
  {
    StatusPayload(s.manifest.id, s.manifest.name, s.manifest.version, s.manifest.optional, s.enabled, Word(s.status),
                  s.lastError, s.lastChecked, s.failureCount)
  }

  /** How the status goes with `enabled`: "disabled" only when not enabled, and a module that
      is not enabled is "disabled" or "error". */
  predicate Consistent(s: ModuleState)
  {
    && (s.status == Disabled ==> !s.enabled)
    && (!s.enabled ==> s.status == Disabled || s.status == Error)
  }

  // ---------------------------------------------------------------- enablement

  const TrueWords: set<string> := {"1", "true", "yes", "on"}

  function EnvKey(moduleId: string): string
  {
    "MODULES_" + ReplaceChar(Upper(moduleId), '-', '_')
  }

  /** `_should_enable`: a set environment variable decides alone (enabled only for 1, true,
      yes or on, in any case); otherwise a core module is always enabled and an optional one
      follows the config entry, then its default. */
  function ShouldEnable(env: map<string, string>, config: map<string, bool>, m: Manifest): (r: bool)
    ensures EnvKey(m.id) in env ==> (r <==> Lower(env[EnvKey(m.id)]) in TrueWords)
    ensures EnvKey(m.id) !in env && !m.optional ==> r
    ensures EnvKey(m.id) !in env && m.optional && m.id in config ==> r == config[m.id]
    ensures EnvKey(m.id) !in env && m.optional && m.id !in config ==> r == m.enabledByDefault
  {
    var key := EnvKey(m.id);
    if key in env then Lower(env[key]) in TrueWords
    else if m.optional then (if m.id in config then config[m.id] else m.enabledByDefault)
    else true
  }

  /** A value that is not one of the true words disables the module, core or not. */
  lemma UnrecognisedWordDisables(env: map<string, string>, config: map<string, bool>, m: Manifest)
    requires EnvKey(m.id) in env && Lower(env[EnvKey(m.id)]) !in TrueWords
    ensures !ShouldEnable(env, config, m)
  {
  }

  // ---------------------------------------------------------------- the config file

  /** The config file: missing (or no path configured), not valid JSON, a parsed document, or
      a file written by `_save_config`, which is the JSON dump of a str-to-bool dict and loads
      back as that dict. */
  datatype ConfigFile = Missing | Malformed | Document(data: PyValue) | Saved(config: map<string, bool>)

  /** `{str(key): bool(value) for key, value in data.items()}`: a later item whose key has the
      same text replaces an earlier one. */
  function ConfigFromItems(items: seq<(PyKey, PyValue)>): (r: map<string, bool>)
    ensures r.Keys == set i | 0 <= i < |items| :: KeyStr(items[i].0)
  {
    if items == [] then map[]
    else
      var n := |items| - 1;
      var front := ConfigFromItems(items[..n]);
      assert (set i | 0 <= i < |items| :: KeyStr(items[i].0))
             == (set i | 0 <= i < n :: KeyStr(items[..n][i].0)) + {KeyStr(items[n].0)};
      front[KeyStr(items[n].0) := Truthy(items[n].1)]
  }

  /** The value for a key is the truthiness of the last item with that key text. */
  lemma {:induction false} ConfigLastItemWins(items: seq<(PyKey, PyValue)>, i: int)
    requires 0 <= i < |items|
    requires forall j :: i < j < |items| ==> KeyStr(items[j].0) != KeyStr(items[i].0)
    ensures KeyStr(items[i].0) in ConfigFromItems(items)
    ensures ConfigFromItems(items)[KeyStr(items[i].0)] == Truthy(items[i].1)
  {
    var n := |items| - 1;
    if i < n {
      var front := items[..n];
      assert front[i] == items[i];
      assert forall j :: i < j < |front| ==> front[j] == items[j];
      ConfigLastItemWins(front, i);
    }
  }

  /** `_load_config`: an empty config unless there is a path to a file holding a JSON object. */
  function LoadConfig(hasPath: bool, file: ConfigFile): (r: map<string, bool>)
    ensures !hasPath || file.Missing? || file.Malformed? ==> r == map[]
    ensures hasPath && file.Document? && !file.data.PyDict? ==> r == map[]
    ensures hasPath && file.Document? && file.data.PyDict? ==> r == ConfigFromItems(file.data.items)
    ensures hasPath && file.Saved? ==> r == file.config
  {
    if !hasPath then map[]
    else
      match file
      case Missing => map[]
      case Malformed => map[]
      case Document(data) => if data.PyDict? then ConfigFromItems(data.items) else map[]
      case Saved(config) => config
  }

  // ---------------------------------------------------------------- load, as a function

  /** The state `load` stores for a manifest: "disabled" when not enabled; an enabled module
      whose router fails to import is "error", not enabled, with the exception text. */
  function LoadedState(m: Manifest, enabled: bool, importError: string -> Option<string>): (s: ModuleState)
    ensures s.manifest == m && s.failureCount == 0 && s.lastChecked == None && Consistent(s)
    ensures !enabled ==> !s.enabled && s.status == Disabled && s.lastError == None
    ensures enabled && (m.backend.None? || importError(m.backend.value).None?) ==>
              s.enabled && s.status == Healthy && s.lastError == None
    ensures enabled && m.backend.Some? && importError(m.backend.value).Some? ==>
              !s.enabled && s.status == Error && s.lastError == importError(m.backend.value)
  {
    var state := ModuleState(m, enabled, if enabled then Healthy else Disabled, None, 0, None);
    if enabled && m.backend.Some? && importError(m.backend.value).Some? then
      state.(status := Error, enabled := false, lastError := importError(m.backend.value))
    else state
  }

  /** The state `load` builds for one manifest, one step after the other: disabled when not
      enabled, then the import of the router for an enabled module with a backend. */
  method NewState(m: Manifest, enabled: bool, importError: string -> Option<string>) returns (state: ModuleState)
    ensures state == LoadedState(m, enabled, importError)
  {
    state := ModuleState(m, enabled, Healthy, None, 0, None);
    if !enabled {
      state := state.(status := Disabled);
    }
    if enabled && m.backend.Some? {
      var failure := importError(m.backend.value);
      if failure.Some? {
        state := state.(status := Error, enabled := false, lastError := failure);
      }
    }
  }

  datatype Tables = Tables(manifests: map<string, Manifest>, states: map<string, ModuleState>, order: seq<string>)

  /** One manifest: it replaces any earlier entry of its id, which keeps its dict position. */
  function LoadOne(t: Tables, m: Manifest, enabled: bool, importError: string -> Option<string>): Tables
  {
    Tables(t.manifests[m.id := m], t.states[m.id := LoadedState(m, enabled, importError)],
           if m.id in t.states then t.order else t.order + [m.id])
  }

  function LoadAll(t: Tables, ms: seq<Manifest>, env: map<string, string>, config: map<string, bool>,
                   importError: string -> Option<string>): Tables
  {
    if ms == [] then t
    else
      var m := ms[|ms| - 1];
      LoadOne(LoadAll(t, ms[..|ms| - 1], env, config, importError), m, ShouldEnable(env, config, m), importError)
  }

  lemma LoadAllStep(t: Tables, ms: seq<Manifest>, i: int, env: map<string, string>, config: map<string, bool>,
                    importError: string -> Option<string>)
    requires 0 <= i < |ms|
    ensures LoadAll(t, ms[..i + 1], env, config, importError)
            == LoadOne(LoadAll(t, ms[..i], env, config, importError), ms[i], ShouldEnable(env, config, ms[i]), importError)
  {
    assert ms[..i + 1][..i] == ms[..i] && ms[..i + 1][i] == ms[i];
  }

  /** The registry's tables agree: the same ids, each state with its own manifest and
      consistent, and the dict order listing exactly the ids. */
  ghost predicate WellFormed(t: Tables)
  {
    && t.manifests.Keys == t.states.Keys
    && (forall k :: k in t.states ==> t.states[k].manifest.id == k && t.manifests[k] == t.states[k].manifest)
    && (forall k :: k in t.states ==> Consistent(t.states[k]))
    && (forall k :: k in t.states <==> k in t.order)
    && (forall i, j :: 0 <= i < j < |t.order| ==> t.order[i] != t.order[j])
  }

  lemma LoadOneWellFormed(t: Tables, m: Manifest, enabled: bool, importError: string -> Option<string>)
    requires WellFormed(t)
    ensures WellFormed(LoadOne(t, m, enabled, importError))
  {
    var t1 := LoadOne(t, m, enabled, importError);
    var s := LoadedState(m, enabled, importError);
    assert t1.states == t.states[m.id := s] && t1.manifests == t.manifests[m.id := m];
    assert s.manifest == m && Consistent(s);
    if m.id !in t.states {
      assert t1.order == t.order + [m.id];
      assert forall i :: 0 <= i < |t.order| ==> t1.order[i] == t.order[i] && t.order[i] != m.id;
    }
  }

  /** Replacing a state by one with the same manifest that is consistent keeps the tables
      well formed. */
  lemma ReplaceStateWellFormed(t: Tables, id: string, s: ModuleState)
    requires WellFormed(t) && id in t.states && s.manifest == t.states[id].manifest && Consistent(s)
    ensures WellFormed(Tables(t.manifests, t.states[id := s], t.order))
  {
  }

  /** The last manifest of an id decides its entry. */
  lemma {:induction false} LastManifestWins(t: Tables, ms: seq<Manifest>, i: int, env: map<string, string>,
                                            config: map<string, bool>, importError: string -> Option<string>)
    requires 0 <= i < |ms| && forall j :: i < j < |ms| ==> ms[j].id != ms[i].id
    ensures var t1 := LoadAll(t, ms, env, config, importError);
            && ms[i].id in t1.manifests && t1.manifests[ms[i].id] == ms[i]
            && ms[i].id in t1.states
            && t1.states[ms[i].id] == LoadedState(ms[i], ShouldEnable(env, config, ms[i]), importError)
  {
    var n := |ms| - 1;
    var front := ms[..n];
    var before := LoadAll(t, front, env, config, importError);
    assert LoadAll(t, ms, env, config, importError) == LoadOne(before, ms[n], ShouldEnable(env, config, ms[n]), importError);
    if i < n {
      assert front[i] == ms[i];
      assert forall j :: i < j < |front| ==> front[j] == ms[j];
      LastManifestWins(t, front, i, env, config, importError);
      LoadOneKeeps(before, ms[n], ShouldEnable(env, config, ms[n]), importError, ms[i].id);
    }
  }

  /** Loading a manifest leaves the entries of other ids alone. */
  lemma LoadOneKeeps(t: Tables, m: Manifest, enabled: bool, importError: string -> Option<string>, k: string)
    requires k != m.id
    ensures var t1 := LoadOne(t, m, enabled, importError);
            && (k in t1.manifests <==> k in t.manifests) && (k in t1.states <==> k in t.states)
            && (k in t.manifests ==> t1.manifests[k] == t.manifests[k])
            && (k in t.states ==> t1.states[k] == t.states[k])
  {
  }

  // ---------------------------------------------------------------- the guard

  /** `require_enabled`: 503 for an unknown, a disabled, an errored and a degraded module,
      checked in that order. */
  function RequireEnabled(states: map<string, ModuleState>, moduleId: string): (r: Outcome)
    ensures moduleId !in states ==> r == Fail(HttpError(503, "Module '" + moduleId + "' unavailable"))
    ensures moduleId in states && !states[moduleId].enabled ==>
              r == Fail(HttpError(503, "Module '" + moduleId + "' disabled"))
    ensures moduleId in states && states[moduleId].enabled && states[moduleId].status == Error ==>
              r == Fail(HttpError(503, "Module '" + moduleId + "' failed: "
                                       + (if NonEmpty(states[moduleId].lastError) then states[moduleId].lastError.value
                                          else "unknown error")))
    ensures moduleId in states && states[moduleId].enabled && states[moduleId].status == Degraded ==>
              r == Fail(HttpError(503, "Module '" + moduleId + "' degraded - retry later"))
    ensures r.Pass? <==> moduleId in states && states[moduleId].enabled
                         && states[moduleId].status != Error && states[moduleId].status != Degraded
  {
    if moduleId !in states then Fail(HttpError(503, "Module '" + moduleId + "' unavailable"))
    else
      var s := states[moduleId];
      if !s.enabled then Fail(HttpError(503, "Module '" + moduleId + "' disabled"))
      else if s.status == Error then
        var reason := if NonEmpty(s.lastError) then s.lastError.value else "unknown error";
        Fail(HttpError(503, "Module '" + moduleId + "' failed: " + reason))
      else if s.status == Degraded then Fail(HttpError(503, "Module '" + moduleId + "' degraded - retry later"))
      else Pass
  }

  /** On consistent states only a healthy module passes the guard. */
  lemma OnlyHealthyPasses(states: map<string, ModuleState>, moduleId: string)
    requires forall k :: k in states ==> Consistent(states[k])
    ensures RequireEnabled(states, moduleId).Pass? <==> moduleId in states && states[moduleId].status == Healthy
  {
  }

  // ---------------------------------------------------------------- health checks

  /** The outcome of one health request: a response (its status code and whether its JSON
      body's "ok" is truthy), or an exception with its text. */
  datatype Probe = Responded(code: int, ok: bool) | Raised(message: string)

  predicate Passed(p: Probe)
  {
    p.Responded? && p.code == 200 && p.ok
  }

  /** `str(exc)` of a failed check. */
  function FailureText(p: Probe): string
  {
    if p.Responded? then "status " + IntToString(p.code) else p.message
  }

  /** Whether `refresh_health` checks a module. */
  predicate Eligible(s: ModuleState)
  {
    s.enabled && s.manifest.health.Some? && s.status != Error
  }

  /** One check: a pass resets the counter, makes the module healthy and clears the error; a
      failure counts, records the error, and degrades the module from the third failure on. */
  function Check(s: ModuleState, p: Probe, now: string): (r: ModuleState)
    ensures r.manifest == s.manifest && r.enabled == s.enabled && r.lastChecked == Some(now)
    ensures Passed(p) ==> r.failureCount == 0 && r.status == Healthy && r.lastError == None
    ensures !Passed(p) ==> r.failureCount == s.failureCount + 1 && r.lastError == Some(FailureText(p))
    ensures !Passed(p) && s.failureCount + 1 >= 3 ==> r.status == Degraded
    ensures !Passed(p) && s.failureCount + 1 < 3 ==> r.status == s.status
    ensures Consistent(s) && Eligible(s) ==> Consistent(r) && Eligible(r)
  {
    if Passed(p) then s.(lastChecked := Some(now), failureCount := 0, status := Healthy, lastError := None)
    else
      var failures := s.failureCount + 1;
      s.(failureCount := failures, lastError := Some(FailureText(p)), lastChecked := Some(now),
         status := if failures >= 3 then Degraded else s.status)
  }

  /** A module checked again and again through `probes`. */
  function CheckAll(s: ModuleState, probes: seq<Probe>, now: string): ModuleState
    decreases |probes|
  {
    if probes == [] then s else CheckAll(Check(s, probes[0], now), probes[1..], now)
  }

  /** From a clean healthy state, `n` failed checks in a row leave the counter at `n`, and the
      module is degraded exactly when `n` is at least three. */
  lemma {:induction false} ConsecutiveFailures(s: ModuleState, probes: seq<Probe>, now: string, k: nat)
    requires s.status == Healthy && s.failureCount == k && k < 3
    requires forall j :: 0 <= j < |probes| ==> !Passed(probes[j])
    ensures CheckAll(s, probes, now).failureCount == k + |probes|
    ensures CheckAll(s, probes, now).status == Degraded <==> k + |probes| >= 3
    decreases |probes|
  {
    if probes != [] {
      var s1 := Check(s, probes[0], now);
      if k + 1 < 3 {
        ConsecutiveFailures(s1, probes[1..], now, k + 1);
      } else {
        DegradedStaysDegraded(s1, probes[1..], now);
      }
    }
  }

  /** Further failures keep a degraded module degraded and keep counting. */
  lemma {:induction false} DegradedStaysDegraded(s: ModuleState, probes: seq<Probe>, now: string)
    requires s.status == Degraded
    requires forall j :: 0 <= j < |probes| ==> !Passed(probes[j])
    ensures CheckAll(s, probes, now).status == Degraded
    ensures CheckAll(s, probes, now).failureCount == s.failureCount + |probes|
    decreases |probes|
  {
    if probes != [] {
      DegradedStaysDegraded(Check(s, probes[0], now), probes[1..], now);
    }
  }

  /** The refresh of the modules `ids`, in order; an ineligible module is skipped. */
  function Refreshed(states: map<string, ModuleState>, ids: seq<string>, probe: string -> Probe, now: string)
    : (r: map<string, ModuleState>)
    ensures r.Keys == states.Keys
  {
    if ids == [] then states
    else RefreshOne(Refreshed(states, ids[..|ids| - 1], probe, now), ids[|ids| - 1], probe, now)
  }

  /** One module of the refresh: checked when eligible, skipped otherwise. */
  function RefreshOne(states: map<string, ModuleState>, id: string, probe: string -> Probe, now: string)
    : (r: map<string, ModuleState>)
    ensures r.Keys == states.Keys
  {
    if id in states && Eligible(states[id]) then states[id := Check(states[id], probe(id), now)] else states
  }

  /** A module that is not eligible is left exactly as it was, and every module keeps its
      manifest and its `enabled` flag. */
  lemma {:induction false} RefreshSkipsIneligible(states: map<string, ModuleState>, ids: seq<string>,
                                                  probe: string -> Probe, now: string, k: string)
    requires k in states
    ensures Refreshed(states, ids, probe, now)[k].manifest == states[k].manifest
    ensures Refreshed(states, ids, probe, now)[k].enabled == states[k].enabled
    ensures !Eligible(states[k]) ==> Refreshed(states, ids, probe, now)[k] == states[k]
  {
    if ids != [] {
      RefreshSkipsIneligible(states, ids[..|ids| - 1], probe, now, k);
    }
  }

  lemma RefreshedStep(states: map<string, ModuleState>, ids: seq<string>, i: int, probe: string -> Probe, now: string)
    requires 0 <= i < |ids|
    ensures Refreshed(states, ids[..i + 1], probe, now) == RefreshOne(Refreshed(states, ids[..i], probe, now), ids[i], probe, now)
  {
    assert ids[..i + 1][..i] == ids[..i] && ids[..i + 1][i] == ids[i];
  }

  /** A module the refresh does not visit is untouched. */
  lemma {:induction false} RefreshUntouched(states: map<string, ModuleState>, ids: seq<string>,
                                            probe: string -> Probe, now: string, k: string)
    requires k in states && k !in ids
    ensures Refreshed(states, ids, probe, now)[k] == states[k]
  {
    if ids != [] {
      RefreshUntouched(states, ids[..|ids| - 1], probe, now, k);
    }
  }

  /** A module listed once that is eligible is checked exactly once, with its own probe. */
  lemma {:induction false} RefreshChecksOnce(states: map<string, ModuleState>, ids: seq<string>,
                                             probe: string -> Probe, now: string, k: string, i: int)
    requires k in states && Eligible(states[k])
    requires 0 <= i < |ids| && ids[i] == k && forall j :: 0 <= j < |ids| && j != i ==> ids[j] != k
    ensures Refreshed(states, ids, probe, now)[k] == Check(states[k], probe(k), now)
  {
    var n := |ids| - 1;
    var front := ids[..n];
    if i == n {
      assert k !in front by {
        forall j | 0 <= j < |front|
          ensures front[j] != k
        {
          assert front[j] == ids[j];
        }
      }
      RefreshUntouched(states, front, probe, now, k);
    } else {
      assert front[i] == k;
      assert forall j :: 0 <= j < |front| && j != i ==> front[j] == ids[j];
      RefreshChecksOnce(states, front, probe, now, k, i);
    }
  }

  // ---------------------------------------------------------------- the registry

  /** A module switched on or off by `set_enabled`: healthy or disabled, with no failures and
      no error; only the manifest and the last check time are kept. */
  function Cleaned(s: ModuleState, enabled: bool): (r: ModuleState)
    ensures r.manifest == s.manifest && r.lastChecked == s.lastChecked && Consistent(r)
    ensures r.enabled == enabled && r.status == (if enabled then Healthy else Disabled)
    ensures r.failureCount == 0 && r.lastError == None
  {
    s.(enabled := enabled, status := if enabled then Healthy else Disabled, failureCount := 0, lastError := None)
  }

  class ModuleRegistry {
    var manifests: map<string, Manifest>
    var states: map<string, ModuleState>
    /** The dict order of `_states`. */
    var order: seq<string>
    var hasConfigPath: bool
    var configFile: ConfigFile

    ghost predicate Valid()
      reads this
    {
      WellFormed(Tables(manifests, states, order))
    }

    constructor (configFile: ConfigFile)
      ensures Valid() && manifests == map[] && states == map[] && order == []
      ensures !hasConfigPath && this.configFile == configFile
    {
      manifests := map[];
      states := map[];
      order := [];
      hasConfigPath := false;
      this.configFile := configFile;
    }

    /** `load` over the manifests in sorted path order, with the config read once. */
    method Load(ms: seq<Manifest>, env: map<string, string>, importError: string -> Option<string>,
                hasConfigPath: bool)
      requires Valid()
      modifies this
      ensures Valid() && this.hasConfigPath == hasConfigPath && configFile == old(configFile)
      ensures Tables(manifests, states, order)
              == LoadAll(Tables(old(manifests), old(states), old(order)), ms, env,
                         LoadConfig(hasConfigPath, configFile), importError)
    {
      this.hasConfigPath := hasConfigPath;
      var config := LoadConfig(hasConfigPath, configFile);
      ghost var t0 := Tables(manifests, states, order);
      ghost var file := configFile;
      var i := 0;
      assert ms[..0] == [];
      assert Tables(manifests, states, order) == LoadAll(t0, ms[..0], env, config, importError);
      while i < |ms|
        invariant 0 <= i <= |ms| && Valid() && this.hasConfigPath == hasConfigPath && configFile == file
        invariant Tables(manifests, states, order) == LoadAll(t0, ms[..i], env, config, importError)
      {
        LoadAllStep(t0, ms, i, env, config, importError);
        LoadManifest(ms[i], ShouldEnable(env, config, ms[i]), importError);
        i := i + 1;
      }
      assert ms[..|ms|] == ms;
    }

    /** The body of `load`'s loop for one manifest. */
    method LoadManifest(m: Manifest, enabled: bool, importError: string -> Option<string>)
      requires Valid()
      modifies this
      ensures Valid() && hasConfigPath == old(hasConfigPath) && configFile == old(configFile)
      ensures Tables(manifests, states, order)
              == LoadOne(Tables(old(manifests), old(states), old(order)), m, enabled, importError)
    {
      ghost var t := Tables(manifests, states, order);
      LoadOneWellFormed(t, m, enabled, importError);
      manifests := manifests[m.id := m];
      var state := NewState(m, enabled, importError);
      if m.id !in states {
        order := order + [m.id];
      }
      states := states[m.id := state];
      assert Tables(manifests, states, order) == LoadOne(t, m, enabled, importError);
    }

    /** `list_statuses`: one payload per module, in dict order. */
    function ListStatuses(): (r: seq<StatusPayload>)
      requires Valid()
      reads this
      ensures |r| == |order| && forall i :: 0 <= i < |order| ==> r[i] == Payload(states[order[i]])
    {
      PayloadsOf(states, order)
    }

    /** `set_enabled`: 404 for an unknown module and 400 for disabling a core module, with no
        change; otherwise the module is enabled or disabled with a clean slate, and the config
        file (when there is a path) records the choice over what it held. */
    method SetEnabled(moduleId: string, enabled: bool) returns (r: Result<StatusPayload>)
      requires Valid()
      modifies this
      ensures Valid() && manifests == old(manifests) && order == old(order) && hasConfigPath == old(hasConfigPath)
      ensures moduleId !in old(states) ==>
                r == Err(HttpError(404, "Module not found")) && states == old(states) && configFile == old(configFile)
      ensures moduleId in old(states) && !old(states)[moduleId].manifest.optional && !enabled ==>
                r == Err(HttpError(400, "Core modules cannot be disabled"))
                && states == old(states) && configFile == old(configFile)
      ensures moduleId in old(states) && (old(states)[moduleId].manifest.optional || enabled) ==>
                var s := Cleaned(old(states)[moduleId], enabled);
                && states == old(states)[moduleId := s]
                && r == Ok(Payload(s))
                && configFile == (if hasConfigPath then Saved(LoadConfig(true, old(configFile))[moduleId := enabled])
                                  else old(configFile))
    {
      if moduleId !in states {
        return Err(HttpError(404, "Module not found"));
      }
      var s := states[moduleId];
      if !s.manifest.optional && !enabled {
        return Err(HttpError(400, "Core modules cannot be disabled"));
      }
      s := Cleaned(s, enabled);
      ReplaceStateWellFormed(Tables(manifests, states, order), moduleId, s);
      states := states[moduleId := s];
      SaveChoice(moduleId, enabled);
      return Ok(Payload(s));
    }

    /** The config update of `set_enabled`: the file's entries with the new choice, written
        when there is a path. */
    method SaveChoice(moduleId: string, enabled: bool)
      modifies this
      ensures manifests == old(manifests) && states == old(states) && order == old(order)
      ensures hasConfigPath == old(hasConfigPath)
      ensures configFile == (if hasConfigPath then Saved(LoadConfig(true, old(configFile))[moduleId := enabled])
                             else old(configFile))
    {
      var config := LoadConfig(hasConfigPath, configFile);
      config := config[moduleId := enabled];
      if hasConfigPath {
        configFile := Saved(config);
      }
    }

    /** `refresh_health`: every eligible module, in dict order, is checked once. */
    method RefreshHealth(probe: string -> Probe, now: string)
      requires Valid()
      modifies this
      ensures Valid() && manifests == old(manifests) && order == old(order)
      ensures configFile == old(configFile) && hasConfigPath == old(hasConfigPath)
      ensures states == Refreshed(old(states), order, probe, now)
    {
      ghost var s0 := states;
      var i := 0;
      while i < |order|
        invariant 0 <= i <= |order| && Valid()
        invariant manifests == old(manifests) && order == old(order)
        invariant configFile == old(configFile) && hasConfigPath == old(hasConfigPath)
        invariant states == Refreshed(s0, order[..i], probe, now)
      {
        RefreshedStep(s0, order, i, probe, now);
        CheckModule(order[i], probe, now);
        i := i + 1;
      }
      assert order[..|order|] == order;
    }

    /** The body of `refresh_health`'s loop for one module. */
    method CheckModule(id: string, probe: string -> Probe, now: string)
      requires Valid() && id in states
      modifies this
      ensures Valid() && manifests == old(manifests) && order == old(order)
      ensures configFile == old(configFile) && hasConfigPath == old(hasConfigPath)
      ensures states == RefreshOne(old(states), id, probe, now)
    {
      var s := states[id];
      if s.enabled && s.manifest.health.Some? && s.status != Error {
        var checked := Check(s, probe(id), now);
        ReplaceStateWellFormed(Tables(manifests, states, order), id, checked);
        states := states[id := checked];
      }
    }
  }

  function PayloadsOf(states: map<string, ModuleState>, ids: seq<string>): (r: seq<StatusPayload>)
    requires forall k :: k in ids ==> k in states
    ensures |r| == |ids| && forall i :: 0 <= i < |ids| ==> r[i] == Payload(states[ids[i]])
  {
    if ids == [] then [] else [Payload(states[ids[0]])] + PayloadsOf(states, ids[1..])
  }

  /** A config written by `set_enabled` reads back with the new entry. */
  lemma SavedConfigReadsBack(before: ConfigFile, moduleId: string, enabled: bool)
    ensures LoadConfig(true, Saved(LoadConfig(true, before)[moduleId := enabled]))[moduleId] == enabled
  {
  }
}
