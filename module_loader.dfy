/** The module manager of volley-sense/apps/api/app/modules/loader.py: enablement from the
    environment, the config file and the manifest default; the first manifest of an id wins;
    the request guard; health reports; enable/disable; and the consecutive-failure counter of
    the health monitor. Environment variables are the map `env`, mounting a module's routers
    is the parameter `mountError` (the error text of a failed mount), and each health probe
    is one `Probe` of a sequence. */
module ModuleLoader {
  import opened Base
  import opened Text

  datatype HealthSpec = HealthSpec(endpoint: string, intervalSec: int)

  datatype Manifest = Manifest(id: string, name: string, version: string, hasBackend: bool,
                               health: Option<HealthSpec>, optional: bool, enabledByDefault: bool)

  datatype LoadedModule = LoadedModule(manifest: Manifest, included: bool)

  datatype ModuleState = ModuleState(id: string, name: string, version: string, optional: bool,
                                     status: string, enabled: bool, lastError: Option<string>)

  // ---------------------------------------------------------------- enablement

  /** The environment variable consulted for a module. */
  function EnvKey(moduleId: string): string
  {
    "MODULES_" + Upper(ReplaceChar(moduleId, '-', '_'))
  }

  const TrueWords: set<string> := {"1", "true", "yes", "on"}
  const FalseWords: set<string> := {"0", "false", "no", "off"}

  /** `_env_override`. */
  function EnvOverride(env: map<string, string>, moduleId: string): (r: Option<bool>)
    ensures r == Some(true) <==> EnvKey(moduleId) in env && Lower(env[EnvKey(moduleId)]) in TrueWords
    ensures r == Some(false) <==> EnvKey(moduleId) in env && Lower(env[EnvKey(moduleId)]) in FalseWords
    ensures r.None? <==> EnvKey(moduleId) !in env
                         || (Lower(env[EnvKey(moduleId)]) !in TrueWords && Lower(env[EnvKey(moduleId)]) !in FalseWords)
  {
    var key := EnvKey(moduleId);
    if key !in env then None
    else if Lower(env[key]) in TrueWords then Some(true)
    else if Lower(env[key]) in FalseWords then Some(false)
    else None
  }

  lemma WordSetsDisjoint()
    ensures TrueWords !! FalseWords
  {
  }

  /** `self._config.get(id, {}).get("enabled")`. */
  function ConfigEnabled(config: map<string, map<string, bool>>, moduleId: string): Option<bool>
  {
    if moduleId in config && "enabled" in config[moduleId] then Some(config[moduleId]["enabled"]) else None
  }

  /** The enablement `load` computes. */
  function Enabled(env: map<string, string>, config: map<string, map<string, bool>>, m: Manifest): bool
  {
    var o := EnvOverride(env, m.id);
    if o.Some? then o.value
    else if ConfigEnabled(config, m.id).Some? then ConfigEnabled(config, m.id).value
    else m.enabledByDefault
  }

  /** The environment decides when it holds a recognised word, then the config entry, then
      the manifest default. */
  lemma EnablePrecedence(env: map<string, string>, config: map<string, map<string, bool>>, m: Manifest)
    ensures EnvOverride(env, m.id).Some? ==> Enabled(env, config, m) == EnvOverride(env, m.id).value
    ensures EnvOverride(env, m.id).None? && ConfigEnabled(config, m.id).Some? ==>
              Enabled(env, config, m) == ConfigEnabled(config, m.id).value
    ensures EnvOverride(env, m.id).None? && ConfigEnabled(config, m.id).None? ==>
              Enabled(env, config, m) == m.enabledByDefault
  {
  }

  /** The state `load` records for a newly seen manifest: healthy when enabled and mounted,
      error (with the message) when the mount fails, disabled otherwise. A module without a
      backend returns from the mount before loading anything, so it cannot fail. */
  function InitialState(m: Manifest, enabled: bool, mountError: string -> Option<string>): (s: ModuleState)
    ensures s.id == m.id && s.enabled == enabled
    ensures !enabled ==> s.status == "disabled" && s.lastError == None
    ensures enabled && !m.hasBackend ==> s.status == "healthy" && s.lastError == None
    ensures enabled && m.hasBackend && mountError(m.id).None? ==> s.status == "healthy" && s.lastError == None
    ensures enabled && m.hasBackend && mountError(m.id).Some? ==>
              s.status == "error" && s.lastError == mountError(m.id)
  {
    var base := ModuleState(m.id, m.name, m.version, m.optional, if enabled then "healthy" else "disabled", enabled, None);
    if enabled && m.hasBackend && mountError(m.id).Some? then base.(status := "error", lastError := mountError(m.id))
    else base
  }

  /** Whether mounting includes routers: only a module with a backend that mounts cleanly. */
  function Included(m: Manifest, enabled: bool, mountError: string -> Option<string>): bool
  {
    enabled && m.hasBackend && mountError(m.id).None?
  }

  // ---------------------------------------------------------------- load, as a function

  datatype Tables = Tables(manifests: map<string, LoadedModule>, states: map<string, ModuleState>, order: seq<string>)

  /** One manifest of the sorted list: skipped when its id is already loaded. */
  function LoadOne(t: Tables, m: Manifest, env: map<string, string>, config: map<string, map<string, bool>>,
                   mountError: string -> Option<string>): Tables
  {
    if m.id in t.manifests then t
    else
      var enabled := Enabled(env, config, m);
      Tables(t.manifests[m.id := LoadedModule(m, Included(m, enabled, mountError))],
             t.states[m.id := InitialState(m, enabled, mountError)], t.order + [m.id])
  }

  function LoadAll(t: Tables, ms: seq<Manifest>, env: map<string, string>, config: map<string, map<string, bool>>,
                   mountError: string -> Option<string>): Tables
  {
    if ms == [] then t
    else LoadOne(LoadAll(t, ms[..|ms| - 1], env, config, mountError), ms[|ms| - 1], env, config, mountError)
  }

  lemma LoadAllStep(t: Tables, ms: seq<Manifest>, i: int, env: map<string, string>,
                    config: map<string, map<string, bool>>, mountError: string -> Option<string>)
    requires 0 <= i < |ms|
    ensures LoadAll(t, ms[..i + 1], env, config, mountError)
            == LoadOne(LoadAll(t, ms[..i], env, config, mountError), ms[i], env, config, mountError)
  {
    assert ms[..i + 1][..i] == ms[..i] && ms[..i + 1][i] == ms[i];
  }

  /** The index of the first manifest with id `id`. */
  predicate FirstOf(ms: seq<Manifest>, i: int)
  {
    0 <= i < |ms| && forall j :: 0 <= j < i ==> ms[j].id != ms[i].id
  }

  /** The ids of a manifest list. */
  function Ids(ms: seq<Manifest>): (r: set<string>)
    ensures forall i :: 0 <= i < |ms| ==> ms[i].id in r
    ensures forall x :: x in r ==> exists i :: 0 <= i < |ms| && ms[i].id == x
  {
    if ms == [] then {} else Ids(ms[..|ms| - 1]) + {ms[|ms| - 1].id}
  }

  /** Loading into empty tables loads exactly the ids of the list. */
  lemma {:induction false} LoadAllKeys(ms: seq<Manifest>, env: map<string, string>,
                                       config: map<string, map<string, bool>>, mountError: string -> Option<string>)
    ensures var t := LoadAll(Tables(map[], map[], []), ms, env, config, mountError);
            t.manifests.Keys == Ids(ms) && t.states.Keys == Ids(ms)
  {
    if ms != [] {
      LoadAllKeys(ms[..|ms| - 1], env, config, mountError);
    }
  }

  /** Loading one more manifest leaves every already-loaded entry as it was. */
  lemma LoadOneKeeps(t: Tables, m: Manifest, x: string, env: map<string, string>,
                     config: map<string, map<string, bool>>, mountError: string -> Option<string>)
    requires x in t.manifests && x in t.states
    ensures var t1 := LoadOne(t, m, env, config, mountError);
            x in t1.manifests && t1.manifests[x] == t.manifests[x] && x in t1.states && t1.states[x] == t.states[x]
  {
  }

  /** A manifest whose id is not loaded yet is recorded by `LoadOne`. */
  lemma LoadOneAdds(t: Tables, m: Manifest, env: map<string, string>,
                    config: map<string, map<string, bool>>, mountError: string -> Option<string>)
    requires m.id !in t.manifests
    ensures var t1 := LoadOne(t, m, env, config, mountError);
            && m.id in t1.manifests && t1.manifests[m.id].manifest == m
            && m.id in t1.states && t1.states[m.id] == InitialState(m, Enabled(env, config, m), mountError)
  {
  }

  /** Loading into empty tables records, for each id, the first manifest with that id;
      later duplicates change nothing. */
  lemma {:induction false} FirstManifestWins(ms: seq<Manifest>, i: int, env: map<string, string>,
                                             config: map<string, map<string, bool>>, mountError: string -> Option<string>)
    requires FirstOf(ms, i)
    ensures var t := LoadAll(Tables(map[], map[], []), ms, env, config, mountError);
            && ms[i].id in t.manifests && t.manifests[ms[i].id].manifest == ms[i]
            && ms[i].id in t.states && t.states[ms[i].id] == InitialState(ms[i], Enabled(env, config, ms[i]), mountError)
  {
    var n := |ms| - 1;
    var front := ms[..n];
    var t0 := LoadAll(Tables(map[], map[], []), front, env, config, mountError);
    assert LoadAll(Tables(map[], map[], []), ms, env, config, mountError) == LoadOne(t0, ms[n], env, config, mountError);
    if i < n {
      assert front[i] == ms[i];
      assert FirstOf(front, i);
      FirstManifestWins(front, i, env, config, mountError);
      LoadOneKeeps(t0, ms[n], ms[i].id, env, config, mountError);
    } else {
      LastManifestAdded(ms, env, config, mountError);
    }
  }

  /** The base case of `FirstManifestWins`: the last manifest's id is new, so it is added. */
  lemma LastManifestAdded(ms: seq<Manifest>, env: map<string, string>, config: map<string, map<string, bool>>,
                          mountError: string -> Option<string>)
    requires FirstOf(ms, |ms| - 1)
    ensures var n := |ms| - 1;
            var t0 := LoadAll(Tables(map[], map[], []), ms[..n], env, config, mountError);
            var t := LoadOne(t0, ms[n], env, config, mountError);
            && ms[n].id in t.manifests && t.manifests[ms[n].id].manifest == ms[n]
            && ms[n].id in t.states && t.states[ms[n].id] == InitialState(ms[n], Enabled(env, config, ms[n]), mountError)
  {
    var n := |ms| - 1;
    var front := ms[..n];
    var t0 := LoadAll(Tables(map[], map[], []), front, env, config, mountError);
    LoadAllKeys(front, env, config, mountError);
    assert forall k :: 0 <= k < n ==> front[k].id == ms[k].id;
    LoadOneAdds(t0, ms[n], env, config, mountError);
  }

  // ---------------------------------------------------------------- reports and the guard

  /** `guard(module_id)`: 503 when the module is not enabled or disabled, or errored;
      healthy and degraded modules pass. */
  function Guard(states: map<string, ModuleState>, moduleId: string): (r: Outcome)
    ensures moduleId !in states ==> r == Fail(KeyError(moduleId))
    ensures moduleId in states ==>
              (r.Pass? <==> states[moduleId].enabled && states[moduleId].status != "disabled"
                            && states[moduleId].status != "error")
    ensures r.Fail? && moduleId in states ==> r.error.HttpError? && r.error.status == 503
  {
    if moduleId !in states then Fail(KeyError(moduleId))
    else
      var s := states[moduleId];
      if !s.enabled || s.status == "disabled" then Fail(HttpError(503, "Module disabled"))
      else if s.status == "error" then Fail(HttpError(503, "Module errored"))
      else Pass
  }

  /** `_update_state`. */
  function UpdateState(states: map<string, ModuleState>, moduleId: string, status: string, error: Option<string>)
    : (r: map<string, ModuleState>)
    ensures r.Keys == states.Keys
    ensures forall k :: k in states && k != moduleId ==> r[k] == states[k]
    ensures moduleId !in states || (status == "healthy" && !states[moduleId].enabled) ==> r == states
    ensures moduleId in states && !(status == "healthy" && !states[moduleId].enabled) ==>
              r[moduleId] == states[moduleId].(status := if states[moduleId].enabled then status else "disabled",
                                                lastError := error)
  {
    if moduleId !in states then states
    else
      var s := states[moduleId];
      if status == "healthy" && !s.enabled then states
      else states[moduleId := s.(status := if s.enabled then status else "disabled", lastError := error)]
  }

  // ---------------------------------------------------------------- the health monitor

  datatype Probe = Responded(code: int) | Raised(message: string)

  function ProbeOk(p: Probe): bool
  {
    p.Responded? && p.code == 200
  }

  /** `str(exc)` of a failed probe. */
  function ProbeError(p: Probe): string
  {
    match p
    case Responded(code) => "Health returned " + IntToString(code)
    case Raised(message) => message
  }

  /** The monitor's `failures` counter after `probes`: the failures since the last success. */
  function FailureRun(probes: seq<Probe>): nat
  {
    if probes == [] then 0
    else if ProbeOk(probes[|probes| - 1]) then 0
    else FailureRun(probes[..|probes| - 1]) + 1
  }

  /** The report sent after the last of `probes`, if any. */
  function Report(probes: seq<Probe>): Option<(string, Option<string>)>
    requires probes != []
  {
    var last := probes[|probes| - 1];
    if ProbeOk(last) then Some(("healthy", None))
    else if FailureRun(probes) >= 3 then Some(("degraded", Some(ProbeError(last))))
    else None
  }

  /** The counter reaches `k` exactly when the last `k` probes all failed. */
  lemma {:induction false} FailureRunAtLeast(probes: seq<Probe>, k: nat)
    requires k <= |probes|
    ensures FailureRun(probes) >= k <==> forall j :: |probes| - k <= j < |probes| ==> !ProbeOk(probes[j])
  {
    if k > 0 {
      var n := |probes|;
      var front := probes[..n - 1];
      if !ProbeOk(probes[n - 1]) {
        FailureRunAtLeast(front, k - 1);
        assert forall j :: n - k <= j < n - 1 ==> front[j] == probes[j];
      }
    }
  }

  /** A degraded report is sent exactly when the last three probes all failed. */
  lemma DegradedAfterThreeFailures(probes: seq<Probe>)
    requires probes != []
    ensures (Report(probes).Some? && Report(probes).value.0 == "degraded")
            <==> |probes| >= 3 && forall k :: |probes| - 3 <= k < |probes| ==> !ProbeOk(probes[k])
  {
    if |probes| >= 3 {
      FailureRunAtLeast(probes, 3);
    } else {
      FailureRunBound(probes);
    }
  }

  lemma {:induction false} FailureRunBound(probes: seq<Probe>)
    ensures FailureRun(probes) <= |probes|
  {
    if probes != [] {
      FailureRunBound(probes[..|probes| - 1]);
    }
  }

  /** `max(5, interval_sec)`, 30 when there is no health spec. */
  function Interval(m: Manifest): (r: int)
    ensures r >= 5
    ensures m.health.Some? && m.health.value.intervalSec >= 5 ==> r == m.health.value.intervalSec
  {
    var requested := if m.health.Some? then m.health.value.intervalSec else 30;
    if requested > 5 then requested else 5
  }

  /** The states after the monitor of `moduleId` has run through `probes`. */
  function Monitored(states: map<string, ModuleState>, moduleId: string, probes: seq<Probe>): map<string, ModuleState>
  {
    if probes == [] then states
    else
      var before := Monitored(states, moduleId, probes[..|probes| - 1]);
      var report := Report(probes);
      if report.Some? then UpdateState(before, moduleId, report.value.0, report.value.1) else before
  }

  function StatesOf(states: map<string, ModuleState>, ids: seq<string>): (r: seq<ModuleState>)
    requires forall k :: k in ids ==> k in states
    ensures |r| == |ids| && forall i :: 0 <= i < |ids| ==> r[i] == states[ids[i]]
  {
    if ids == [] then [] else [states[ids[0]]] + StatesOf(states, ids[1..])
  }

  // ---------------------------------------------------------------- the manager

  class ModuleManager {
    var config: map<string, map<string, bool>>
    var manifests: map<string, LoadedModule>
    var states: map<string, ModuleState>
    var order: seq<string>

    ghost predicate Valid()
      reads this
    {
      && manifests.Keys == states.Keys && (forall k :: k in states ==> states[k].id == k)
      && (forall k :: k in states <==> k in order)
    }

    constructor (config: map<string, map<string, bool>>)
      ensures Valid() && this.config == config && manifests == map[] && states == map[] && order == []
    {
      this.config := config;
      manifests := map[];
      states := map[];
      order := [];
    }

    /** `load` over the manifests in sorted path order. */
    method Load(ms: seq<Manifest>, env: map<string, string>, mountError: string -> Option<string>)
      requires Valid()
      modifies this
      ensures Valid() && config == old(config)
      ensures Tables(manifests, states, order)
              == LoadAll(Tables(old(manifests), old(states), old(order)), ms, env, config, mountError)
    {
      ghost var t0 := Tables(manifests, states, order);
      ghost var c0 := config;
      var i := 0;
      assert ms[..0] == [];
      assert Tables(manifests, states, order) == LoadAll(t0, ms[..0], env, c0, mountError);
      while i < |ms|
        invariant 0 <= i <= |ms| && Valid() && config == c0
        invariant Tables(manifests, states, order) == LoadAll(t0, ms[..i], env, c0, mountError)
      {
        LoadAllStep(t0, ms, i, env, c0, mountError);
        LoadManifest(ms[i], env, mountError);
        i := i + 1;
      }
      assert ms[..|ms|] == ms;
    }

    /** The body of `load`'s loop for one manifest. */
    method LoadManifest(m: Manifest, env: map<string, string>, mountError: string -> Option<string>)
      requires Valid()
      modifies this
      ensures Valid() && config == old(config)
      ensures Tables(manifests, states, order)
              == LoadOne(Tables(old(manifests), old(states), old(order)), m, env, config, mountError)
    {
      ghost var t := Tables(manifests, states, order);
      if m.id !in manifests {
        var enabled := Enabled(env, config, m);
        manifests := manifests[m.id := LoadedModule(m, Included(m, enabled, mountError))];
        states := states[m.id := InitialState(m, enabled, mountError)];
        order := order + [m.id];
      }
      assert Tables(manifests, states, order) == LoadOne(t, m, env, config, mountError);
    }

    /** `_update_state`. */
    method ReportState(moduleId: string, status: string, error: Option<string>)
      requires Valid()
      modifies this
      ensures Valid() && states == UpdateState(old(states), moduleId, status, error)
      ensures manifests == old(manifests) && config == old(config) && order == old(order)
    {
      if moduleId !in states {
        return;
      }
      var s := states[moduleId];
      if status == "healthy" && !s.enabled {
        return;
      }
      states := states[moduleId := s.(status := if s.enabled then status else "disabled", lastError := error)];
    }

    /** `set_enabled`: 404 for an unknown module; otherwise healthy or disabled, the error
        cleared only when enabling, and the config entry recorded. Enabling a module with a
        backend whose routers are not included mounts it, and a failed mount propagates its
        error after the state has been written. A module without a backend is never mounted. */
    method SetEnabled(moduleId: string, enabled: bool, mountError: string -> Option<string>)
        returns (r: Result<ModuleState>)
      requires Valid()
      modifies this
      ensures Valid() && order == old(order)
      ensures moduleId !in old(manifests) ==>
                r == Err(HttpError(404, "Unknown module")) && states == old(states) && config == old(config)
                && manifests == old(manifests)
      ensures moduleId in old(manifests) ==>
                var s := old(states)[moduleId];
                var s2 := s.(enabled := enabled, status := if enabled then "healthy" else "disabled",
                             lastError := if enabled then None else s.lastError);
                var lm := old(manifests)[moduleId];
                var mounting := enabled && !lm.included && lm.manifest.hasBackend;
                && states == old(states)[moduleId := s2]
                && config == old(config)[moduleId := map["enabled" := enabled]]
                && (mounting && mountError(moduleId).Some? ==>
                      r == Err(ValueError(mountError(moduleId).value)) && manifests == old(manifests))
                && (!(mounting && mountError(moduleId).Some?) ==>
                      r == Ok(s2)
                      && manifests == old(manifests)[moduleId := lm.(included := lm.included || mounting)])
    {
      if moduleId !in manifests {
        return Err(HttpError(404, "Unknown module"));
      }
      var s := states[moduleId];
      var s2 := s.(enabled := enabled, status := if enabled then "healthy" else "disabled",
                   lastError := if enabled then None else s.lastError);
      states := states[moduleId := s2];
      config := config[moduleId := map["enabled" := enabled]];
      var lm := manifests[moduleId];
      if enabled && !lm.included && lm.manifest.hasBackend {
        if mountError(moduleId).Some? {
          return Err(ValueError(mountError(moduleId).value));
        }
        manifests := manifests[moduleId := lm.(included := true)];
      } else {
        manifests := manifests[moduleId := lm];
      }
      return Ok(s2);
    }

    /** `_monitor_health` for one module, through the probes made before the stop event: the
        counter resets on a 200, and a degraded report is sent once it reaches three. */
    method MonitorHealth(moduleId: string, probes: seq<Probe>) returns (failures: nat)
      requires Valid()
      modifies this
      ensures Valid() && manifests == old(manifests) && config == old(config) && order == old(order)
      ensures states == Monitored(old(states), moduleId, probes)
      ensures failures == FailureRun(probes)
    {
      ghost var s0 := states;
      failures := 0;
      var i := 0;
      while i < |probes|
        invariant 0 <= i <= |probes| && Valid()
        invariant manifests == old(manifests) && config == old(config) && order == old(order)
        invariant states == Monitored(s0, moduleId, probes[..i])
        invariant failures == FailureRun(probes[..i])
      {
        var probe := probes[i];
        assert probes[..i + 1][..i] == probes[..i] && probes[..i + 1][i] == probe;
        if ProbeOk(probe) {
          failures := 0;
          ReportState(moduleId, "healthy", None);
        } else {
          failures := failures + 1;
          if failures >= 3 {
            ReportState(moduleId, "degraded", Some(ProbeError(probe)));
          }
        }
        i := i + 1;
      }
      assert probes[..|probes|] == probes;
    }

    /** `states()`: the states in load order. */
    function States(): (r: seq<ModuleState>)
      requires Valid()
      reads this
      ensures |r| == |order| && forall i :: 0 <= i < |order| ==> r[i] == states[order[i]]
    {
      StatesOf(states, order)
    }
  }
}
