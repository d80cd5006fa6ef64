// Saving scenarios and starting runs from the saved versions. A run is handed the version's
// own slices and header maps, and WithEnv and Normalized write through them.
module SavedVersions {
  import opened Prelude
  import opened Environment
  import opened RunLifecycle
  import opened Scenarios
  import opened MemoryStore
  import opened Guardrails

  // Neither edit would change anything the scenario refers to.
  ghost predicate SettledScenario(sc: Scenario, env: Environment)
    reads sc.targetHeaders, sc.slices, HeaderObjectsOf(sc.slices)
  {
    Settled(sc.slices, env) && sc.targetHeaders != null && HeadersFixed(sc.targetHeaders, env)
  }

  // A second expansion of anything in the scenario would do no more than the first.
  ghost predicate ScenarioStays(sc: Scenario, env: Environment)
    reads sc.targetHeaders, sc.slices, HeaderObjectsOf(sc.slices)
  {
    && Stay(HeaderTexts(HeadersValue(sc.targetHeaders)), env)
    && forall k | 0 <= k < |sc.slices| :: AllStay(Values(sc.slices[k]), env)
  }

  // As decoding builds it: nothing the scenario refers to occurs in it twice.
  ghost predicate Decoded(sc: Scenario)
    reads sc.slices
  {
    Apart(sc.slices) && sc.targetHeaders !in HeaderObjectsOf(sc.slices)
  }

  ghost predicate AllSettled(versions: Versions, env: Environment)
    reads *
  {
    forall id, i | id in versions && 0 <= i < |versions[id]| :: SettledScenario(versions[id][i].scenario, env)
  }

  // The scenario refers to nothing that a saved version refers to.
  ghost predicate NewTo(sc: Scenario, versions: Versions)
    reads *
  {
    forall id, i | id in versions && 0 <= i < |versions[id]| :: Unshared(sc, versions[id][i].scenario)
  }

  ghost predicate Unshared(sc: Scenario, saved: Scenario)
    reads sc.slices, saved.slices
  {
    && (forall a | a in saved.slices :: a !in sc.slices)
    && (forall h | h in HeaderObjectsOf(saved.slices) + {saved.targetHeaders} ::
          h == null || (h != sc.targetHeaders && h !in HeaderObjectsOf(sc.slices)))
  }

  // What the API handlers, the runner and the compiler all do with a scenario before using it.
  method Prepare(sc: Scenario, env: Environment) returns (r: Scenario)
    modifies sc.targetHeaders, sc.slices, HeaderObjectsOf(sc.slices)
    ensures r.slices == sc.slices && r.traffic == NormalTraffic(sc.traffic)
    ensures r.targetHeaders != null
    ensures if sc.targetHeaders == null then fresh(r.targetHeaders) else r.targetHeaders == sc.targetHeaders
    ensures old(Apart(sc.slices) && HeadersBeside(sc, env)) ==>
              forall k | 0 <= k < |sc.slices| :: Values(sc.slices[k]) == Prepared(old(Values(sc.slices[k])), env)
    ensures old(Decoded(sc)) ==>
              r.targetHeaders.entries == if sc.targetHeaders == null then map[] else ExpandEntries(old(sc.targetHeaders.entries), env)
    ensures forall h | h in HeaderObjectsOf(sc.slices) :: h in old(HeaderObjectsOf(sc.slices)) || fresh(h)
    ensures old(Settled(sc.slices, env) && HeadersBeside(sc, env)) ==>
              && (forall b: array<Request> | old(allocated(b)) :: b[..] == old(b[..]))
              && (forall h: HeaderMap | old(allocated(h)) && h != sc.targetHeaders :: h.entries == old(h.entries))
              && (old(HeadersFixed(sc.targetHeaders, env)) ==> HeadersValue(sc.targetHeaders) == old(HeadersValue(sc.targetHeaders)))
  {
    hide Fixed, Normal, ExpandAll, NormalizeAll, ValueOf, Values, Separate, Expand;
    ghost var settled := Settled(sc.slices, env) && HeadersBeside(sc, env);
    var expanded := WithEnv(sc, env);
    if settled {
      forall k | 0 <= k < |sc.slices|
        ensures Values(sc.slices[k]) == old(Values(sc.slices[k]))
      {
        assert sc.slices[k][..] == old(sc.slices[k][..]);
        assert HeaderObjects(sc.slices[k]) == old(HeaderObjects(sc.slices[k]));
        KeptValues(sc.slices[k]);
      }
      assert AllNormal(expanded.slices);
    }
    r := Normalized(expanded);
  }

  // Preparing a newly decoded scenario touches no saved version, and leaves the scenario settled
  // exactly when none of its texts would be expanded further a second time.
  method PrepareNew(sc: Scenario, env: Environment, ghost versions: Versions) returns (r: Scenario)
    requires Decoded(sc) && NewTo(sc, versions)
    modifies sc.targetHeaders, sc.slices, HeaderObjectsOf(sc.slices)
    ensures r.slices == sc.slices
    ensures forall k | 0 <= k < |sc.slices| :: Values(sc.slices[k]) == Prepared(old(Values(sc.slices[k])), env)
    ensures HeadersValue(r.targetHeaders) ==
              Entries(if sc.targetHeaders == null then map[] else ExpandEntries(old(sc.targetHeaders.entries), env))
    ensures forall h | h in HeaderObjectsOf(sc.slices) :: h in old(HeaderObjectsOf(sc.slices)) || fresh(h)
    ensures r.targetHeaders == sc.targetHeaders || fresh(r.targetHeaders)
    ensures SettledScenario(r, env) <==> old(ScenarioStays(sc, env))
    ensures old(AllSettled(versions, env)) ==> AllSettled(versions, env)
  {
    hide Fixed, Normal, Values, Prepared, Separate, Stay, AllStay, ExpandEntries, HeaderTexts;
    ghost var headers := HeadersValue(sc.targetHeaders);
    r := Prepare(sc, env);
    HeadersStayIff(headers, env);
    NothingExpands(env);
    assert HeadersFixed(r.targetHeaders, env) <==> Stay(HeaderTexts(headers), env);
    forall k | 0 <= k < |sc.slices|
      ensures Fixed(Values(sc.slices[k]), env) <==> AllStay(old(Values(sc.slices[k])), env)
      ensures Normal(Values(sc.slices[k]))
    {
      PreparedStaysIff(old(Values(sc.slices[k])), env);
    }
    if old(AllSettled(versions, env)) {
      forall id, i | id in versions && 0 <= i < |versions[id]|
        ensures SettledScenario(versions[id][i].scenario, env)
      {
        hide SettledScenario;
        var saved := versions[id][i].scenario;
        assert old(Unshared(sc, saved)) && old(SettledScenario(saved, env));
        assert forall k | 0 <= k < |saved.slices| :: saved.slices[k] in saved.slices;
        assert forall h | h in old(HeaderObjectsOf(saved.slices)) :: h.entries == old(h.entries);
      }
    }
  }

  // ----- targets -------------------------------------------------------------

  datatype Target = Target(baseURL: string, headers: map<string, string>)

  // The target of the request, or else the one the scenario names; ids come without blanks
  // around them.
  function TargetFor(explicit: string, sc: Scenario): string {
    if explicit == "" then sc.targetID else explicit
  }

  // A scenario with a target gets a header map of its own, in which its own headers win.
  method ResolveTarget(sc: Scenario, explicit: string, targets: map<string, Target>) returns (r: Option<Scenario>)
    ensures var id := TargetFor(explicit, sc);
            && (r.None? <==> id != "" && id !in targets)
            && (id == "" ==> r == Some(sc))
            && (r.Some? && id != "" ==>
                  && r.value == sc.(targetID := id, baseURL := targets[id].baseURL, targetHeaders := r.value.targetHeaders)
                  && r.value.targetHeaders != null && fresh(r.value.targetHeaders)
                  && r.value.targetHeaders.entries ==
                     targets[id].headers + if sc.targetHeaders == null then map[] else sc.targetHeaders.entries)
    ensures r.Some? && explicit != "" ==> r.value.targetID == explicit && explicit in targets && r.value.baseURL == targets[explicit].baseURL
    ensures explicit == "" ==> (r.None? <==> sc.targetID != "" && sc.targetID !in targets)
    ensures r.Some? && explicit == "" ==> r.value.targetID == sc.targetID && (sc.targetID == "" ==> r.value == sc)
  {
    var id := TargetFor(explicit, sc);
    if id == "" {
      return Some(sc);
    }
    if id !in targets {
      return None;
    }
    var merged := targets[id].headers;
    if sc.targetHeaders != null {
      merged := merged + sc.targetHeaders.entries;
    }
    var h := new HeaderMap(merged);
    return Some(sc.(targetID := id, baseURL := targets[id].baseURL, targetHeaders := h));
  }

  // ----- saving --------------------------------------------------------------

  // The POST (new id) and PUT (saved id) handlers once the target is resolved; valid is what
  // Validate and the guardrails said. What is saved is the prepared scenario. Saved versions
  // stay settled exactly when the new one is.
  method SaveScenario(store: Memory, update: bool, id: string, versionID: string, sc: Scenario, env: Environment, valid: bool)
    returns (saved: Option<ScenarioRecord>)
    requires store.Valid()
    requires Decoded(sc) && NewTo(sc, store.scenarioVersions)
    requires !update ==> id !in store.scenarios && id !in store.scenarioVersions
    modifies store`scenarios, store`scenarioVersions, sc.targetHeaders, sc.slices, HeaderObjectsOf(sc.slices)
    ensures store.Valid() && Grows(old(store.scenarioVersions), store.scenarioVersions)
    ensures saved.Some? <==> valid && (update ==> id in old(store.scenarios))
    ensures saved.None? ==> store.scenarioVersions == old(store.scenarioVersions)
    ensures saved.Some? ==>
              && store.scenarioVersions == WithVersion(old(store.scenarioVersions), id, versionID, saved.value.scenario)
              && saved.value.scenario.slices == sc.slices
              && HeadersValue(saved.value.scenario.targetHeaders) ==
                 Entries(if sc.targetHeaders == null then map[] else ExpandEntries(old(sc.targetHeaders.entries), env))
    ensures forall k | 0 <= k < |sc.slices| :: Values(sc.slices[k]) == Prepared(old(Values(sc.slices[k])), env)
    ensures forall h | h in HeaderObjectsOf(sc.slices) :: h in old(HeaderObjectsOf(sc.slices)) || fresh(h)
    ensures saved.Some? ==> var h := saved.value.scenario.targetHeaders; h == sc.targetHeaders || fresh(h)
    ensures old(AllSettled(store.scenarioVersions, env)) ==>
              (AllSettled(store.scenarioVersions, env) <==> saved.None? || old(ScenarioStays(sc, env)))
  {
    hide AllSettled, NewTo, SettledScenario, ScenarioStays, Decoded, CellsOk, VersionsOk, StampsOk, Grows, Values, Prepared,
         ExpandEntries, HeaderObjectsOf, WithVersion;
    UnchangedGrows(store.scenarioVersions);
    var prepared := PrepareNew(sc, env, store.scenarioVersions);
    if valid {
      saved := CommitScenario(store, update, id, versionID, prepared, env);
    } else {
      saved := None;
    }
  }

  lemma WithVersionSettledIff(versions: Versions, id: string, versionID: string, sc: Scenario, env: Environment)
    requires AllSettled(versions, env)
    ensures AllSettled(WithVersion(versions, id, versionID, sc), env) <==> SettledScenario(sc, env)
  {
    hide SettledScenario;
    var later: Versions := WithVersion(versions, id, versionID, sc);
    assert later[id][|SavedUnder(versions, id)|].scenario == sc;
  }

  // The store's own maps change and nothing that a scenario refers to.
  method CommitScenario(store: Memory, update: bool, id: string, versionID: string, sc: Scenario, ghost env: Environment)
    returns (saved: Option<ScenarioRecord>)
    requires store.Valid()
    requires !update ==> id !in store.scenarios && id !in store.scenarioVersions
    modifies store`scenarios, store`scenarioVersions
    ensures store.Valid() && Grows(old(store.scenarioVersions), store.scenarioVersions)
    ensures saved.Some? <==> update ==> id in old(store.scenarios)
    ensures saved.None? ==> store.scenarioVersions == old(store.scenarioVersions)
    ensures saved.Some? ==>
              && store.scenarioVersions == WithVersion(old(store.scenarioVersions), id, versionID, saved.value.scenario)
              && saved.value.scenario == sc
    ensures old(AllSettled(store.scenarioVersions, env)) ==>
              (AllSettled(store.scenarioVersions, env) <==> saved.None? || old(SettledScenario(sc, env)))
  {
    hide SettledScenario, CellsOk, VersionsOk, StampsOk, Grows;
    if update {
      saved := store.UpdateScenario(id, versionID, sc);
    } else {
      var record := store.CreateScenario(id, versionID, sc);
      FirstVersion(old(store.scenarioVersions), id, versionID, sc);
      saved := Some(record);
    }
    ghost var versions: Versions := old(store.scenarioVersions);
    if old(AllSettled(versions, env)) {
      forall k: string, i: int | k in versions && 0 <= i < |versions[k]|
        ensures SettledScenario(versions[k][i].scenario, env)
      {
        var kept := versions[k][i].scenario;
        assert old(SettledScenario(kept, env));
        assert forall j | 0 <= j < |kept.slices| :: kept.slices[j] in kept.slices;
        assert forall h | h in old(HeaderObjectsOf(kept.slices)) :: h.entries == old(h.entries);
      }
      assert forall j | 0 <= j < |sc.slices| :: sc.slices[j] in sc.slices;
      assert forall h | h in old(HeaderObjectsOf(sc.slices)) :: h.entries == old(h.entries);
      assert SettledScenario(sc, env) == old(SettledScenario(sc, env));
      WithVersionSettledIff(versions, id, versionID, sc, env);
    }
  }

  // ----- starting runs -------------------------------------------------------

  // POST /v1/runs finds the scenario, resolves its target and creates the run: three calls on
  // the store, between which other handlers may run.

  // The version a run is started from: one by number, or the last when the number is not positive.
  ghost predicate Picks(versions: Versions, scenarioID: string, versionNumber: int, used: VersionRecord) {
    && scenarioID in versions
    && 0 < |versions[scenarioID]| && versionNumber <= |versions[scenarioID]|
    && used == versions[scenarioID][if versionNumber > 0 then versionNumber - 1 else |versions[scenarioID]| - 1]
  }

  method FindSaved(store: Memory, scenarioID: string, versionNumber: int)
    returns (found: Option<Scenario>, versionRef: seq<VersionRecord>, ghost used: VersionRecord)
    requires store.Valid()
    ensures found.None? <==> scenarioID == "" || scenarioID !in store.scenarios || versionNumber > |store.scenarioVersions[scenarioID]|
    ensures found.Some? ==> Picks(store.scenarioVersions, scenarioID, versionNumber, used) && found.value == used.scenario
    ensures versionRef == if found.Some? && versionNumber > 0 then [used] else []
    ensures found.Some? ==>
              used in store.scenarioVersions[scenarioID] &&
              used.versionNumber == if versionNumber > 0 then versionNumber else store.scenarios[scenarioID].currentVersionNumber
  {
    hide CellsOk, StampsOk;
    used := VersionRecord("", "", 0, Scenario(0, "", "", "", "", null, Traffic(Unset, 0, 0, 0, 0, 0), []));
    if scenarioID == "" {
      return None, [], used;
    }
    if versionNumber > 0 {
      var version := store.GetScenarioVersion(scenarioID, versionNumber);
      if version.Some? {
        used := version.value;
        return Some(version.value.scenario), [version.value], used;
      }
    } else if scenarioID in store.scenarios {
      used := store.scenarioVersions[scenarioID][|store.scenarioVersions[scenarioID]| - 1];
      return Some(store.scenarios[scenarioID].scenario), [], used;
    }
    return None, [], used;
  }

  ghost function StorageOf(sc: Scenario): set<object?>
    reads sc.slices
  {
    var headers: set<object?> := HeaderObjectsOf(sc.slices) + {sc.targetHeaders};
    headers + set a: array<Request> | a in sc.slices :: a as object
  }

  ghost function Storage(versions: Versions): set<object?>
    reads *
  {
    set id, i, o | id in versions && 0 <= i < |versions[id]| && o in StorageOf(versions[id][i].scenario) :: o
  }

  // The objects include all that a saved version refers to.
  ghost predicate Covers(others: set<object?>, versions: Versions)
    reads *
  {
    forall id, i | id in versions && 0 <= i < |versions[id]| ::
      var sc := versions[id][i].scenario;
      && sc.targetHeaders in others
      && (forall a | a in sc.slices :: a in others)
      && (forall a, h | a in sc.slices && h in HeaderObjects(a) :: h in others)
  }

  lemma StorageCovers(versions: Versions)
    ensures Covers(Storage(versions), versions)
  {
    forall id, i | id in versions && 0 <= i < |versions[id]|
      ensures var sc := versions[id][i].scenario;
              && sc.targetHeaders in Storage(versions)
              && (forall a | a in sc.slices :: a in Storage(versions))
              && (forall a, h | a in sc.slices && h in HeaderObjects(a) :: h in Storage(versions))
    {
      var sc := versions[id][i].scenario;
      assert forall o | o in StorageOf(sc) :: o in Storage(versions);
      assert forall h | h in HeaderObjectsOf(sc.slices) :: h in Storage(versions);
    }
  }

  // Preparing the scenario leaves the other storage alone: the scenario does not refer to it, or
  // preparing writes nothing new but into target headers of the scenario's own.
  ghost predicate Beside(sc: Scenario, others: set<object?>, env: Environment)
    reads sc.targetHeaders, sc.slices, HeaderObjectsOf(sc.slices)
  {
    || (forall o | o in StorageOf(sc) && o != null :: o !in others)
    || (Settled(sc.slices, env) &&
        (HeadersFixed(sc.targetHeaders, env) || (sc.targetHeaders !in HeaderObjectsOf(sc.slices) && sc.targetHeaders !in others)))
  }

  // A newly decoded scenario and a settled version are both safe to prepare, ...
  lemma NewIsBeside(sc: Scenario, versions: Versions, env: Environment)
    requires NewTo(sc, versions)
    ensures Beside(sc, Storage(versions), env)
  {
    hide Settled, HeadersFixed;
    forall o | o in Storage(versions) && o != null
      ensures o !in StorageOf(sc)
    {
      var id, i :| id in versions && 0 <= i < |versions[id]| && o in StorageOf(versions[id][i].scenario);
      assert Unshared(sc, versions[id][i].scenario);
    }
  }

  lemma SettledIsBeside(versions: Versions, id: string, i: nat, others: set<object?>, env: Environment)
    requires AllSettled(versions, env) && id in versions && i < |versions[id]|
    ensures Beside(versions[id][i].scenario, others, env)
  {
    assert SettledScenario(versions[id][i].scenario, env);
  }

  // ... and stay so with the header map that a target brings.
  lemma TargetIsBeside(sc: Scenario, r: Scenario, others: set<object?>, env: Environment)
    requires Beside(sc, others, env) && r.slices == sc.slices
    requires r.targetHeaders !in HeaderObjectsOf(sc.slices) && r.targetHeaders !in others
    ensures Beside(r, others, env)
  {
    hide Settled, HeadersFixed;
  }

  method PrepareBeside(sc: Scenario, env: Environment, ghost others: set<object?>) returns (r: Scenario)
    modifies sc.targetHeaders, sc.slices, HeaderObjectsOf(sc.slices)
    ensures r.slices == sc.slices && r.traffic == NormalTraffic(sc.traffic)
    ensures old(Apart(sc.slices) && HeadersBeside(sc, env)) ==>
              forall k | 0 <= k < |sc.slices| :: Values(sc.slices[k]) == Prepared(old(Values(sc.slices[k])), env)
    ensures old(Beside(sc, others, env)) ==> forall a: array<Request> | a in others :: a[..] == old(a[..])
    ensures old(Beside(sc, others, env)) ==> forall h: HeaderMap | h in others :: h.entries == old(h.entries)
  {
    hide Settled, Values, Prepared, Decoded, ExpandEntries;
    ghost var apart := forall o | o in StorageOf(sc) && o != null :: o !in others;
    r := Prepare(sc, env);
    if apart {
      assert forall a | a in sc.slices :: a in old(StorageOf(sc));
      assert forall a: array<Request> | a in others :: a !in sc.slices && a[..] == old(a[..]);
    }
  }

  // From a scenario that is safe to prepare, every saved version reads as before.
  method PrepareSafe(sc: Scenario, env: Environment, ghost versions: Versions, ghost others: set<object?>) returns (r: Scenario)
    requires Covers(others, versions)
    modifies sc.targetHeaders, sc.slices, HeaderObjectsOf(sc.slices)
    ensures r.slices == sc.slices && r.traffic == NormalTraffic(sc.traffic)
    ensures old(Apart(sc.slices) && HeadersBeside(sc, env)) ==>
              forall k | 0 <= k < |sc.slices| :: Values(sc.slices[k]) == Prepared(old(Values(sc.slices[k])), env)
    ensures old(Beside(sc, others, env)) ==>
              forall id, i, a | id in versions && 0 <= i < |versions[id]| && a in versions[id][i].scenario.slices ::
                Values(a) == old(Values(a))
    ensures old(Beside(sc, others, env)) ==>
              forall id, i | id in versions && 0 <= i < |versions[id]| ::
                HeadersValue(versions[id][i].scenario.targetHeaders) == old(HeadersValue(versions[id][i].scenario.targetHeaders))
  {
    hide Settled, Values, Prepared, Decoded, Beside;
    ghost var safe := Beside(sc, others, env);
    r := PrepareBeside(sc, env, others);
    forall id, i, a | safe && id in versions && 0 <= i < |versions[id]| && a in versions[id][i].scenario.slices
      ensures Values(a) == old(Values(a))
    {
      assert a in others && forall h | h in old(HeaderObjects(a)) :: h in others;
      assert a[..] == old(a[..]);
      assert HeaderObjects(a) == old(HeaderObjects(a));
      KeptValues(a);
    }
  }

  lemma CapsKeepAdmissible(t: Traffic, caps: Caps)
    requires Admissible(t, caps)
    ensures Admissible(ApplyRunGuardrails(t, caps), caps)
  {
    AdmittedRunIsCapped(t, caps);
  }

  predicate RunOf(record: RunRecord, sc: Scenario, scenarioID: string, targetID: string, caps: Caps) {
    && record.scenario.slices == sc.slices
    && record.scenario.traffic == ApplyRunGuardrails(NormalTraffic(sc.traffic), caps)
    && Admissible(record.scenario.traffic, caps)
    && record.run.scenarioID == scenarioID && record.run.targetID == targetID
  }

  // What is left of POST /v1/runs once a scenario is found and its target resolved: the run gets
  // the prepared scenario, and its stamp is read from the store as it is now. From a scenario that
  // is safe to prepare, every saved version reads as before.
  method CreateFrom(store: Memory, runID: string, scenarioID: string, targetID: string, sc: Scenario, versionRef: seq<VersionRecord>,
                    env: Environment, caps: Caps, valid: bool, ghost versions: Versions, ghost others: set<object?>)
    returns (created: Option<RunRecord>)
    requires store.Valid() && versions == store.scenarioVersions && Covers(others, versions)
    requires runID !in store.runs && runID !in store.runEvents
    requires |versionRef| > 0 ==> Names(versions, versionRef[0].id, versionRef[0].versionNumber)
    modifies store`runs, store`runEvents, sc.targetHeaders, sc.slices, HeaderObjectsOf(sc.slices)
    ensures store.Valid()
    ensures created.Some? <==> valid && Admissible(NormalTraffic(sc.traffic), caps)
    ensures created.None? ==> store.runs == old(store.runs) && store.runEvents == old(store.runEvents)
    ensures created.Some? ==>
              && store.runs == old(store.runs)[runID := created.value]
              && RunOf(created.value, sc, scenarioID, targetID, caps)
              && (created.value.run.versionID, created.value.run.versionNumber) == StampFor(store.scenarios, scenarioID, versionRef)
    ensures old(Apart(sc.slices) && HeadersBeside(sc, env)) ==>
              forall k | 0 <= k < |sc.slices| :: Values(sc.slices[k]) == Prepared(old(Values(sc.slices[k])), env)
    ensures old(Beside(sc, others, env)) ==>
              forall id, saved, a | id in versions && saved in versions[id] && a in saved.scenario.slices :: Values(a) == old(Values(a))
    ensures old(Beside(sc, others, env)) ==>
              forall id, saved | id in versions && saved in versions[id] ::
                HeadersValue(saved.scenario.targetHeaders) == old(HeadersValue(saved.scenario.targetHeaders))
  {
    hide CellsOk, StampsOk, VersionsOk, Covers, Beside, Values, Decoded, Created, Prepared, Names, Admissible, ApplyRunGuardrails;
    var prepared := PrepareSafe(sc, env, versions, others);
    if !valid || !Admissible(prepared.traffic, caps) {
      return None;
    }
    CapsKeepAdmissible(prepared.traffic, caps);
    prepared := prepared.(traffic := ApplyRunGuardrails(prepared.traffic, caps));
    var record := store.CreateRun(runID, scenarioID, targetID, prepared, versionRef);
    return Some(record);
  }

  lemma StampOfUsed(scenarios: map<string, ScenarioRecord>, versions: Versions, scenarioID: string, versionNumber: int,
                    used: VersionRecord)
    requires VersionsOk(scenarios, versions) && Picks(versions, scenarioID, versionNumber, used) && scenarioID != ""
    ensures Names(versions, used.id, used.versionNumber)
    ensures StampFor(scenarios, scenarioID, if versionNumber > 0 then [used] else []) == (used.id, used.versionNumber)
  {
  }

  // Resolving the target of a settled version: the scenario is safe to prepare.
  method ResolveSaved(sc: Scenario, explicit: string, targets: map<string, Target>, env: Environment, ghost others: set<object?>)
    returns (r: Option<Scenario>)
    requires Beside(sc, others, env)
    ensures r.None? <==> TargetFor(explicit, sc) != "" && TargetFor(explicit, sc) !in targets
    ensures r.Some? ==>
              && Beside(r.value, others, env)
              && r.value.slices == sc.slices && r.value.traffic == sc.traffic
              && (r.value.targetHeaders == sc.targetHeaders || fresh(r.value.targetHeaders))
  {
    hide Settled, HeadersFixed, Beside;
    ghost var headers := HeaderObjectsOf(sc.slices);
    r := ResolveTarget(sc, explicit, targets);
    if r.Some? && TargetFor(explicit, sc) != "" {
      assert HeaderObjectsOf(sc.slices) == headers;
      TargetIsBeside(sc, r.value, others, env);
    }
  }

  // Versions that read as before are settled as before.
  method CreateSettled(store: Memory, runID: string, scenarioID: string, targetID: string, sc: Scenario, versionRef: seq<VersionRecord>,
                       env: Environment, caps: Caps, valid: bool, ghost others: set<object?>)
    returns (created: Option<RunRecord>)
    requires store.Valid() && AllSettled(store.scenarioVersions, env)
    requires Covers(others, store.scenarioVersions) && Beside(sc, others, env)
    requires runID !in store.runs && runID !in store.runEvents
    requires |versionRef| > 0 ==> Names(store.scenarioVersions, versionRef[0].id, versionRef[0].versionNumber)
    modifies store`runs, store`runEvents, sc.targetHeaders, sc.slices, HeaderObjectsOf(sc.slices)
    ensures store.Valid() && AllSettled(store.scenarioVersions, env)
    ensures created.None? ==> store.runs == old(store.runs) && store.runEvents == old(store.runEvents)
    ensures created.Some? ==>
              && store.runs == old(store.runs)[runID := created.value]
              && RunOf(created.value, sc, scenarioID, targetID, caps)
              && (created.value.run.versionID, created.value.run.versionNumber) == StampFor(store.scenarios, scenarioID, versionRef)
  {
    hide CellsOk, StampsOk, VersionsOk, Covers, Beside, Values, Decoded, Prepared, Names, RunOf, StampFor, Fixed, Normal;
    ghost var versions: Versions := store.scenarioVersions;
    created := CreateFrom(store, runID, scenarioID, targetID, sc, versionRef, env, caps, valid, versions, others);
    forall id: string, i: int | id in versions && 0 <= i < |versions[id]|
      ensures SettledScenario(versions[id][i].scenario, env)
    {
      var saved := versions[id][i].scenario;
      assert old(SettledScenario(saved, env));
      assert forall k | 0 <= k < |saved.slices| :: saved.slices[k] in saved.slices;
      assert forall k | 0 <= k < |saved.slices| :: Values(saved.slices[k]) == old(Values(saved.slices[k]));
    }
  }

  datatype Started = Missing | NoTarget | Rejected | Started(record: RunRecord)

  // The handler for a saved scenario when no other runs beside it. From settled versions nothing
  // that any of them refers to changes, and the run is stamped with the version it was given.
  method StartRun(store: Memory, runID: string, scenarioID: string, versionNumber: int, explicit: string,
                  targets: map<string, Target>, env: Environment, caps: Caps, valid: bool)
    returns (started: Started, ghost used: VersionRecord)
    requires store.Valid() && AllSettled(store.scenarioVersions, env)
    requires runID !in store.runs && runID !in store.runEvents
    modifies store`runs, store`runEvents, Storage(store.scenarioVersions)
    ensures store.Valid() && AllSettled(store.scenarioVersions, env)
    ensures started.Missing? <==> scenarioID == "" || scenarioID !in store.scenarios || versionNumber > |store.scenarioVersions[scenarioID]|
    ensures !started.Started? ==> store.runs == old(store.runs) && store.runEvents == old(store.runEvents)
    ensures started.Started? ==>
              && Picks(store.scenarioVersions, scenarioID, versionNumber, used)
              && store.runs == old(store.runs)[runID := started.record]
              && RunOf(started.record, used.scenario, scenarioID, TargetFor(explicit, used.scenario), caps)
              && started.record.run.versionID == used.id && started.record.run.versionNumber == used.versionNumber
  {
    hide CellsOk, StampsOk, VersionsOk, Beside, Values, Names, StampFor, AllSettled, Storage;
    ghost var versions: Versions := store.scenarioVersions;
    ghost var others := Storage(versions);
    var found, versionRef;
    found, versionRef, used := FindSaved(store, scenarioID, versionNumber);
    if found.None? {
      return Missing, used;
    }
    ghost var i := if versionNumber > 0 then versionNumber - 1 else |versions[scenarioID]| - 1;
    SettledIsBeside(versions, scenarioID, i, others, env);
    StampOfUsed(store.scenarios, versions, scenarioID, versionNumber, used);
    StorageCovers(versions);
    assert used.scenario == versions[scenarioID][i].scenario;
    var resolved := ResolveSaved(found.value, explicit, targets, env, others);
    if resolved.None? {
      return NoTarget, used;
    }
    assert Covers(others, versions);
    assert AllSettled(versions, env);
    hide Covers;
    var created := CreateSettled(store, runID, scenarioID, TargetFor(explicit, found.value), resolved.value, versionRef, env, caps, valid, others);
    started := if created.Some? then Started.Started(created.value) else Rejected;
  }

  // ----- a saved version that a run rewrites ---------------------------------

  lemma ChainedTwice()
    ensures Prepared([RequestValue("$A", "GET", "/", Nil, "", "", [])], CHAINED)[0].name == "$B"
    ensures forall r: RequestValue | r.name == "$B" :: Prepared([r], CHAINED)[0].name == "x"
  {
    hide Expand;
    ChainedIsUnstable();
  }

  method OneRequest(name: string) returns (sc: Scenario, requests: array<Request>)
    ensures fresh(requests) && requests.Length == 1 && sc.slices == [requests] && sc.targetHeaders == null
    ensures Values(requests) == [RequestValue(name, "GET", "/", Nil, "", "", [])] && HeaderObjects(requests) == {}
    ensures Decoded(sc)
  {
    requests := new Request[1][Request(name, "GET", "/", null, "", "", [])];
    sc := Scenario(1, "", "", "", "", null, Traffic(Load, 1, 1, 0, 0, 0), [requests]);
  }

  lemma OneSlice(slices: seq<array<Request>>, requests: array<Request>)
    requires slices == [requests]
    ensures HeaderObjectsOf(slices) == HeaderObjects(requests)
  {
    assert slices[0] == requests;
    assert forall h | h in HeaderObjects(slices[0]) :: h in HeaderObjectsOf(slices);
  }

  lemma SameKeys(store: Memory)
    requires VersionsOk(store.scenarios, store.scenarioVersions)
    ensures store.scenarios.Keys == store.scenarioVersions.Keys
  {
  }

  lemma NothingSaved(sc: Scenario)
    ensures NewTo(sc, map[])
  {
  }

  // The first scenario of a new store.
  method SaveFirst(sc: Scenario, requests: array<Request>, env: Environment) returns (store: Memory)
    requires requests.Length == 1 && sc.slices == [requests] && sc.targetHeaders == null && Decoded(sc)
    requires HeaderObjects(requests) == {}
    modifies requests
    ensures fresh(store) && store.Valid() && store.runs == map[] && store.runEvents == map[]
    ensures "s" in store.scenarios && "s" in store.scenarioVersions && |store.scenarioVersions["s"]| == 1
    ensures var saved := store.scenarioVersions["s"][0].scenario;
            saved.slices == [requests] && HeadersFixed(saved.targetHeaders, env) && fresh(saved.targetHeaders)
    ensures Values(requests) == Prepared(old(Values(requests)), env)
    ensures forall h | h in HeaderObjects(requests) :: fresh(h)
  {
    hide CellsOk, StampsOk, VersionsOk, Prepared, Values, Decoded, NewTo, Grows, StampsOk, AllSettled;
    store := new Memory();
    OneSlice(sc.slices, requests);
    NothingSaved(sc);
    var record := SaveScenario(store, false, "s", "v1", sc, env, true);
    OneSlice(sc.slices, requests);
    SameKeys(store);
    NothingExpands(env);
    assert sc.slices[0] == requests;
  }

  lemma OneSliceApart(slices: seq<array<Request>>, requests: array<Request>)
    requires requests.Length == 1 && slices == [requests]
    ensures Apart(slices)
  {
  }

  // The first run from that scenario.
  method RunFirst(store: Memory, requests: array<Request>, env: Environment)
    requires store.Valid() && store.runs == map[] && store.runEvents == map[]
    requires "s" in store.scenarios && "s" in store.scenarioVersions && |store.scenarioVersions["s"]| == 1
    requires var saved := store.scenarioVersions["s"][0].scenario;
             requests.Length == 1 && saved.slices == [requests] && HeadersFixed(saved.targetHeaders, env)
    modifies store`runs, store`runEvents, requests, HeaderObjects(requests), store.scenarioVersions["s"][0].scenario.targetHeaders
    ensures Values(requests) == Prepared(old(Values(requests)), env)
  {
    hide CellsOk, StampsOk, VersionsOk, Beside, Prepared, Values, Created, HeadersFixed, RunOf, Apart, Storage, Covers, StampFor;
    var found, versionRef, used := FindSaved(store, "s", 0);
    var sc := found.value;
    OneSlice(sc.slices, requests);
    OneSliceApart(sc.slices, requests);
    StorageCovers(store.scenarioVersions);
    var created := CreateFrom(store, "r", "s", "", sc, versionRef, env, Caps(0, 0), true,
                              store.scenarioVersions, Storage(store.scenarioVersions));
    assert sc.slices[0] == requests;
  }

  // Under the chained environment a scenario whose request is named $A is saved with the name
  // $B, and the first run started from it renames the request of the saved version to x.
  method RunRewritesSavedVersion() returns (saved: string, later: string)
    ensures saved == "$B" && later == "x"
  {
    hide CellsOk, StampsOk, VersionsOk, Prepared, HeadersFixed, Expand, Decoded;
    ChainedTwice();
    var sc, requests := OneRequest("$A");
    var store := SaveFirst(sc, requests, CHAINED);
    var version := store.scenarioVersions["s"][0];
    assert version.scenario.slices[0] == requests;
    saved := version.scenario.slices[0][0].name;
    ghost var once := Values(requests);
    assert once == [once[0]] && once[0].name == saved;
    RunFirst(store, requests, CHAINED);
    later := version.scenario.slices[0][0].name;
    assert Values(requests)[0].name == later;
  }
}
