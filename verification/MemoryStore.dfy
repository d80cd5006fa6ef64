// The in-memory store: runs with their logs, and scenarios with their immutable versions.
// Every method holds the store's lock, so each is one atomic step.
module MemoryStore {
  import opened Prelude
  import opened RunEvents
  import opened Reports
  import opened RunLifecycle
  import opened Scenarios

  datatype RunRecord = RunRecord(scenario: Scenario, run: Run)

  datatype ScenarioRecord = ScenarioRecord(scenario: Scenario, currentVersionID: string, currentVersionNumber: nat)

  datatype VersionRecord = VersionRecord(id: string, scenarioID: string, versionNumber: nat, scenario: Scenario)

  type Runs = map<string, RunRecord>
  type Logs = map<string, seq<Event>>
  type Versions = map<string, seq<VersionRecord>>

  // ----- the lifecycle view --------------------------------------------------

  function LogOf(logs: Logs, id: string): seq<Event> {
    if id in logs then logs[id] else []
  }

  function CellOf(runs: Runs, logs: Logs, id: string): Cell {
    Cell(if id in runs then Some(runs[id].run) else None, LogOf(logs, id))
  }

  ghost predicate CellsOk(runs: Runs, logs: Logs) {
    forall id: string :: Inv(CellOf(runs, logs, id))
  }

  // One operation on one run: its cell changed by that operation, and nothing else changed.
  ghost predicate Performed(runs: Runs, logs: Logs, runs': Runs, logs': Logs, id: string, op: Op) {
    && CellOf(runs', logs', id) == Apply(CellOf(runs, logs, id), op)
    && (forall other: string | other != id :: CellOf(runs', logs', other) == CellOf(runs, logs, other))
    && runs'.Keys == runs.Keys
    && (forall k | k in runs :: runs'[k].scenario == runs[k].scenario)
  }

  // ----- the versions view ---------------------------------------------------

  // Versions are numbered 1..n and the scenario record points at the last one.
  ghost predicate VersionsOk(scenarios: map<string, ScenarioRecord>, versions: Versions) {
    && scenarios.Keys == versions.Keys
    && forall id | id in scenarios ::
         var vs := versions[id];
         && |vs| > 0
         && (forall i | 0 <= i < |vs| :: vs[i].versionNumber == i + 1 && vs[i].scenarioID == id)
         && scenarios[id] == ScenarioRecord(vs[|vs| - 1].scenario, vs[|vs| - 1].id, |vs|)
  }

  ghost predicate Names(versions: Versions, versionID: string, versionNumber: nat) {
    exists id, i :: id in versions && 0 <= i < |versions[id]| &&
      versions[id][i].id == versionID && versions[id][i].versionNumber == versionNumber
  }

  predicate Unstamped(run: Run) {
    run.versionID == "" && run.versionNumber == 0
  }

  // A run's version stamp is empty or names a saved version.
  ghost predicate StampsOk(runs: Runs, versions: Versions) {
    forall id | id in runs :: Unstamped(runs[id].run) || Names(versions, runs[id].run.versionID, runs[id].run.versionNumber)
  }

  // No saved version changes and none disappears.
  ghost predicate Grows(versions: Versions, later: Versions) {
    forall id | id in versions :: id in later && versions[id] <= later[id]
  }

  lemma NamesForever(versions: Versions, later: Versions, versionID: string, versionNumber: nat)
    requires Grows(versions, later) && Names(versions, versionID, versionNumber)
    ensures Names(later, versionID, versionNumber)
  {
    var id, i :| id in versions && 0 <= i < |versions[id]| &&
                 versions[id][i].id == versionID && versions[id][i].versionNumber == versionNumber;
    assert later[id][i] == versions[id][i];
  }

  predicate SameStamp(run: Run, other: Run) {
    run.versionID == other.versionID && run.versionNumber == other.versionNumber
  }

  // Stamps stay good while versions grow and runs keep their stamps.
  lemma StampsForever(runs: Runs, versions: Versions, runs': Runs, later: Versions)
    requires StampsOk(runs, versions) && Grows(versions, later)
    requires forall id | id in runs' :: id in runs && SameStamp(runs'[id].run, runs[id].run)
    ensures StampsOk(runs', later)
  {
    forall id | id in runs' && !Unstamped(runs'[id].run)
      ensures Names(later, runs'[id].run.versionID, runs'[id].run.versionNumber)
    {
      NamesForever(versions, later, runs[id].run.versionID, runs[id].run.versionNumber);
    }
  }

  // An operation the runner, the worker and the API perform keeps every cell and stamp good.
  lemma PerformedKeeps(runs: Runs, logs: Logs, runs': Runs, logs': Logs, id: string, op: Op, versions: Versions)
    requires Performed(runs, logs, runs', logs', id, op) && Honest(op)
    requires CellsOk(runs, logs) && StampsOk(runs, versions)
    ensures CellsOk(runs', logs') && StampsOk(runs', versions)
  {
    hide Inv, Apply, Names;
    ApplyInv(CellOf(runs, logs, id), op);
    ApplyEvolves(CellOf(runs, logs, id), op);
    forall k | k in runs'
      ensures SameStamp(runs'[k].run, runs[k].run)
    {
      assert CellOf(runs', logs', k).run == Some(runs'[k].run) && CellOf(runs, logs, k).run == Some(runs[k].run);
    }
    StampsForever(runs, versions, runs', versions);
  }

  lemma AbsentInv()
    ensures Inv(ABSENT)
  {
  }

  // The stamp CreateRun writes.
  function StampFor(scenarios: map<string, ScenarioRecord>, scenarioID: string, versionRef: seq<VersionRecord>): (string, nat) {
    if |versionRef| > 0 then (versionRef[0].id, versionRef[0].versionNumber)
    else if scenarioID != "" && scenarioID in scenarios
    then (scenarios[scenarioID].currentVersionID, scenarios[scenarioID].currentVersionNumber)
    else ("", 0)
  }

  lemma CurrentIsNamed(scenarios: map<string, ScenarioRecord>, versions: Versions, id: string)
    requires VersionsOk(scenarios, versions) && id in scenarios
    ensures Names(versions, scenarios[id].currentVersionID, scenarios[id].currentVersionNumber)
  {
    var vs := versions[id];
    assert vs[|vs| - 1].id == scenarios[id].currentVersionID;
  }

  function SavedUnder(versions: Versions, id: string): seq<VersionRecord> {
    if id in versions then versions[id] else []
  }

  function WithVersion(versions: Versions, id: string, versionID: string, sc: Scenario): Versions {
    var vs := SavedUnder(versions, id);
    versions[id := vs + [VersionRecord(versionID, id, |vs| + 1, sc)]]
  }

  lemma FirstVersion(versions: Versions, id: string, versionID: string, sc: Scenario)
    requires id !in versions
    ensures WithVersion(versions, id, versionID, sc) == versions[id := [VersionRecord(versionID, id, 1, sc)]]
    ensures |SavedUnder(versions, id)| == 0
  {
    assert [] + [VersionRecord(versionID, id, 1, sc)] == [VersionRecord(versionID, id, 1, sc)];
  }

  lemma WithVersionGrows(versions: Versions, id: string, versionID: string, sc: Scenario)
    ensures Grows(versions, WithVersion(versions, id, versionID, sc))
  {
  }

  lemma WithVersionOk(scenarios: map<string, ScenarioRecord>, versions: Versions, id: string, versionID: string, sc: Scenario)
    requires VersionsOk(scenarios, versions)
    ensures VersionsOk(scenarios[id := ScenarioRecord(sc, versionID, |SavedUnder(versions, id)| + 1)],
                       WithVersion(versions, id, versionID, sc))
  {
    var vs, vs' := SavedUnder(versions, id), WithVersion(versions, id, versionID, sc)[id];
    assert id in versions ==> id in scenarios;
    assert forall i | 0 <= i < |vs'| :: vs'[i].versionNumber == i + 1 && vs'[i].scenarioID == id;
  }

  lemma UnchangedGrows(versions: Versions)
    ensures Grows(versions, versions)
  {
  }

  class Memory {
    var runs: Runs
    var runEvents: Logs
    var scenarios: map<string, ScenarioRecord>
    var scenarioVersions: Versions

    ghost predicate Valid()
      reads this
    {
      CellsOk(runs, runEvents) && VersionsOk(scenarios, scenarioVersions) && StampsOk(runs, scenarioVersions)
    }

    constructor ()
      ensures Valid()
      ensures runs == map[] && runEvents == map[] && scenarios == map[] && scenarioVersions == map[]
    {
      runs, runEvents, scenarios, scenarioVersions := map[], map[], map[], map[];
      AbsentInv();
    }

    // ----- scenarios ---------------------------------------------------------

    // Ids come from the clock and are taken to be fresh.
    method CreateScenario(id: string, versionID: string, sc: Scenario) returns (record: ScenarioRecord)
      requires id !in scenarios && id !in scenarioVersions
      modifies this`scenarios, this`scenarioVersions
      ensures record == ScenarioRecord(sc, versionID, 1)
      ensures scenarios == old(scenarios)[id := record]
      ensures scenarioVersions == old(scenarioVersions)[id := [VersionRecord(versionID, id, 1, sc)]]
      ensures Grows(old(scenarioVersions), scenarioVersions) && (old(Valid()) ==> Valid())
    {
      hide Names, CellsOk, VersionsOk, StampsOk, Grows;
      record := ScenarioRecord(sc, versionID, 1);
      scenarios := scenarios[id := record];
      scenarioVersions := scenarioVersions[id := [VersionRecord(versionID, id, 1, sc)]];
      FirstVersion(old(scenarioVersions), id, versionID, sc);
      WithVersionGrows(old(scenarioVersions), id, versionID, sc);
      if old(Valid()) {
        WithVersionOk(old(scenarios), old(scenarioVersions), id, versionID, sc);
        StampsForever(runs, old(scenarioVersions), runs, scenarioVersions);
      }
    }

    method UpdateScenario(id: string, versionID: string, sc: Scenario) returns (record: Option<ScenarioRecord>)
      modifies this`scenarios, this`scenarioVersions
      ensures record.Some? <==> id in old(scenarios)
      ensures record.None? ==> scenarios == old(scenarios) && scenarioVersions == old(scenarioVersions)
      ensures record.Some? ==>
                && record.value == ScenarioRecord(sc, versionID, |SavedUnder(old(scenarioVersions), id)| + 1)
                && scenarios == old(scenarios)[id := record.value]
                && scenarioVersions == WithVersion(old(scenarioVersions), id, versionID, sc)
      ensures Grows(old(scenarioVersions), scenarioVersions) && (old(Valid()) ==> Valid())
    {
      hide Names, CellsOk, VersionsOk, StampsOk, Grows;
      if id !in scenarios {
        UnchangedGrows(scenarioVersions);
        return None;
      }
      var versions := if id in scenarioVersions then scenarioVersions[id] else [];
      var versionNumber := |versions| + 1;
      scenarioVersions := scenarioVersions[id := versions + [VersionRecord(versionID, id, versionNumber, sc)]];
      record := Some(ScenarioRecord(sc, versionID, versionNumber));
      scenarios := scenarios[id := record.value];
      WithVersionGrows(old(scenarioVersions), id, versionID, sc);
      if old(Valid()) {
        WithVersionOk(old(scenarios), old(scenarioVersions), id, versionID, sc);
        StampsForever(runs, old(scenarioVersions), runs, scenarioVersions);
      }
    }

    method GetScenarioVersion(id: string, versionNumber: nat) returns (version: Option<VersionRecord>)
      ensures version.Some? ==>
                id in scenarioVersions && version.value in scenarioVersions[id] && version.value.versionNumber == versionNumber
      ensures version.None? ==>
                id !in scenarioVersions || forall v | v in scenarioVersions[id] :: v.versionNumber != versionNumber
      ensures VersionsOk(scenarios, scenarioVersions) ==>
                (version.Some? <==> id in scenarios && 1 <= versionNumber <= |scenarioVersions[id]|)
      ensures VersionsOk(scenarios, scenarioVersions) && version.Some? ==> version.value == scenarioVersions[id][versionNumber - 1]
    {
      var versions := if id in scenarioVersions then scenarioVersions[id] else [];
      for i := 0 to |versions|
        invariant forall j | 0 <= j < i :: versions[j].versionNumber != versionNumber
      {
        if versions[i].versionNumber == versionNumber {
          return Some(versions[i]);
        }
      }
      return None;
    }

    // ----- runs --------------------------------------------------------------

    // appendRunEventLocked.
    method AppendLocked(id: string, body: Body) returns (event: Event)
      modifies this`runEvents
      ensures event == Event(|LogOf(old(runEvents), id)| + 1, body)
      ensures runEvents == old(runEvents)[id := Appended(LogOf(old(runEvents), id), body)]
    {
      var log := LogOf(runEvents, id);
      event := Event(|log| + 1, body);
      runEvents := runEvents[id := log + [event]];
    }

    method CreateRun(id: string, scenarioID: string, targetID: string, sc: Scenario, versionRef: seq<VersionRecord>)
      returns (record: RunRecord)
      requires id !in runs && id !in runEvents
      modifies this`runs, this`runEvents
      ensures var stamp := StampFor(scenarios, scenarioID, versionRef);
              && record == RunRecord(sc, Run(targetID, scenarioID, stamp.0, stamp.1, Queued, None, ""))
              && CellOf(runs, runEvents, id) == Created(targetID, scenarioID, stamp.0, stamp.1)
      ensures runs == old(runs)[id := record]
      ensures forall other | other != id :: CellOf(runs, runEvents, other) == CellOf(old(runs), old(runEvents), other)
      ensures old(Valid()) && (|versionRef| > 0 ==> Names(scenarioVersions, versionRef[0].id, versionRef[0].versionNumber)) ==>
                Valid()
    {
      hide Names, Inv, Appended;
      var versionID, versionNumber := "", 0;
      if |versionRef| > 0 {
        versionID, versionNumber := versionRef[0].id, versionRef[0].versionNumber;
      } else if scenarioID != "" {
        if scenarioID in scenarios {
          versionID, versionNumber := scenarios[scenarioID].currentVersionID, scenarios[scenarioID].currentVersionNumber;
        }
      }
      record := RunRecord(sc, Run(targetID, scenarioID, versionID, versionNumber, Queued, None, ""));
      runs := runs[id := record];
      var _ := AppendLocked(id, Body(Info, RunQueued, "run queued"));
      CreatedInv(targetID, scenarioID, versionID, versionNumber);
      if old(Valid()) && scenarioID in scenarios {
        CurrentIsNamed(scenarios, scenarioVersions, scenarioID);
      }
    }

    method MarkRunStarted(id: string)
      modifies this`runs, this`runEvents
      ensures Performed(old(runs), old(runEvents), runs, runEvents, id, MarkStarted) && (old(Valid()) ==> Valid())
    {
      hide Names, Inv, Appended, CellsOk, StampsOk, VersionsOk;
      if id in runs && !IsTerminal(runs[id].run.status) {
        var record := runs[id];
        record := record.(run := record.run.(status := Running));
        runs := runs[id := record];
        var _ := AppendLocked(id, Body(Info, RunStarted, "run started"));
      }
      if old(Valid()) {
        PerformedKeeps(old(runs), old(runEvents), runs, runEvents, id, MarkStarted, scenarioVersions);
      }
    }

    method CompleteRun(id: string, rep: Report)
      modifies this`runs, this`runEvents
      ensures Performed(old(runs), old(runEvents), runs, runEvents, id, Complete(rep)) && (old(Valid()) ==> Valid())
    {
      hide Names, Inv, Appended, CellsOk, StampsOk, VersionsOk;
      if id in runs && !IsTerminal(runs[id].run.status) {
        var record := runs[id];
        var status := Passed;
        if rep.status == ReportFailed {
          status := Failed;
        }
        var stamped := rep.(versionID := record.run.versionID, versionNumber := record.run.versionNumber);
        record := record.(run := record.run.(status := status, report := Some(stamped)));
        runs := runs[id := record];
        var body := Body(Info, RunCompleted, "run completed");
        if status == Failed {
          body := Body(Error, RunFailed, "run failed");
        }
        var _ := AppendLocked(id, body);
      }
      if old(Valid()) {
        PerformedKeeps(old(runs), old(runEvents), runs, runEvents, id, Complete(rep), scenarioVersions);
      }
    }

    method CancelRun(id: string, rep: Report)
      modifies this`runs, this`runEvents
      ensures Performed(old(runs), old(runEvents), runs, runEvents, id, Cancel(rep)) && (old(Valid()) ==> Valid())
    {
      hide Names, Inv, Appended, CellsOk, StampsOk, VersionsOk;
      if id in runs && !IsTerminal(runs[id].run.status) {
        var record := runs[id];
        var stamped := rep.(status := ReportCanceled, versionID := record.run.versionID, versionNumber := record.run.versionNumber);
        record := record.(run := record.run.(status := Canceled, report := Some(stamped), error := "run canceled"));
        runs := runs[id := record];
        var _ := AppendLocked(id, Body(Warn, RunCanceled, "run canceled"));
      }
      if old(Valid()) {
        PerformedKeeps(old(runs), old(runEvents), runs, runEvents, id, Cancel(rep), scenarioVersions);
      }
    }

    method ErrorRun(id: string, message: string)
      modifies this`runs, this`runEvents
      ensures Performed(old(runs), old(runEvents), runs, runEvents, id, Fail(message)) && (old(Valid()) ==> Valid())
    {
      hide Names, Inv, Appended, CellsOk, StampsOk, VersionsOk;
      if id in runs && !IsTerminal(runs[id].run.status) {
        var record := runs[id];
        record := record.(run := record.run.(status := Errored, error := message));
        runs := runs[id := record];
        var _ := AppendLocked(id, Body(Error, RunFailed, message));
      }
      if old(Valid()) {
        PerformedKeeps(old(runs), old(runEvents), runs, runEvents, id, Fail(message), scenarioVersions);
      }
    }

    method IsRunCancelRequested(id: string) returns (requested: bool)
      ensures requested <==> HasRequest(LogOf(runEvents, id))
    {
      var log := LogOf(runEvents, id);
      for i := 0 to |log|
        invariant forall j | 0 <= j < i :: !IsCancelRequest(log[j])
      {
        if log[i].body.kind == CancelRequested {
          assert IsCancelRequest(log[i]);
          return true;
        }
      }
      return false;
    }

    // True exactly when the run was still open; the request is logged once.
    method RequestRunCancel(id: string) returns (accepted: bool)
      modifies this`runEvents
      ensures accepted <==> Open(CellOf(old(runs), old(runEvents), id))
      ensures accepted ==> HasRequest(LogOf(runEvents, id))
      ensures Performed(old(runs), old(runEvents), runs, runEvents, id, RequestCancel) && (old(Valid()) ==> Valid())
    {
      hide Names, Inv, Appended, CellsOk, StampsOk, VersionsOk, HasRequest;
      accepted := id in runs && IsCancelable(runs[id].run.status);
      if accepted {
        var already := IsRunCancelRequested(id);
        if !already {
          AppendedEffect(LogOf(runEvents, id), Body(Warn, CancelRequested, "run cancellation requested"));
          var _ := AppendLocked(id, Body(Warn, CancelRequested, "run cancellation requested"));
        }
      }
      if old(Valid()) {
        PerformedKeeps(old(runs), old(runEvents), runs, runEvents, id, RequestCancel, scenarioVersions);
      }
    }

    method AppendRunEvent(id: string, body: Body) returns (event: Event)
      modifies this`runEvents
      ensures event == Event(|LogOf(old(runEvents), id)| + 1, body)
      ensures Performed(old(runs), old(runEvents), runs, runEvents, id, Append(body))
      ensures old(Valid()) && !IsStoreKind(body.kind) ==> Valid()
    {
      hide Names, Inv, Appended, CellsOk, StampsOk, VersionsOk;
      event := AppendLocked(id, body);
      if old(Valid()) && !IsStoreKind(body.kind) {
        PerformedKeeps(old(runs), old(runEvents), runs, runEvents, id, Append(body), scenarioVersions);
      }
    }
  }
}
