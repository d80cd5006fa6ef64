// The event log of one run.
module RunEvents {
  import opened Prelude

  datatype Level = Info | Warn | Error

  datatype Kind =
    | RunQueued | RunStarted
    | SetupStarted | SetupCompleted | TeardownStarted | TeardownCompleted
    | RequestStarted | RequestCompleted
    | AssertionFailed | InvariantFailed | ThresholdFailed
    | CancelRequested
    | WorkerAttemptStarted | WorkerAttemptFailed | WorkerRetryScheduled | WorkerDeadLettered
    | RunCompleted | RunFailed | RunCanceled

  // What the caller supplies; the store adds the sequence number.
  datatype Body = Body(level: Level, kind: Kind, message: string)

  datatype Event = Event(sequence: nat, body: Body)

  predicate IsTerminalKind(k: Kind) {
    k == RunCompleted || k == RunFailed || k == RunCanceled
  }

  // The kinds that only the store itself writes; the runner and the worker append the others.
  predicate IsStoreKind(k: Kind) {
    IsTerminalKind(k) || k == RunQueued || k == RunStarted || k == CancelRequested
  }

  predicate IsTerminalEvent(e: Event) {
    IsTerminalKind(e.body.kind)
  }

  predicate IsCancelRequest(e: Event) {
    e.body.kind == CancelRequested
  }

  function KindOf(e: Event): Kind {
    e.body.kind
  }

  function Appended(log: seq<Event>, body: Body): (r: seq<Event>)
    ensures log <= r
  {
    log + [Event(|log| + 1, body)]
  }

  // Sequence numbers are exactly 1, 2, 3, ...
  ghost predicate Numbered(log: seq<Event>) {
    forall i | 0 <= i < |log| :: log[i].sequence == i + 1
  }

  ghost predicate HasRequest(log: seq<Event>) {
    exists i :: 0 <= i < |log| && IsCancelRequest(log[i])
  }

  function TerminalKinds(log: seq<Event>): seq<Kind> {
    Map(Filter(log, IsTerminalEvent), KindOf)
  }

  lemma AppendedEffect(log: seq<Event>, body: Body)
    ensures Numbered(log) ==> Numbered(Appended(log, body))
    ensures HasRequest(Appended(log, body)) <==> HasRequest(log) || body.kind == CancelRequested
    ensures TerminalKinds(Appended(log, body)) ==
            TerminalKinds(log) + if IsTerminalKind(body.kind) then [body.kind] else []
    ensures |Filter(Appended(log, body), IsCancelRequest)| ==
            |Filter(log, IsCancelRequest)| + if body.kind == CancelRequested then 1 else 0
  {
    var log', e := Appended(log, body), Event(|log| + 1, body);
    FilterPush(log, e, IsTerminalEvent);
    FilterPush(log, e, IsCancelRequest);
    MapPush(Filter(log, IsTerminalEvent), e, KindOf);
    assert log'[|log|] == e;
    if HasRequest(log) {
      var i :| 0 <= i < |log| && IsCancelRequest(log[i]);
      assert IsCancelRequest(log'[i]);
    }
  }
}
