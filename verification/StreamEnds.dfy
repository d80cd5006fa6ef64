// How streams end: when a stream closes, what its client has by then, and what a reconnect
// still brings.
module StreamEnds {
  import opened Prelude
  import opened Decimal
  import opened RunEvents
  import opened RunLifecycle
  import opened EventView
  import opened EventStream
  import Store = PostgresStore

  // ----- terminal rows -------------------------------------------------------

  lemma SawTerminalIff(log: seq<Event>)
    ensures SawTerminal(log) <==> |Filter(log, IsTerminalEvent)| > 0
  {
    FilterMembers(log, IsTerminalEvent);
    var kept := Filter(log, IsTerminalEvent);
    if |kept| > 0 {
      assert kept[0] in kept;
      var i :| 0 <= i < |log| && log[i] == kept[0];
      assert IsTerminalEvent(log[i]);
    }
    if i :| 0 <= i < |log| && IsTerminalEvent(log[i]) {
      assert log[i] in kept;
    }
  }

  lemma TerminalRows(store: Store.World)
    requires Store.Sound(store)
    ensures SawTerminal(store.db.events) <==> Store.TerminalRowCommitted(store)
    ensures |Filter(store.db.events, IsTerminalEvent)| <= 1
  {
    hide Store.Sound, Store.TerminalRowCommitted, Filter, SawTerminal;
    Store.SoundTerminal(store);
    SawTerminalIff(store.db.events);
  }

  // There is one terminal event at most, so it is in one of the three parts of a log.
  lemma OneOfThree(log: seq<Event>, j: nat, k: nat)
    requires j <= k <= |log| && |Filter(log, IsTerminalEvent)| <= 1
    ensures SawTerminal(log[j..k]) <==> SawTerminal(log) && !SawTerminal(log[..j]) && !SawTerminal(log[k..])
  {
    hide Filter, SawTerminal;
    SawTerminalIff(log);
    SawTerminalIff(log[..j]);
    SawTerminalIff(log[j..k]);
    SawTerminalIff(log[k..]);
    assert log == log[..j] + log[j..k] + log[k..];
    FilterConcat(log[..j] + log[j..k], log[k..], IsTerminalEvent);
    FilterConcat(log[..j], log[j..k], IsTerminalEvent);
  }

  // ----- when a stream closes ------------------------------------------------

  // A stream is closed by its check exactly when the run has finished or cannot be read.
  lemma CheckClosesIff(w: World, read: Read)
    requires WorldInv(w) && w.stream.pc.Checking?
    ensures Served(w.store, w.stream, read).pc == if read.Cut? || IsTerminal(StatusIn(w.store.db)) then Closed else Waiting
    ensures Served(w.store, w.stream, read).sent == w.stream.sent
  {
    hide Store.Sound, ClientOk, ShownOk, SawTerminal;
    NumberedRows(w.store);
    TerminalRows(w.store);
    if SawTerminal(w.stream.pc.snapshot) {
      SnapshotTerminal(w);
    }
  }

  lemma SnapshotTerminal(w: World)
    requires WorldInv(w) && w.stream.pc.Checking? && SawTerminal(w.stream.pc.snapshot)
    ensures SawTerminal(w.store.db.events)
  {
    hide Store.Sound;
    var i :| 0 <= i < |w.stream.pc.snapshot| && IsTerminalEvent(w.stream.pc.snapshot[i]);
    assert IsTerminalEvent(w.store.db.events[i]);
  }

  // The rows that a resume id skips; an id beyond the log skips them all.
  function Skipped(rows: seq<Event>, start: nat): (r: seq<Event>)
    ensures r <= rows
  {
    rows[..Min(start, |rows|)]
  }

  // The rows beyond the reach of a connection's listings.
  function Beyond(rows: seq<Event>, reach: nat): seq<Event> {
    rows[Min(reach, |rows|)..]
  }

  // Whatever id it was opened with and whichever listings failed or were cut, the stream has sent
  // the terminal event exactly when, as the store was at the last listing, the run had finished and
  // its terminal event was a row that the id does not skip and that some listing of the connection
  // got to. After a listing that was whole no row is beyond reach.
  lemma ClosesWithTerminalIff(w: World, at: Store.World, snapshot: seq<Event>)
    requires WorldInv(w) && w.stream.pc == Checking(at, snapshot)
    ensures SawTerminal(w.stream.sent) <==>
            && Store.TerminalRowCommitted(at)
            && !SawTerminal(Skipped(at.db.events, w.stream.start)) && !SawTerminal(Beyond(at.db.events, w.stream.reach))
    ensures snapshot == at.db.events ==> Beyond(at.db.events, w.stream.reach) == []
    ensures w.stream.start >= w.stream.reach ==> w.stream.sent == []
  {
    hide Store.Sound, Store.TerminalRowCommitted, SawTerminal, Filter;
    var start, reach, rows := w.stream.start, w.stream.reach, at.db.events;
    TerminalRows(at);
    if start < reach {
      OneOfThree(rows, start, reach);
      assert w.stream.sent == rows[start..reach];
    } else {
      NothingTerminal();
      NowhereElse(rows, Min(start, |rows|), reach);
    }
  }

  lemma NothingTerminal()
    ensures !SawTerminal([])
  {
  }

  lemma NowhereElse(rows: seq<Event>, start: nat, reach: nat)
    requires reach <= start <= |rows|
    ensures SawTerminal(rows) ==> SawTerminal(rows[..start]) || SawTerminal(rows[reach..])
  {
    if i :| 0 <= i < |rows| && IsTerminalEvent(rows[i]) {
      if i < start {
        assert IsTerminalEvent(rows[..start][i]);
      } else {
        assert IsTerminalEvent(rows[reach..][i - reach]);
      }
    }
  }

  // ----- schedules -----------------------------------------------------------

  lemma {:induction false} PlayConcat(w: World, acts: seq<Action>, more: seq<Action>)
    requires Allowed(w, acts) && Allowed(Play(w, acts), more)
    ensures Allowed(w, acts + more) && Play(w, acts + more) == Play(Play(w, acts), more)
    decreases |acts|
  {
    hide Next, Enabled;
    if |acts| == 0 {
      assert acts + more == more;
    } else {
      assert (acts + more)[1..] == acts[1..] + more;
      PlayConcat(Next(w, acts[0]), acts[1..], more);
    }
  }

  lemma PlayOne(w: World, act: Action)
    requires Enabled(w, act)
    ensures Allowed(w, [act]) && Play(w, [act]) == Next(w, act)
  {
    hide Next, Enabled;
    assert [act][1..] == [];
    assert Allowed(Next(w, act), []) && Play(Next(w, act), []) == Next(w, act);
  }

  lemma PlayMore(w: World, acts: seq<Action>, act: Action)
    requires Allowed(w, acts) && Enabled(Play(w, acts), act)
    ensures Allowed(w, acts + [act]) && Play(w, acts + [act]) == Next(Play(w, acts), act)
  {
    hide Next, Enabled, Allowed, Play;
    PlayOne(Play(w, acts), act);
    PlayConcat(w, acts, [act]);
  }

  function Serves(n: nat): seq<Action> {
    if n == 0 then [] else [Serve(Whole)] + Serves(n - 1)
  }

  // A poll whose listing ends as given, up to its check.
  function Poll(rows: seq<Event>, read: Read): seq<Action> {
    [Serve(read)] + Serves(|Listed(rows, read)| + 1)
  }

  ghost function ServedTimes(store: Store.World, s: Stream, n: nat): Stream
    decreases n
  {
    if n == 0 then s else ServedTimes(store, Served(store, s, Whole), n - 1)
  }

  lemma {:induction false} PlayServes(w: World, n: nat)
    ensures Allowed(w, Serves(n))
    ensures Play(w, Serves(n)) == w.(stream := ServedTimes(w.store, w.stream, n))
    decreases n
  {
    hide Served;
    if n > 0 {
      assert Serves(n)[1..] == Serves(n - 1);
      PlayServes(Next(w, Serve(Whole)), n - 1);
    }
  }

  lemma {:induction false} PollEnds(store: Store.World, s: Stream)
    requires Numbered(store.db.events) && StreamOk(s, store.db.events) && s.pc.Writing?
    ensures var t := ServedTimes(store, s, |s.pc.snapshot| - s.pc.next + 1);
            && t.pc == Checking(s.pc.at, s.pc.snapshot) && t.start == s.start
            && t.reach == Max(s.reach, |s.pc.snapshot|) && StreamOk(t, store.db.events)
    decreases |s.pc.snapshot| - s.pc.next
  {
    ServeKeeps(store, s, Whole);
    hide StreamOk, ShouldClose;
    var t := Served(store, s, Whole);
    if s.pc.next < |s.pc.snapshot| {
      PollEnds(store, t);
    } else {
      assert ServedTimes(store, t, 0) == t;
    }
  }

  // Undisturbed, a stream that is about to list reaches the check of that poll, however the
  // listing ends.
  lemma ReachesCheck(w: World, read: Read)
    requires WorldInv(w) && w.stream.pc == Listing
    ensures var acts, listed := Poll(w.store.db.events, read), Listed(w.store.db.events, read);
            && Allowed(w, acts) && WorldInv(Play(w, acts))
            && Play(w, acts) == w.(stream := Play(w, acts).stream)
            && var v := Play(w, acts).stream;
               v.pc == Checking(w.store, listed) && v.start == w.stream.start && v.reach == Max(w.stream.reach, |listed|)
  {
    hide Store.Sound, ServedTimes, Served, StreamOk, PollOk, ClientOk, ShownOk, Allowed, Play, Serves, WorldInv, Enabled, Next;
    var listed := Listed(w.store.db.events, read);
    Lists(w, read);
    PlayOne(w, Serve(read));
    PlayInv(w, [Serve(read)]);
    var w1 := Next(w, Serve(read));
    StreamIsOk(w1);
    PollEnds(w.store, w1.stream);
    PlayServes(w1, |listed| + 1);
    PlayConcat(w, [Serve(read)], Serves(|listed| + 1));
    PlayInv(w, Poll(w.store.db.events, read));
  }

  // A check that does not close the stream is followed by the next poll.
  lemma PollsAgain(w: World, read: Read, later: Read)
    requires w.stream.pc.Checking? && Next(w, Serve(read)).stream.pc != Closed
    ensures Allowed(w, [Serve(read), Serve(later)])
    ensures var v := Play(w, [Serve(read), Serve(later)]).stream; v.pc == Listing && v.sent == w.stream.sent && v.start == w.stream.start
  {
    hide Allowed, Play, Store.Sound;
    PlayOne(w, Serve(read));
    PlayOne(Next(w, Serve(read)), Serve(later));
    PlayConcat(w, [Serve(read)], [Serve(later)]);
    assert [Serve(read)] + [Serve(later)] == [Serve(read), Serve(later)];
  }

  lemma Lists(w: World, read: Read)
    requires w.stream.pc == Listing
    ensures Enabled(w, Serve(read))
    ensures Next(w, Serve(read)) == w.(stream := w.stream.(pc := Writing(w.store, Listed(w.store.db.events, read), 0)))
  {
  }

  lemma StreamIsOk(w: World)
    requires WorldInv(w)
    ensures Numbered(w.store.db.events) && StreamOk(w.stream, w.store.db.events)
  {
    NumberedRows(w.store);
    hide Store.Sound, StreamOk, Numbered;
  }

  // ----- closing without the terminal event ----------------------------------

  // What a client of an open run meets when the run finishes between a listing and its check:
  // the stream closes without the terminal event, though that event is committed.
  lemma ClosesEarly(store: Store.World, after: string, load: Read, op: Op) returns (acts: seq<Action>)
    requires Store.Sound(store) && Open(store.db) && |store.db.events| < MAX_INT64
    requires Finishes(op)
    ensures Allowed(Connecting(store, after, load), acts)
    ensures var v := Play(Connecting(store, after, load), acts);
            v.stream.pc == Closed && SawTerminal(v.store.db.events) && !SawTerminal(v.stream.sent)
  {
    hide Store.Sound, Allowed, Play, Enabled, Next, WorldInv, Connecting, Poll, SawTerminal, Store.TerminalRowCommitted;
    var start := Connecting(store, after, load);
    ConnectingInv(store, after, load);
    ConnectingLists(store, after, load);
    acts := Poll(store.db.events, Whole);
    ReachesCheck(start, Whole);
    var w := Play(start, acts);
    var body := FinishCommitted(w, op);
    var first, second := Commit(Store.Transact(op, Committed)), Commit(Store.Settle(body, true));
    PlayMore(start, acts, first);
    acts := acts + [first];
    PlayMore(start, acts, second);
    acts := acts + [second];
    PlayInv(start, acts);
    var v := Play(start, acts);
    CheckClosesIff(v, Whole);
    ClosesWithTerminalIff(v, store, store.db.events);
    NotCommittedWhileOpen(store);
    ServeNext(v, Whole);
    PlayMore(start, acts, Serve(Whole));
    acts := acts + [Serve(Whole)];
  }

  lemma ConnectingLists(store: Store.World, after: string, load: Read)
    ensures var w := Connecting(store, after, load);
            w.stream.pc == Listing && w.stream.reach == 0 && w.store == store && w.stream.start == LastEventSequence("", after)
  {
  }

  lemma ServeNext(w: World, read: Read)
    ensures Enabled(w, Serve(read))
    ensures Next(w, Serve(read)) == w.(stream := Served(w.store, w.stream, read))
  {
    hide Served;
  }

  lemma NotCommittedWhileOpen(store: Store.World)
    requires Open(store.db)
    ensures !Store.TerminalRowCommitted(store)
  {
  }

  lemma FinishCommitted(w: World, op: Op) returns (body: Body)
    requires WorldInv(w) && Open(w.store.db) && Finishes(op) && |w.store.db.events| < MAX_INT64
    ensures var first, second := Commit(Store.Transact(op, Committed)), Commit(Store.Settle(body, true));
            && Enabled(w, first) && Enabled(Next(w, first), second)
            && var v := Next(Next(w, first), second);
               && v.stream == w.stream && IsTerminal(StatusIn(v.store.db)) && SawTerminal(v.store.db.events)
  {
    hide Store.Sound, StreamOk, ClientOk, ShownOk, SawTerminal, HasRequest, Store.MaxSequence;
    body := Logged(w.store.db, op).value;
    var v := Next(Next(w, Commit(Store.Transact(op, Committed))), Commit(Store.Settle(body, true)));
    var n := |w.store.db.events|;
    assert v.store.db.events[n].body == body;
    TerminalAt(v.store.db.events, n);
  }

  lemma TerminalAt(log: seq<Event>, i: nat)
    requires i < |log| && IsTerminalEvent(log[i])
    ensures SawTerminal(log)
  {
  }

  // ----- polls of a finished run ---------------------------------------------

  // A poll of a finished run that starts with the listing is the stream's last, however its reads
  // end.
  lemma LastPoll(w: World, list: Read, check: Read)
    requires WorldInv(w) && w.stream.pc == Listing && IsTerminal(StatusIn(w.store.db))
    ensures var acts := Poll(w.store.db.events, list) + [Serve(check)];
            && Allowed(w, acts)
            && Play(w, acts) == w.(stream := Play(w, acts).stream)
            && var v := Play(w, acts).stream;
               && v.pc == Closed && v.start == w.stream.start
               && v.sent == Span(w.store.db.events, v.start, Max(w.stream.reach, |Listed(w.store.db.events, list)|))
  {
    hide Store.Sound, Play, Allowed, WorldInv, Span, Poll;
    var acts := Poll(w.store.db.events, list);
    ReachesCheck(w, list);
    var v := Play(w, acts);
    CheckClosesIff(v, check);
    SentToReach(v);
    ServeNext(v, check);
    PlayMore(w, acts, Serve(check));
  }

  lemma SentToReach(w: World)
    requires WorldInv(w) && w.stream.pc.Checking?
    ensures w.stream.sent == Span(w.store.db.events, w.stream.start, w.stream.reach)
  {
    hide Store.Sound;
  }

  // A resume id at or beyond the end of a finished log closes the stream with nothing sent,
  // whether or not the terminal event is there.
  lemma StaleIdClosesEmpty(store: Store.World, n: nat, load: Read) returns (acts: seq<Action>)
    requires Store.Sound(store) && IsTerminal(StatusIn(store.db)) && |store.db.events| <= n <= MAX_INT64
    ensures Allowed(Connecting(store, FormatInt(n), load), acts)
    ensures var v := Play(Connecting(store, FormatInt(n), load), acts); v.stream.pc == Closed && v.stream.sent == []
  {
    hide Store.Sound, Play, Allowed, WorldInv, Poll, FormatInt, ParseInt;
    ParseOfFormat(n);
    var w := Connecting(store, FormatInt(n), load);
    ConnectingInv(store, FormatInt(n), load);
    LastPoll(w, Whole, Whole);
    acts := Poll(store.db.events, Whole) + [Serve(Whole)];
  }

  // ----- reads that fail -----------------------------------------------------

  // The stream of an open run is closed when the run cannot be read at the check.
  lemma OpenRunCloses(store: Store.World, after: string, load: Read) returns (acts: seq<Action>)
    requires Store.Sound(store) && Open(store.db) && |store.db.events| <= MAX_INT64
    ensures Allowed(Connecting(store, after, load), acts)
    ensures var v := Play(Connecting(store, after, load), acts); v.stream.pc == Closed && v.store == store && Open(v.store.db)
  {
    hide Store.Sound, Allowed, Play, Enabled, Next, WorldInv, Connecting, Poll;
    var start := Connecting(store, after, load);
    ConnectingInv(store, after, load);
    ConnectingLists(store, after, load);
    acts := Poll(store.db.events, Whole);
    ReachesCheck(start, Whole);
    var v := Play(start, acts);
    CheckClosesIff(v, Cut(0));
    ServeNext(v, Cut(0));
    PlayMore(start, acts, Serve(Cut(0)));
    acts := acts + [Serve(Cut(0))];
  }

  // A failed listing and a check that succeeds close the stream of a finished run with nothing
  // sent, though its terminal event is a row that the client lacks.
  lemma FailedListingCloses(store: Store.World, load: Read) returns (acts: seq<Action>)
    requires Store.Sound(store) && Store.TerminalRowCommitted(store) && |store.db.events| <= MAX_INT64
    ensures Allowed(Connecting(store, "", load), acts)
    ensures var v := Play(Connecting(store, "", load), acts);
            v.stream.pc == Closed && v.stream.sent == [] && SawTerminal(v.store.db.events) && v.stream.start == 0
  {
    hide Store.Sound, Play, Allowed, WorldInv, Poll, SawTerminal, Connecting, LastEventSequence;
    var w := Connecting(store, "", load);
    ConnectingInv(store, "", load);
    ConnectingLists(store, "", load);
    BadResumeStartsOver("", "");
    TerminalRows(store);
    LastPoll(w, Cut(0), Whole);
    acts := Poll(store.db.events, Cut(0)) + [Serve(Whole)];
  }

  // Whatever happened before, a reconnect after the run has finished lists once, sends what the
  // client lacks of the rows listed, and then the stream ends by itself, however its reads end. The
  // client then has every row exactly when the listing was not cut before the last of those it
  // lacked, and the terminal event is among the rows exactly when its own transaction has committed.
  lemma FinishedRunIsCaughtUp(w: World, list: Read, check: Read) returns (acts: seq<Action>)
    requires WorldInv(w) && IsTerminal(StatusIn(w.store.db))
    ensures Allowed(w, [Reconnect] + acts)
    ensures var v, rows, has := Play(w, [Reconnect] + acts), w.store.db.events, Origin(w) + |w.received|;
            && v.store == w.store && v.received == w.received && v.stream.pc == Closed
            && v.stream.sent == Span(rows, has, |Listed(rows, list)|)
            && (w.received + v.stream.sent == Span(rows, Origin(w), |rows|) <==>
                 |Listed(rows, list)| == |rows| || has >= |rows|)
            && (SawTerminal(rows) <==> Store.TerminalRowCommitted(w.store))
  {
    hide Store.Sound, LastEventSequence, SawTerminal, Store.TerminalRowCommitted, ResumeOf, Poll, WorldInv, Allowed, Play, Origin;
    ReconnectKeeps(w);
    StoreIsSound(w);
    TerminalRows(w.store);
    var w1 := Next(w, Reconnect);
    PlayOne(w, Reconnect);
    acts := Poll(w.store.db.events, list) + [Serve(check)];
    LastPoll(w1, list, check);
    PlayConcat(w, [Reconnect], acts);
    JoinedIff(w, |Listed(w.store.db.events, list)|);
  }

  lemma StoreIsSound(w: World)
    requires WorldInv(w)
    ensures Store.Sound(w.store)
  {
  }

  lemma JoinedIff(w: World, k: nat)
    requires WorldInv(w) && k <= |w.store.db.events|
    ensures var rows, has := w.store.db.events, Origin(w) + |w.received|;
            w.received + Span(rows, has, k) == Span(rows, Origin(w), |rows|) <==> k == |rows| || has >= |rows|
  {
    hide Store.Sound, Origin;
    var rows, has := w.store.db.events, Origin(w) + |w.received|;
    assert has < |rows| && k < |rows| ==> |w.received + Span(rows, has, k)| < |Span(rows, Origin(w), |rows|)|;
  }

  // ----- a console that misses events ----------------------------------------

  function Arrivals(n: nat): seq<Action> {
    if n == 0 then [] else [Arrive] + Arrivals(n - 1)
  }

  lemma {:induction false} PlayArrivals(w: World, n: nat)
    requires n <= |w.stream.sent| - w.arrived
    ensures Allowed(w, Arrivals(n))
    ensures var v := Play(w, Arrivals(n));
            && v.store == w.store && v.loaded == w.loaded && v.after == w.after
            && |v.received| == |w.received| + n
    decreases n
  {
    hide Merged, Listened, Served, Store.Next, ResumeOf;
    if n > 0 {
      assert Arrivals(n)[1..] == Arrivals(n - 1);
      PlayArrivals(Next(w, Arrive), n - 1);
    }
  }

  const FAILED := Body(Error, WorkerAttemptFailed, "worker attempt failed")
  const STARTED := Body(Info, RunStarted, "run started")

  lemma FailureLogged(store: Store.World)
    requires store.db.run.Some?
    ensures var step := Store.Transact(Append(FAILED), Committed);
            && Store.Enabled(store, step)
            && Store.Next(store, step).db == Cell(store.db.run, Store.Inserted(store.db.events, FAILED))
  {
    hide HasRequest, Store.Inserted;
  }

  lemma StartMarked(store: Store.World)
    requires store.db.run.Some? && StatusIn(store.db) == Queued
    ensures var step := Store.Transact(MarkStarted, Committed);
            && Store.Enabled(store, step)
            && Store.Next(store, step).db.events == store.db.events && STARTED in Store.Next(store, step).owed
  {
    hide HasRequest;
  }

  lemma StartSettled(store: Store.World)
    requires STARTED in store.owed
    ensures var step := Store.Settle(STARTED, true);
            Store.Enabled(store, step) && Store.Next(store, step).db.events == Store.Inserted(store.db.events, STARTED)
  {
  }

  lemma CommitNext(w: World, step: Store.Step)
    requires Store.Enabled(w.store, step) && |w.store.db.events| < MAX_INT64
    ensures Enabled(w, Commit(step)) && Next(w, Commit(step)) == w.(store := Store.Next(w.store, step))
  {
    hide Store.Next, Store.Enabled;
  }

  // The console has loaded a queued run; a worker's first attempt fails before it starts the run,
  // as when it cannot read it, and the retry starts it.
  lemma WorkerStarts(store: Store.World) returns (acts: seq<Action>)
    requires store.db.run.Some? && StatusIn(store.db) == Queued && |store.db.events| == 1
    ensures Allowed(Connecting(store, "", Whole), acts)
    ensures var v, rows := Play(Connecting(store, "", Whole), acts), store.db.events;
            && v == Connecting(store, "", Whole).(store := v.store)
            && v.store.db.events == Store.Inserted(Store.Inserted(rows, FAILED), STARTED)
  {
    hide Allowed, Play, Enabled, Next, Store.Next, Store.Enabled, Store.MaxSequence, LastEventSequence;
    var first, second, third :=
      Store.Transact(Append(FAILED), Committed), Store.Transact(MarkStarted, Committed), Store.Settle(STARTED, true);
    var w := Connecting(store, "", Whole);
    FailureLogged(store);
    CommitNext(w, first);
    PlayOne(w, Commit(first));
    acts := [Commit(first)];
    StartMarked(Play(w, acts).store);
    CommitNext(Play(w, acts), second);
    PlayMore(w, acts, Commit(second));
    acts := acts + [Commit(second)];
    StartSettled(Play(w, acts).store);
    CommitNext(Play(w, acts), third);
    PlayMore(w, acts, Commit(third));
    acts := acts + [Commit(third)];
  }

  // CreateRun leaves such a store when its event is committed.
  lemma CreatedStore(targetID: string, scenarioID: string, versionID: string, versionNumber: nat)
    ensures var created := Store.Inserting(targetID, scenarioID, versionID, versionNumber);
            var store := Store.Next(created, Store.Settle(Store.QUEUED_BODY, true));
            && Store.Enabled(created, Store.Settle(Store.QUEUED_BODY, true))
            && Store.Sound(store) && store.db.run.Some? && StatusIn(store.db) == Queued && |store.db.events| == 1
  {
    hide Store.Sound, Store.RowsSafe;
    Store.InsertingSound(targetID, scenarioID, versionID, versionNumber);
    Store.SoundKept(Store.Inserting(targetID, scenarioID, versionID, versionNumber), Store.Settle(Store.QUEUED_BODY, true));
  }

  // A retried run can leave a gap in a console that watches it: the console has received all the
  // rows and does not show a prefix of them.
  lemma ConsoleHasGap(store: Store.World) returns (acts: seq<Action>)
    requires Store.Sound(store) && store.db.run.Some? && StatusIn(store.db) == Queued && |store.db.events| == 1
    ensures Allowed(Connecting(store, "", Whole), acts)
    ensures var v := Play(Connecting(store, "", Whole), acts);
            v.received == v.store.db.events && !(v.shown <= v.store.db.events)
  {
    hide Store.Sound, Allowed, Play, Poll, Arrivals, Store.MaxSequence, WorldInv;
    var start := Connecting(store, "", Whole);
    ConnectingInv(store, "", Whole);
    acts := WorkerStarts(store);
    var w := Play(start, acts);
    PlayInv(start, acts);
    var rows := w.store.db.events;
    ReachesCheck(w, Whole);
    PlayConcat(start, acts, Poll(rows, Whole));
    acts := acts + Poll(rows, Whole);
    var w1 := Play(start, acts);
    SentToReach(w1);
    PlayArrivals(w1, |rows|);
    PlayConcat(start, acts, Arrivals(|rows|));
    acts := acts + Arrivals(|rows|);
    PlayInv(start, acts);
    var v := Play(start, acts);
    BadResumeStartsOver("", "");
    ReceivedAll(v);
    ConsoleGapIff(v);
    assert !Listened(rows[1].body.kind) && Listened(rows[2].body.kind);
  }

  lemma ReceivedAll(w: World)
    requires WorldInv(w) && Origin(w) == 0 && |w.received| == |w.store.db.events|
    ensures w.received == w.store.db.events
  {
    hide Store.Sound, Origin;
  }
}
