// The server-sent event stream of one run over the Postgres store: the server polls the growing
// rows and writes what is new, connections break anywhere, and the client resumes from the last
// id it received (section 9.2 of the HTML Living Standard, Server-sent events). A status change
// and its event are separate transactions here; the memory store, which makes them one step, is
// the special case in which every committed change is settled at once and no read fails.
module EventStream {
  import opened Prelude
  import opened Decimal
  import opened RunEvents
  import opened RunLifecycle
  import opened EventView
  import Store = PostgresStore

  // ----- resume ids ----------------------------------------------------------

  // The Last-Event-ID header, or the query parameter when the header is empty. A text that is
  // not a 64-bit integer, and a negative one, resume from the beginning.
  function LastEventSequence(header: string, after: string): nat {
    var n := ParseInt(if header == "" then after else header);
    if n.None? || n.value < 0 then 0 else n.value
  }

  // An id written by the server is read back as the sequence number it stands for.
  lemma ResumeRoundTrip(n: nat, after: string)
    requires n <= MAX_INT64
    ensures LastEventSequence(FormatInt(n), after) == n
  {
    ParseOfFormat(n);
  }

  lemma BadResumeStartsOver(header: string, after: string)
    ensures LastEventSequence(header, after) == 0 <==>
            var value := ParseInt(if header == "" then after else header); value.None? || value.value <= 0
    ensures LastEventSequence("", "") == 0
  {
  }

  // ----- one poll ------------------------------------------------------------

  function Min(a: nat, b: nat): nat {
    if a < b then a else b
  }

  function Max(a: nat, b: nat): nat {
    if a < b then b else a
  }

  // The writing loop of one poll when no write fails.
  method WriteNew(events: seq<Event>, resumed: nat) returns (written: seq<Event>, lastSequence: nat)
    requires Numbered(events)
    ensures written == events[Min(resumed, |events|)..]
    ensures lastSequence == Max(resumed, |events|)
  {
    written, lastSequence := [], resumed;
    for i := 0 to |events|
      invariant lastSequence == Max(resumed, i)
      invariant written == events[Min(resumed, i)..i]
    {
      if events[i].sequence <= lastSequence {
        continue;
      }
      written := written + [events[i]];
      lastSequence := events[i].sequence;
    }
  }

  method HasTerminalEvent(events: seq<Event>) returns (found: bool)
    ensures found <==> SawTerminal(events)
  {
    for i := 0 to |events|
      invariant forall j | 0 <= j < i :: !IsTerminalEvent(events[j])
    {
      var kind := events[i].body.kind;
      if kind == RunCompleted || kind == RunFailed || kind == RunCanceled {
        assert IsTerminalEvent(events[i]);
        return true;
      }
    }
    return false;
  }

  ghost predicate SawTerminal(events: seq<Event>) {
    exists i :: 0 <= i < |events| && IsTerminalEvent(events[i])
  }

  // ----- the stream and its client -------------------------------------------

  // Where the handler stands; the line numbers are those of server.go. Of a poll the handler
  // keeps only the events; the store as it was then is history.
  datatype Pc =
    | Listing                                                      // 462: ListRunEvents
    | Writing(at: Store.World, snapshot: seq<Event>, next: nat)    // 463: the events of that poll
    | Checking(at: Store.World, snapshot: seq<Event>)              // 474: GetRun and hasTerminalEvent
    | Waiting                                                      // 479: the ticker
    | Closed

  // reach is history: the most rows that a poll of this connection has listed and gone through.
  datatype Stream = Stream(start: nat, last: nat, sent: seq<Event>, reach: nat, pc: Pc)

  // How a read ends: a listing that is cut returns the rows it had so far, which may be none, as if
  // there were no more, and a run that cannot be read counts as absent.
  datatype Read = Whole | Cut(rows: nat)

  function Listed(rows: seq<Event>, read: Read): (r: seq<Event>)
    ensures r <= rows && (read.Whole? ==> r == rows)
  {
    match read
    case Whole => rows
    case Cut(n) => rows[..Min(n, |rows|)]
  }

  // arrived counts what the client has received over the current connection; received is all
  // it ever received, and shown is the console's list, first filled with loaded events.
  datatype World = World(
    store: Store.World, after: string, stream: Stream, arrived: nat, received: seq<Event>, loaded: nat, shown: seq<Event>)

  // The console also hangs up once it has seen a terminal event; here it may Break at any time.
  datatype Action = Commit(step: Store.Step) | Serve(read: Read) | Break | Arrive | Reconnect

  function Opened(resume: nat): Stream {
    Stream(resume, resume, [], 0, Listing)
  }

  function ResumeOf(received: seq<Event>, after: string): nat {
    LastEventSequence(if |received| > 0 then FormatInt(received[|received| - 1].sequence) else "", after)
  }

  function Origin(w: World): nat {
    LastEventSequence("", w.after)
  }

  ghost predicate ShouldClose(c: Cell, snapshot: seq<Event>) {
    c.run.None? || IsTerminal(StatusIn(c)) || SawTerminal(snapshot)
  }

  ghost function Served(store: Store.World, s: Stream, read: Read): Stream {
    match s.pc
    case Listing => s.(pc := Writing(store, Listed(store.db.events, read), 0))
    case Writing(at, snapshot, next) =>
      if next >= |snapshot| then s.(pc := Checking(at, snapshot), reach := Max(s.reach, |snapshot|))
      else if snapshot[next].sequence <= s.last then s.(pc := Writing(at, snapshot, next + 1))
      else s.(pc := Writing(at, snapshot, next + 1), sent := s.sent + [snapshot[next]], last := snapshot[next].sequence)
    case Checking(at, snapshot) => s.(pc := if read.Cut? || ShouldClose(store.db, snapshot) then Closed else Waiting)
    case Waiting => s.(pc := Listing)
    case Closed => s
  }

  ghost predicate Enabled(w: World, act: Action) {
    match act
    case Commit(step) => Store.Enabled(w.store, step) && |w.store.db.events| < MAX_INT64
    case Arrive => w.arrived < |w.stream.sent|
    case _ => true
  }

  ghost function Next(w: World, act: Action): World
    requires Enabled(w, act)
  {
    match act
    case Commit(step) => w.(store := Store.Next(w.store, step))
    case Serve(read) => w.(stream := Served(w.store, w.stream, read))
    case Break => w.(stream := w.stream.(pc := Closed))
    case Arrive =>
      var e := w.stream.sent[w.arrived];
      w.(arrived := w.arrived + 1, received := w.received + [e],
         shown := if Listened(e.body.kind) then Merged(w.shown, e) else w.shown)
    case Reconnect => w.(stream := Opened(ResumeOf(w.received, w.after)), arrived := 0)
  }

  // A client that loaded the rows as they were, or some first part, and opens its first stream.
  function Connecting(store: Store.World, after: string, load: Read): World {
    var loaded := Listed(store.db.events, load);
    World(store, after, Opened(LastEventSequence("", after)), 0, [], |loaded|, loaded)
  }

  ghost predicate Allowed(w: World, acts: seq<Action>)
    decreases |acts|
  {
    |acts| == 0 || (Enabled(w, acts[0]) && Allowed(Next(w, acts[0]), acts[1..]))
  }

  ghost function Play(w: World, acts: seq<Action>): World
    requires Allowed(w, acts)
    decreases |acts|
  {
    if |acts| == 0 then w else Play(Next(w, acts[0]), acts[1..])
  }

  // ----- the invariant -------------------------------------------------------

  // The entries a+1 .. b of the log.
  function Span(log: seq<Event>, a: nat, b: nat): seq<Event> {
    if a < b <= |log| then log[a..b] else []
  }

  // The stream has sent exactly the entries start+1 .. last, and a poll that is not under way has
  // got to its reach.
  predicate StreamOk(s: Stream, log: seq<Event>) {
    && s.start <= s.last && (s.start < s.last ==> s.last <= |log|)
    && s.sent == Span(log, s.start, s.last) && s.reach <= |log|
    && match s.pc
       case Writing(at, snapshot, next) =>
         snapshot <= at.db.events <= log && next <= |snapshot| && s.reach <= |at.db.events| && s.last == Max(Max(s.start, s.reach), next)
       case Checking(at, snapshot) =>
         snapshot <= at.db.events <= log && |snapshot| <= s.reach <= |at.db.events| && s.last == Max(s.start, s.reach)
       case Closed => true
       case _ => s.last == Max(s.start, s.reach)
  }

  ghost predicate PollOk(s: Stream) {
    s.pc.Writing? || s.pc.Checking? ==> Store.Sound(s.pc.at)
  }

  // Over all its connections the client has received the log from its first resume id on,
  // without a gap and without a repeat.
  predicate ClientOk(w: World) {
    && w.arrived <= |w.stream.sent|
    && w.stream.start + w.arrived == Origin(w) + |w.received|
    && (|w.received| > 0 ==> Origin(w) + |w.received| <= |w.store.db.events|)
    && w.received == Span(w.store.db.events, Origin(w), Origin(w) + |w.received|)
  }

  // Of what it received, the client shows what it listens to.
  predicate ShownOk(w: World) {
    && w.loaded <= |w.store.db.events|
    && w.shown == Shown(w.store.db.events, w.loaded, Origin(w), Origin(w) + |w.received|)
  }

  ghost predicate WorldInv(w: World) {
    && Store.Sound(w.store) && |w.store.db.events| <= MAX_INT64
    && StreamOk(w.stream, w.store.db.events) && PollOk(w.stream) && ClientOk(w) && ShownOk(w)
  }

  lemma SpanStable(log: seq<Event>, longer: seq<Event>, a: nat, b: nat)
    requires log <= longer && (a < b ==> b <= |log|)
    ensures Span(longer, a, b) == Span(log, a, b)
  {
  }

  lemma NumberedRows(store: Store.World)
    requires Store.Sound(store)
    ensures Numbered(store.db.events) && store.db.run.Some?
  {
    Store.SoundSafe(store);
    hide Store.Sound;
  }

  // Nothing the stream or the client has is disturbed while the log grows.
  lemma GrowthKeeps(w: World, grown: Store.World)
    requires StreamOk(w.stream, w.store.db.events) && ClientOk(w) && ShownOk(w)
    requires w.store.db.events <= grown.db.events && Numbered(grown.db.events)
    ensures var w' := w.(store := grown); StreamOk(w'.stream, grown.db.events) && ClientOk(w') && ShownOk(w')
  {
    hide Span, LastEventSequence, Shown;
    var log, origin := w.store.db.events, Origin(w);
    SpanStable(log, grown.db.events, w.stream.start, w.stream.last);
    SpanStable(log, grown.db.events, origin, origin + |w.received|);
    ShownStable(log, grown.db.events, w.loaded, origin, origin + |w.received|);
  }

  lemma CommitKeeps(w: World, step: Store.Step)
    requires WorldInv(w) && Enabled(w, Commit(step))
    ensures WorldInv(Next(w, Commit(step)))
  {
    hide Store.Sound, Store.Next, Store.RowsSafe, LastEventSequence, StreamOk, ClientOk, ShownOk;
    Store.SoundKept(w.store, step);
    Store.RowsGrow(w.store, step);
    NumberedRows(Store.Next(w.store, step));
    GrowthKeeps(w, Store.Next(w.store, step));
  }

  lemma ServeKeeps(store: Store.World, s: Stream, read: Read)
    requires Numbered(store.db.events) && StreamOk(s, store.db.events)
    ensures StreamOk(Served(store, s, read), store.db.events)
    ensures Store.Sound(store) && PollOk(s) ==> PollOk(Served(store, s, read))
    ensures Served(store, s, read).start == s.start && s.sent <= Served(store, s, read).sent
  {
    hide SawTerminal, Store.Sound;
    if s.pc.Writing? {
      var snapshot, next := s.pc.snapshot, s.pc.next;
      if next < |snapshot| && snapshot[next].sequence > s.last {
        var log := store.db.events;
        assert snapshot[next] == log[next];
        assert next == s.last;
        assert Span(log, s.start, s.last + 1) == Span(log, s.start, s.last) + [log[s.last]];
      }
    }
  }

  lemma ArriveKeeps(w: World)
    requires WorldInv(w) && Enabled(w, Arrive)
    ensures WorldInv(Next(w, Arrive))
  {
    hide Store.Sound, LastEventSequence, Merged, Listened, Shown, Numbered;
    NumberedRows(w.store);
    var log, origin, n := w.store.db.events, Origin(w), |w.received|;
    var e := w.stream.sent[w.arrived];
    assert e == log[w.stream.start + w.arrived];
    assert Span(log, origin, origin + n + 1) == Span(log, origin, origin + n) + [e];
    ShownGrows(log, w.loaded, origin, origin + n);
  }

  lemma ReconnectKeeps(w: World)
    requires WorldInv(w)
    ensures WorldInv(Next(w, Reconnect))
    ensures ResumeOf(w.received, w.after) == Origin(w) + |w.received|
  {
    hide Store.Sound, LastEventSequence, ParseInt, FormatInt, Shown;
    NumberedRows(w.store);
    var origin, n := Origin(w), |w.received|;
    if n > 0 {
      assert w.received[n - 1] == w.store.db.events[origin + n - 1];
      ResumeRoundTrip(origin + n, w.after);
    }
  }

  lemma NextInv(w: World, act: Action)
    requires WorldInv(w) && Enabled(w, act)
    ensures WorldInv(Next(w, act))
  {
    hide Store.Sound, Store.Next, LastEventSequence, Served, Merged, Shown, Listened;
    match act
    case Commit(step) => CommitKeeps(w, step);
    case Serve(read) =>
      NumberedRows(w.store);
      ServeKeeps(w.store, w.stream, read);
    case Break =>
    case Arrive => ArriveKeeps(w);
    case Reconnect => ReconnectKeeps(w);
  }

  lemma {:induction false} PlayInv(w: World, acts: seq<Action>)
    requires WorldInv(w) && Allowed(w, acts)
    ensures WorldInv(Play(w, acts)) && Play(w, acts).after == w.after
    decreases |acts|
  {
    if |acts| > 0 {
      NextInv(w, acts[0]);
      KeepsAfter(w, acts[0]);
      hide WorldInv, Next, Enabled;
      PlayInv(Next(w, acts[0]), acts[1..]);
    }
  }

  lemma KeepsAfter(w: World, act: Action)
    requires Enabled(w, act)
    ensures Next(w, act).after == w.after
  {
    hide Served, Store.Next, Merged, ResumeOf;
  }

  lemma ConnectingInv(store: Store.World, after: string, load: Read)
    requires Store.Sound(store) && |store.db.events| <= MAX_INT64
    ensures WorldInv(Connecting(store, after, load))
  {
    hide Store.Sound, LastEventSequence;
    NumberedRows(store);
    ShowsLoaded(store.db.events, |Listed(store.db.events, load)|, LastEventSequence("", after));
  }

  lemma {:induction false} ShowsLoaded(log: seq<Event>, loaded: nat, origin: nat)
    requires Numbered(log) && loaded <= |log|
    ensures Shown(log, loaded, origin, origin) == log[..loaded]
  {
    if |log| > loaded {
      var front := log[..|log| - 1];
      ShowsLoaded(front, loaded, origin);
      assert front[..loaded] == log[..loaded];
    } else {
      KeptFirst(log, Visible(loaded, origin, origin));
      assert log[..loaded] == log;
    }
  }

  // ----- what holds over every interleaving ----------------------------------

  // A stream opened with id k has sent exactly the rows k+1 .. m, where m is the most rows that a
  // completed poll has listed, and all of them if the last listing was whole; the client has
  // received one unbroken piece of the log; and the console shows what it loaded and, of what it
  // received, exactly the kinds it listens to.
  predicate Exact(w: World) {
    var log, origin := w.store.db.events, LastEventSequence("", w.after);
    && w.stream.sent == Span(log, w.stream.start, w.stream.last)
    && (w.stream.pc.Checking? ==>
          && w.stream.pc.snapshot <= w.stream.pc.at.db.events <= log
          && |w.stream.pc.snapshot| <= w.stream.reach <= |w.stream.pc.at.db.events|
          && w.stream.sent == Span(log, w.stream.start, w.stream.reach))
    && w.received == Span(log, origin, origin + |w.received|)
    && (|w.received| > 0 ==> origin + |w.received| <= |log|) && w.loaded <= |log|
    && w.shown == Shown(log, w.loaded, origin, origin + |w.received|)
  }

  // Whatever the store commits, loses or delays, whichever reads fail or are cut, wherever
  // connections break and however often the client resumes.
  lemma StreamIsExact(store: Store.World, after: string, load: Read, acts: seq<Action>)
    requires Store.Sound(store) && |store.db.events| <= MAX_INT64 && Allowed(Connecting(store, after, load), acts)
    ensures var v := Play(Connecting(store, after, load), acts); Exact(v) && v.after == after
  {
    hide Store.Sound, Play, Allowed, WorldInv, Exact;
    ConnectingInv(store, after, load);
    PlayInv(Connecting(store, after, load), acts);
    ExactOf(Play(Connecting(store, after, load), acts));
  }

  lemma ExactOf(w: World)
    requires WorldInv(w)
    ensures Exact(w)
  {
    hide Store.Sound, LastEventSequence, Shown;
  }

  // What a console shows is a prefix of the log exactly when, of the events streamed to it, none
  // it does not listen to comes before one it does.
  lemma ConsoleGapIff(w: World)
    requires WorldInv(w) && Origin(w) == 0
    ensures |w.received| <= |w.store.db.events|
    ensures w.shown <= w.store.db.events <==>
            forall i, j | w.loaded <= i < j < |w.received| ::
              Listened(w.store.db.events[j].body.kind) ==> Listened(w.store.db.events[i].body.kind)
  {
    hide Store.Sound, LastEventSequence, Shown, Listened;
    NumberedRows(w.store);
    ShownIsPrefixIff(w.store.db.events, w.loaded, |w.received|);
  }
}
