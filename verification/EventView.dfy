// The console's list of events: every arrival replaces the event of the same sequence number,
// and the list is sorted again.
module EventView {
  import opened Prelude
  import opened RunEvents

  ghost predicate Increasing(view: seq<Event>) {
    forall i, j | 0 <= i < j < |view| :: view[i].sequence < view[j].sequence
  }

  // Where the arrivals have repeats of a sequence number, the later one counts.
  function Other(sequence: nat): Event -> bool {
    (e: Event) => e.sequence != sequence
  }

  // A stable sort by sequence number.
  function InsertEvent(view: seq<Event>, e: Event): (r: seq<Event>)
    ensures |r| == |view| + 1
  {
    if |view| == 0 || view[|view| - 1].sequence <= e.sequence then view + [e]
    else InsertEvent(view[..|view| - 1], e) + [view[|view| - 1]]
  }

  function SortEvents(events: seq<Event>): (r: seq<Event>)
    ensures |r| == |events|
  {
    if |events| == 0 then [] else InsertEvent(SortEvents(events[..|events| - 1]), events[|events| - 1])
  }

  function Merged(view: seq<Event>, e: Event): seq<Event> {
    SortEvents(Filter(view, Other(e.sequence)) + [e])
  }

  function MergedAll(view: seq<Event>, arrivals: seq<Event>): seq<Event> {
    if |arrivals| == 0 then view else Merged(MergedAll(view, arrivals[..|arrivals| - 1]), arrivals[|arrivals| - 1])
  }

  method AppendRunEvent(current: seq<Event>, event: Event) returns (next: seq<Event>)
    ensures next == Merged(current, event)
  {
    next := [];
    assert current[..0] == [];
    for i := 0 to |current|
      invariant next == Filter(current[..i], Other(event.sequence))
    {
      assert current[..i + 1] == current[..i] + [current[i]];
      FilterPush(current[..i], current[i], Other(event.sequence));
      if current[i].sequence != event.sequence {
        next := next + [current[i]];
      }
    }
    assert current[..|current|] == current;
    next := next + [event];
    next := SortEvents(next);
  }

  // ----- sorting -------------------------------------------------------------

  lemma {:induction false} InsertMembers(view: seq<Event>, e: Event)
    ensures forall x :: x in InsertEvent(view, e) <==> x in view || x == e
  {
    if |view| > 0 && view[|view| - 1].sequence > e.sequence {
      InsertMembers(view[..|view| - 1], e);
      assert view == view[..|view| - 1] + [view[|view| - 1]];
    }
  }

  lemma {:induction false} InsertIncreasing(view: seq<Event>, e: Event)
    requires Increasing(view) && forall x | x in view :: x.sequence != e.sequence
    ensures Increasing(InsertEvent(view, e))
  {
    if |view| > 0 && view[|view| - 1].sequence > e.sequence {
      var front, last := view[..|view| - 1], view[|view| - 1];
      assert forall x | x in front :: x in view;
      InsertIncreasing(front, e);
      InsertMembers(front, e);
      forall x | x in InsertEvent(front, e)
        ensures x.sequence < last.sequence
      {
        if x in front {
          var i :| 0 <= i < |front| && front[i] == x;
          assert view[i].sequence < view[|front|].sequence;
        }
      }
      PushIncreasing(InsertEvent(front, e), last);
    } else {
      forall x | x in view
        ensures x.sequence < e.sequence
      {
        var i :| 0 <= i < |view| && view[i] == x;
        assert i < |view| - 1 ==> view[i].sequence < view[|view| - 1].sequence;
      }
      PushIncreasing(view, e);
    }
  }

  lemma PushIncreasing(view: seq<Event>, e: Event)
    requires Increasing(view) && forall x | x in view :: x.sequence < e.sequence
    ensures Increasing(view + [e])
  {
    var v := view + [e];
    forall i, j | 0 <= i < j < |v|
      ensures v[i].sequence < v[j].sequence
    {
      assert v[i] in view;
    }
  }

  lemma {:induction false} SortMembers(events: seq<Event>)
    ensures forall x :: x in SortEvents(events) <==> x in events
  {
    if |events| > 0 {
      SortMembers(events[..|events| - 1]);
      InsertMembers(SortEvents(events[..|events| - 1]), events[|events| - 1]);
      assert events == events[..|events| - 1] + [events[|events| - 1]];
    }
  }

  // No two of the events share a sequence number.
  ghost predicate Unambiguous(events: seq<Event>) {
    forall i, j | 0 <= i < j < |events| :: events[i].sequence != events[j].sequence
  }

  lemma {:induction false} SortIncreasing(events: seq<Event>)
    requires Unambiguous(events)
    ensures Increasing(SortEvents(events))
  {
    if |events| > 0 {
      var front, last := events[..|events| - 1], events[|events| - 1];
      SortIncreasing(front);
      SortMembers(front);
      forall x | x in SortEvents(front)
        ensures x.sequence != last.sequence
      {
        var i :| 0 <= i < |front| && front[i] == x;
        assert events[i].sequence != events[|front|].sequence;
      }
      InsertIncreasing(SortEvents(front), last);
    }
  }

  // ----- one arrival ---------------------------------------------------------

  lemma {:induction false} FilterIncreasing(view: seq<Event>, keep: Event -> bool)
    requires Increasing(view)
    ensures Increasing(Filter(view, keep))
  {
    if |view| > 0 {
      var front, last := view[..|view| - 1], view[|view| - 1];
      FilterIncreasing(front, keep);
      FilterMembers(front, keep);
      if keep(last) {
        forall x | x in Filter(front, keep)
          ensures x.sequence < last.sequence
        {
          var i :| 0 <= i < |front| && front[i] == x;
          assert view[i].sequence < view[|front|].sequence;
        }
        PushIncreasing(Filter(front, keep), last);
      } else {
        assert Filter(view, keep) == Filter(front, keep);
      }
    }
  }

  // An arrival takes the place of its sequence number; all else stays, in order.
  lemma MergedMeaning(view: seq<Event>, e: Event)
    requires Increasing(view)
    ensures Increasing(Merged(view, e))
    ensures forall x :: x in Merged(view, e) <==> x == e || (x in view && x.sequence != e.sequence)
  {
    var kept := Filter(view, Other(e.sequence));
    FilterIncreasing(view, Other(e.sequence));
    FilterMembers(view, Other(e.sequence));
    var events := kept + [e];
    forall i, j | 0 <= i < j < |events|
      ensures events[i].sequence != events[j].sequence
    {
      if j == |kept| {
        assert kept[i] in kept;
      }
    }
    SortIncreasing(events);
    SortMembers(events);
  }

  // ----- any arrivals --------------------------------------------------------

  // The last arrival with a sequence number.
  function LastWith(arrivals: seq<Event>, sequence: nat): Option<Event> {
    if |arrivals| == 0 then None
    else if arrivals[|arrivals| - 1].sequence == sequence then Some(arrivals[|arrivals| - 1])
    else LastWith(arrivals[..|arrivals| - 1], sequence)
  }

  // Whatever arrives, repeated or out of order: the view is sorted and free of duplicates, and
  // holds for every sequence number the last arrival with it, or what was there before.
  lemma {:induction false} MergedAllMeaning(view: seq<Event>, arrivals: seq<Event>)
    requires Increasing(view)
    ensures Increasing(MergedAll(view, arrivals))
    ensures forall x :: x in MergedAll(view, arrivals) <==>
              var last := LastWith(arrivals, x.sequence);
              if last.Some? then x == last.value else x in view
  {
    if |arrivals| > 0 {
      hide Merged, Increasing;
      var front, last := arrivals[..|arrivals| - 1], arrivals[|arrivals| - 1];
      MergedAllMeaning(view, front);
      MergedMeaning(MergedAll(view, front), last);
    }
  }

  lemma AtMostLast(view: seq<Event>, x: Event)
    requires Increasing(view) && x in view
    ensures var last := view[|view| - 1]; x.sequence <= last.sequence && (x.sequence == last.sequence ==> x == last)
  {
    var i :| 0 <= i < |view| && view[i] == x;
    assert i < |view| - 1 ==> view[i].sequence < view[|view| - 1].sequence;
  }

  lemma SomeMember(a: seq<Event>, b: seq<Event>)
    requires |a| > 0 && forall x :: x in a ==> x in b
    ensures |b| > 0
  {
    assert a[0] in b;
  }

  // Two sorted, duplicate-free lists with the same members are equal.
  lemma {:induction false} SameMembersSameView(a: seq<Event>, b: seq<Event>)
    requires Increasing(a) && Increasing(b)
    requires forall x :: x in a <==> x in b
    ensures a == b
    decreases |a|
  {
    if |a| > 0 {
      SomeMember(a, b);
      var fa, la, fb, lb := a[..|a| - 1], a[|a| - 1], b[..|b| - 1], b[|b| - 1];
      AtMostLast(a, lb);
      AtMostLast(b, la);
      forall x
        ensures x in fa <==> x in fb
      {
        WithoutLast(a, x);
        WithoutLast(b, x);
      }
      SameMembersSameView(fa, fb);
      assert a == fa + [la] && b == fb + [lb];
    } else if |b| > 0 {
      SomeMember(b, a);
    }
  }

  lemma WithoutLast(a: seq<Event>, x: Event)
    requires Increasing(a) && |a| > 0
    ensures x in a[..|a| - 1] <==> x in a && x != a[|a| - 1]
  {
    assert a == a[..|a| - 1] + [a[|a| - 1]];
    if x in a[..|a| - 1] {
      var i :| 0 <= i < |a| - 1 && a[i] == x;
      assert a[i].sequence < a[|a| - 1].sequence;
    }
  }

  // ----- what the console shows of a log -------------------------------------

  // The kinds the console listens to. The worker's own four kinds are not among them.
  predicate Listened(k: Kind) {
    k in {RunQueued, RunStarted, SetupStarted, SetupCompleted, TeardownStarted, TeardownCompleted,
          RequestStarted, RequestCompleted, AssertionFailed, InvariantFailed, ThresholdFailed,
          CancelRequested, RunCompleted, RunFailed, RunCanceled}
  }

  // Shown: the first entries, loaded at once, and of those streamed, the ones listened to.
  function Visible(loaded: nat, start: nat, end: nat): Event -> bool {
    (e: Event) => e.sequence <= loaded || (start < e.sequence <= end && Listened(e.body.kind))
  }

  function Shown(log: seq<Event>, loaded: nat, start: nat, end: nat): seq<Event> {
    Filter(log, Visible(loaded, start, end))
  }

  lemma ShownMembers(log: seq<Event>, loaded: nat, start: nat, end: nat)
    requires Numbered(log)
    ensures Increasing(Shown(log, loaded, start, end))
    ensures forall x :: x in Shown(log, loaded, start, end) <==> x in log && Visible(loaded, start, end)(x)
  {
    FilterIncreasing(log, Visible(loaded, start, end));
    FilterMembers(log, Visible(loaded, start, end));
  }

  lemma NumberedMember(log: seq<Event>, x: Event, k: nat)
    requires Numbered(log) && k < |log| && x in log && x.sequence == k + 1
    ensures x == log[k]
  {
    var i :| 0 <= i < |log| && log[i] == x;
  }

  // The console receives the next entry of the log.
  lemma ShownGrows(log: seq<Event>, loaded: nat, start: nat, end: nat)
    requires Numbered(log) && start <= end < |log|
    ensures Shown(log, loaded, start, end + 1) ==
            if Listened(log[end].body.kind) then Merged(Shown(log, loaded, start, end), log[end])
            else Shown(log, loaded, start, end)
  {
    hide Merged, Increasing, Shown, Listened;
    var e, view, result := log[end], Shown(log, loaded, start, end), Shown(log, loaded, start, end + 1);
    ShownMembers(log, loaded, start, end);
    ShownMembers(log, loaded, start, end + 1);
    MergedMeaning(view, e);
    forall x | x in log && x.sequence == end + 1
      ensures x == e
    {
      NumberedMember(log, x, end);
    }
    assert e in log && e.sequence == end + 1;
    SameMembersSameView(if Listened(e.body.kind) then Merged(view, e) else view, result);
  }

  // Entries beyond all that was loaded or streamed are not shown.
  lemma ShownStable(log: seq<Event>, longer: seq<Event>, loaded: nat, start: nat, end: nat)
    requires Numbered(longer) && log <= longer && loaded <= |log| && (start < end ==> end <= |log|)
    ensures Shown(longer, loaded, start, end) == Shown(log, loaded, start, end)
    decreases |longer|
  {
    if |longer| > |log| {
      ShownStable(log, longer[..|longer| - 1], loaded, start, end);
    } else {
      assert longer == log;
    }
  }

  // A filtered log is a prefix of it exactly when nothing left out comes before something kept.
  lemma {:induction false} PrefixIff(log: seq<Event>, keep: Event -> bool)
    requires Numbered(log)
    ensures Filter(log, keep) <= log <==> forall i, j | 0 <= i < j < |log| :: keep(log[j]) ==> keep(log[i])
  {
    FilterMembers(log, keep);
    if Filter(log, keep) <= log {
      forall i, j | 0 <= i < j < |log| && keep(log[j])
        ensures keep(log[i])
      {
        assert log[j] in Filter(log, keep);
        var k :| 0 <= k < |Filter(log, keep)| && Filter(log, keep)[k] == log[j];
        assert log[k].sequence == k + 1;
        assert Filter(log, keep)[i] in Filter(log, keep);
      }
    }
    if forall i, j | 0 <= i < j < |log| :: keep(log[j]) ==> keep(log[i]) {
      KeptFirst(log, keep);
    }
  }

  lemma {:induction false} KeptFirst(log: seq<Event>, keep: Event -> bool)
    requires forall i, j | 0 <= i < j < |log| :: keep(log[j]) ==> keep(log[i])
    ensures Filter(log, keep) <= log
    ensures |log| > 0 && keep(log[|log| - 1]) ==> Filter(log, keep) == log
  {
    if |log| > 0 {
      var front := log[..|log| - 1];
      KeptFirst(front, keep);
      assert log == front + [log[|log| - 1]];
    }
  }

  // The console shows a prefix of the log exactly when no streamed entry it does not listen to
  // comes before a streamed entry it does.
  lemma ShownIsPrefixIff(log: seq<Event>, loaded: nat, end: nat)
    requires Numbered(log) && loaded <= |log| && end <= |log|
    ensures Shown(log, loaded, 0, end) <= log <==>
            forall i, j | loaded <= i < j < end :: Listened(log[j].body.kind) ==> Listened(log[i].body.kind)
  {
    hide Listened;
    PrefixIff(log, Visible(loaded, 0, end));
  }
}
