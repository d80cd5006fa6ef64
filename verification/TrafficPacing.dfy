// How the limiter's clock paces the traffic. A timed schedule interleaves the steps of a pool or a
// race with the passing of time; the limiter sees the time, the ticks and who takes them, and the
// traffic sees everything but the time.
module TrafficPacing {
  import opened Prelude
  import opened Scenarios
  import opened Guardrails
  import Limiter = RequestLimiter

  datatype Timed<A> = Pause(dt: nat) | Do(act: A)

  // What a step means to the limiter.
  datatype Role = Ticking | Taking | Other

  function Untimed<A>(timed: seq<Timed<A>>): seq<A> {
    if |timed| == 0 then []
    else (if timed[0].Pause? then [] else [timed[0].act]) + Untimed(timed[1..])
  }

  function LimiterActs<A>(timed: seq<Timed<A>>, role: A -> Role): seq<Limiter.Action> {
    if |timed| == 0 then []
    else FirstActs(timed[0], role) + LimiterActs(timed[1..], role)
  }

  function FirstActs<A>(t: Timed<A>, role: A -> Role): seq<Limiter.Action> {
    match t
    case Pause(dt) => [Limiter.Elapse(dt)]
    case Do(act) => (match role(act) case Ticking => [Limiter.Fire] case Taking => [Limiter.Take] case Other => [])
  }

  function Playing<A>(acts: seq<A>, role: A -> Role, part: Role): nat {
    if |acts| == 0 then 0 else (if role(acts[0]) == part then 1 else 0) + Playing(acts[1..], role, part)
  }

  function Token(token: bool): nat {
    if token then 1 else 0
  }

  // The limiter passes as many requests as the schedule has takers.
  lemma {:induction false} TakesAreTimes<A>(d: nat, l: Limiter.World, timed: seq<Timed<A>>, role: A -> Role)
    requires Limiter.Allowed(d, l, LimiterActs(timed, role))
    ensures |Limiter.Play(l, LimiterActs(timed, role)).times| == |l.times| + Playing(Untimed(timed), role, Taking)
    decreases |timed|
  {
    if |timed| > 0 {
      var acts, first, rest := LimiterActs(timed, role), FirstActs(timed[0], role), LimiterActs(timed[1..], role);
      assert acts == first + rest;
      if |first| == 0 {
        assert acts == rest;
        TakesAreTimes(d, l, timed[1..], role);
      } else {
        assert acts[0] == first[0] && acts[1..] == rest;
        TakesAreTimes(d, Limiter.Next(l, acts[0]), timed[1..], role);
      }
      if timed[0].Do? {
        assert Untimed(timed) == [timed[0].act] + Untimed(timed[1..]);
        assert Untimed(timed)[1..] == Untimed(timed[1..]);
      } else {
        assert Untimed(timed) == Untimed(timed[1..]);
      }
    }
  }

  // What a schedule leaves of the times before it, and when its own are.
  lemma {:induction false} TimesGrow(d: nat, l: Limiter.World, acts: seq<Limiter.Action>)
    requires Limiter.Allowed(d, l, acts)
    ensures var l' := Limiter.Play(l, acts);
            && l.times <= l'.times && l.now <= l'.now
            && forall k | |l.times| <= k < |l'.times| :: l.now <= l'.times[k] <= l'.now
    decreases |acts|
  {
    if |acts| > 0 {
      TimesGrow(d, Limiter.Next(l, acts[0]), acts[1..]);
    }
  }

  // From any moment on: the requests that get through until a second after the limiter was made are
  // within the budget of a second, those before that moment included; and in any second from that
  // moment at most two more than the budget get through.
  lemma PassesArePaced<A>(rate: int, l: Limiter.World, timed: seq<Timed<A>>, role: A -> Role)
    requires rate >= 1 && Limiter.WorldInv(Limiter.Interval(rate), l)
    requires Limiter.Allowed(Limiter.Interval(rate), l, LimiterActs(timed, role))
    ensures var l', budget := Limiter.Play(l, LimiterActs(timed, role)), Limiter.SECOND / Limiter.Interval(rate);
            var passes := Playing(Untimed(timed), role, Taking);
            && (l'.now <= Limiter.SECOND ==> |l.times| + passes <= budget)
            && (l'.now <= l.now + Limiter.SECOND ==> passes <= budget + 2)
  {
    var d, acts := Limiter.Interval(rate), LimiterActs(timed, role);
    TakesAreTimes(d, l, timed, role);
    TimesGrow(d, l, acts);
    Limiter.PlayInv(d, l, acts);
    PassesOfTimes(d, l, Limiter.Play(l, acts));
  }

  lemma PassesOfTimes(d: nat, l: Limiter.World, l': Limiter.World)
    requires d >= 1 && Limiter.WorldInv(d, l')
    requires l.times <= l'.times && l.now <= l'.now
    requires forall k | |l.times| <= k < |l'.times| :: l.now <= l'.times[k] <= l'.now
    ensures l'.now <= Limiter.SECOND ==> |l'.times| <= Limiter.SECOND / d
    ensures l'.now <= l.now + Limiter.SECOND ==> |l'.times| - |l.times| <= Limiter.SECOND / d + 2
  {
    var n := |l'.times|;
    if n > 0 && l'.now <= Limiter.SECOND {
      LastPassed(d, l');
      hide Limiter.WorldInv;
      Limiter.FirstWindow(d, l', n - 1, Limiter.SECOND);
    }
    if n > |l.times| && l'.now <= l.now + Limiter.SECOND {
      hide Limiter.WorldInv;
      Limiter.AnyWindow(d, l', |l.times|, n - 1, Limiter.SECOND);
    }
  }

  lemma LastPassed(d: nat, l: Limiter.World)
    requires Limiter.WorldInv(d, l) && |l.times| > 0
    ensures l.times[|l.times| - 1] <= l.now
  {
  }

  lemma TimedPush<A>(t: Timed<A>, rest: seq<Timed<A>>, role: A -> Role)
    ensures Untimed([t] + rest) == (if t.Pause? then [] else [t.act]) + Untimed(rest)
    ensures LimiterActs([t] + rest, role) == FirstActs(t, role) + LimiterActs(rest, role)
  {
    assert ([t] + rest)[1..] == rest;
  }

  lemma LimiterPush(d: nat, l: Limiter.World, act: Limiter.Action, rest: seq<Limiter.Action>)
    requires Limiter.Enabled(d, l, act) && Limiter.Allowed(d, Limiter.Next(l, act), rest)
    ensures Limiter.Allowed(d, l, [act] + rest)
  {
    assert ([act] + rest)[1..] == rest;
  }

  // Every schedule of the traffic can happen in time: a tick comes when its moment has come.
  lemma {:induction false} TimingExists<A>(d: nat, l: Limiter.World, acts: seq<A>, role: A -> Role) returns (timed: seq<Timed<A>>)
    requires Limiter.WorldInv(d, l) && TokensSuffice(l.token.Some?, acts, role)
    ensures Untimed(timed) == acts && Limiter.Allowed(d, l, LimiterActs(timed, role))
    decreases |acts|
  {
    if |acts| == 0 {
      timed := [];
    } else {
      NothingTaken(d, l);
      var first: seq<Timed<A>> := [Do(acts[0])];
      var l' := l;
      match role(acts[0]) {
        case Ticking =>
          TickInTime(d, l);
          first := [Pause((l.fired + 1) * d - l.now)] + first;
          l' := Limiter.Next(Limiter.Next(l, Limiter.Elapse((l.fired + 1) * d - l.now)), Limiter.Fire);
        case Taking =>
          Limiter.TakeKeeps(d, l);
          l' := Limiter.Next(l, Limiter.Take);
        case Other =>
      }
      hide Limiter.WorldInv, Limiter.Next, Limiter.Enabled;
      var rest := TimingExists(d, l', acts[1..], role);
      timed := first + rest;
      FirstInTime(d, l, l', acts[0], first, rest, role);
    }
  }

  lemma FirstInTime<A>(d: nat, l: Limiter.World, l': Limiter.World, act: A, first: seq<Timed<A>>, rest: seq<Timed<A>>, role: A -> Role)
    requires if role(act) == Ticking
             then exists dt: nat :: first == [Pause(dt)] + [Do(act)] && InTime(d, l, l', dt)
             else first == [Do(act)] &&
                  if role(act) == Taking then Limiter.Enabled(d, l, Limiter.Take) && l' == Limiter.Next(l, Limiter.Take) else l' == l
    requires Limiter.Allowed(d, l', LimiterActs(rest, role))
    ensures Untimed(first + rest) == [act] + Untimed(rest) && Limiter.Allowed(d, l, LimiterActs(first + rest, role))
  {
    hide Limiter.Next, Limiter.Enabled, Limiter.Allowed;
    TimedPush(Do(act), rest, role);
    match role(act) {
      case Ticking =>
        var dt: nat :| first == [Pause(dt)] + [Do(act)] && InTime(d, l, l', dt);
        TimedPush(Pause(dt), [Do(act)] + rest, role);
        assert first + rest == [Pause(dt)] + ([Do(act)] + rest);
        LimiterPush(d, Limiter.Next(l, Limiter.Elapse(dt)), Limiter.Fire, LimiterActs(rest, role));
        LimiterPush(d, l, Limiter.Elapse(dt), [Limiter.Fire] + LimiterActs(rest, role));
      case Taking => LimiterPush(d, l, Limiter.Take, LimiterActs(rest, role));
      case Other => assert LimiterActs(first + rest, role) == LimiterActs(rest, role);
    }
  }

  // The limiter comes from one world to the next by waiting and ticking.
  predicate InTime(d: nat, l: Limiter.World, l': Limiter.World, dt: nat) {
    var waited := Limiter.Next(l, Limiter.Elapse(dt));
    Limiter.Enabled(d, l, Limiter.Elapse(dt)) && Limiter.Enabled(d, waited, Limiter.Fire) && l' == Limiter.Next(waited, Limiter.Fire)
  }

  lemma TickInTime(d: nat, l: Limiter.World)
    requires Limiter.WorldInv(d, l)
    ensures var dt := (l.fired + 1) * d - l.now;
            && 0 <= dt
            && var l' := Limiter.Next(Limiter.Next(l, Limiter.Elapse(dt)), Limiter.Fire);
               InTime(d, l, l', dt) && Limiter.WorldInv(d, l') && l'.token.Some?
  {
    Limiter.FireKeeps(d, Limiter.Next(l, Limiter.Elapse((l.fired + 1) * d - l.now)));
  }

  lemma NothingTaken(d: nat, l: Limiter.World)
    ensures Limiter.Enabled(d, l, Limiter.Take) <==> l.token.Some?
    ensures l.token.Some? ==> Limiter.Next(l, Limiter.Take).token.None?
  {
  }

  // Nobody takes a tick that is not there; ticks do not add up.
  predicate TokensSuffice<A>(token: bool, acts: seq<A>, role: A -> Role)
    decreases |acts|
  {
    |acts| == 0 ||
    (match role(acts[0])
     case Ticking => TokensSuffice(true, acts[1..], role)
     case Taking => token && TokensSuffice(false, acts[1..], role)
     case Other => TokensSuffice(token, acts[1..], role))
  }
}
