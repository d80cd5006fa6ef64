// The request limiter: a ticker with a channel of one slot. Setup, traffic, probes and teardown
// of a run all wait on the same limiter. Time is in nanoseconds since the limiter was made.
module RequestLimiter {
  import opened Prelude
  import opened Scenarios
  import opened Guardrails

  const SECOND: nat := 1_000_000_000

  // The period of the ticker; a rate of zero or less has no ticker.
  function Interval(rate: int): nat
    requires rate >= 1
    ensures Interval(rate) >= 1
  {
    if SECOND / rate <= 0 then 1 else SECOND / rate
  }

  // token is the number of the tick that waits in the channel. stamps is history: the tick that
  // each request took, as times is the moment it took it.
  datatype World = World(now: nat, fired: nat, token: Option<nat>, times: seq<nat>, stamps: seq<nat>)

  const START := World(0, 0, None, [], [])

  datatype Action = Elapse(dt: nat) | Fire | Take

  // The ticker is ideal: time does not pass a tick that has not fired. A tick that finds the
  // slot full is dropped.
  predicate Enabled(d: nat, w: World, act: Action) {
    match act
    case Elapse(dt) => w.now + dt <= (w.fired + 1) * d
    case Fire => w.now == (w.fired + 1) * d
    case Take => w.token.Some?
  }

  function Next(w: World, act: Action): World {
    match act
    case Elapse(dt) => w.(now := w.now + dt)
    case Fire => w.(fired := w.fired + 1, token := if w.token.None? then Some(w.fired + 1) else w.token)
    case Take =>
      if w.token.None? then w
      else w.(token := None, times := w.times + [w.now], stamps := w.stamps + [w.token.value])
  }

  predicate Allowed(d: nat, w: World, acts: seq<Action>)
    decreases |acts|
  {
    |acts| == 0 || (Enabled(d, w, acts[0]) && Allowed(d, Next(w, acts[0]), acts[1..]))
  }

  function Play(w: World, acts: seq<Action>): World
    decreases |acts|
  {
    if |acts| == 0 then w else Play(Next(w, acts[0]), acts[1..])
  }

  // ----- the invariant -------------------------------------------------------

  // Each request takes a later tick than the one before it, no earlier than that tick fired,
  // and the tick fired no earlier than the request before it.
  ghost predicate WorldInv(d: nat, w: World) {
    && |w.times| == |w.stamps|
    && w.fired * d <= w.now <= (w.fired + 1) * d
    && (forall k | 0 <= k < |w.stamps| :: k + 1 <= w.stamps[k] <= w.fired && w.stamps[k] * d <= w.times[k] <= w.now)
    && (forall j, k | 0 <= j < k < |w.stamps| :: w.stamps[j] + (k - j) <= w.stamps[k])
    && (forall j, k | 0 <= j < k < |w.stamps| :: w.times[j] <= w.stamps[k] * d)
    && (w.token.Some? ==> |w.stamps| + 1 <= w.token.value <= w.fired && w.token.value * d <= w.now)
    && (w.token.Some? ==> forall j | 0 <= j < |w.stamps| :: w.times[j] <= w.token.value * d)
    && (w.token.Some? ==> forall j | 0 <= j < |w.stamps| :: w.stamps[j] + (|w.stamps| - j) <= w.token.value)
  }

  lemma TakeKeeps(d: nat, w: World)
    requires WorldInv(d, w) && w.token.Some?
    ensures WorldInv(d, Next(w, Take))
  {
  }

  lemma FireKeeps(d: nat, w: World)
    requires WorldInv(d, w) && Enabled(d, w, Fire)
    ensures WorldInv(d, Next(w, Fire))
  {
    assert (w.fired + 2) * d == (w.fired + 1) * d + d;
    var n := |w.stamps|;
    assert forall j | 0 <= j < n :: w.times[j] <= w.now;
    if w.token.None? && n > 0 {
      assert n <= w.stamps[n - 1];
      assert forall j | 0 <= j < n - 1 :: w.stamps[j] + (n - 1 - j) <= w.stamps[n - 1];
    }
  }

  lemma {:induction false} PlayInv(d: nat, w: World, acts: seq<Action>)
    requires WorldInv(d, w) && Allowed(d, w, acts)
    ensures WorldInv(d, Play(w, acts))
    decreases |acts|
  {
    if |acts| > 0 {
      match acts[0] {
        case Elapse(dt) =>
        case Fire => FireKeeps(d, w);
        case Take => TakeKeeps(d, w);
      }
      hide WorldInv, Enabled, Next;
      PlayInv(d, Next(w, acts[0]), acts[1..]);
    }
  }

  // ----- the bounds ----------------------------------------------------------

  lemma MultiplesApart(a: nat, b: nat, d: nat, s: nat)
    requires d >= 1 && a <= b && b * d <= a * d + s
    ensures b - a <= s / d
  {
    assert (b - a) * d <= s;
    DivisionBound(b - a, d, s);
  }

  lemma Scaled(a: nat, b: nat, d: nat)
    ensures a <= b ==> a * d <= b * d
  {
  }

  lemma DivisionBound(n: nat, d: nat, s: nat)
    requires d >= 1 && n * d <= s
    ensures n <= s / d
  {
    assert s == s / d * d + s % d;
    Scaled(s / d + 1, n, d);
  }

  // From the making of the limiter until time s there are at most s / d requests.
  lemma FirstWindow(d: nat, w: World, k: nat, s: nat)
    requires WorldInv(d, w) && d >= 1 && k < |w.times| && w.times[k] <= s
    ensures k + 1 <= s / d
  {
    DivisionBound(w.stamps[k], d, s);
  }

  // Any window of length s, its ends included, has at most s / d + 2: one waiting in the
  // channel before the window, and the ticks that fall into it.
  lemma AnyWindow(d: nat, w: World, m: nat, k: nat, s: nat)
    requires WorldInv(d, w) && d >= 1 && m <= k < |w.times| && w.times[k] <= w.times[m] + s
    ensures k - m + 1 <= s / d + 2
  {
    if m + 1 <= k {
      assert w.times[m] <= w.stamps[m + 1] * d;
      MultiplesApart(w.stamps[m + 1], w.stamps[k], d, s);
    }
  }

  // Requests in the first second and in any one-second window, for a limiter of a given rate.
  lemma Paced(rate: int, acts: seq<Action>)
    requires rate >= 1 && Allowed(Interval(rate), START, acts)
    ensures var times, budget := Play(START, acts).times, SECOND / Interval(rate);
            && (forall k | 0 <= k < |times| && times[k] <= SECOND :: k + 1 <= budget)
            && (forall m, k | 0 <= m <= k < |times| && times[k] <= times[m] + SECOND :: k - m + 1 <= budget + 2)
  {
    var d := Interval(rate);
    assert WorldInv(d, START);
    PlayInv(d, START, acts);
    var w := Play(START, acts);
    forall k | 0 <= k < |w.times| && w.times[k] <= SECOND
      ensures k + 1 <= SECOND / d
    {
      FirstWindow(d, w, k, SECOND);
    }
    forall m, k | 0 <= m <= k < |w.times| && w.times[k] <= w.times[m] + SECOND
      ensures k - m + 1 <= SECOND / d + 2
    {
      AnyWindow(d, w, m, k, SECOND);
    }
  }

  // ----- how the budget relates to the rate ----------------------------------

  lemma QuotientIs(n: nat, d: nat, q: nat)
    requires d >= 1 && q * d <= n < (q + 1) * d
    ensures n / d == q
  {
    DivisionBound(q, d, n);
    assert n == n / d * d + n % d;
    Scaled(q + 1, n / d, d);
  }

  // The period is cut down to whole nanoseconds, so a second may hold more periods than the
  // rate asks for; it holds exactly as many when the remainder is small.
  lemma BudgetIsRateIff(rate: int)
    requires 1 <= rate <= SECOND
    ensures SECOND / Interval(rate) >= rate
    ensures SECOND / Interval(rate) == rate <==> SECOND % rate < SECOND / rate
  {
    var d := SECOND / rate;
    DivisionBound(1, rate, SECOND);
    assert Interval(rate) == d >= 1;
    assert SECOND == rate * d + SECOND % rate;
    DivisionBound(rate, d, SECOND);
    if SECOND % rate < d {
      assert (rate + 1) * d == rate * d + d;
      QuotientIs(SECOND, d, rate);
    } else {
      assert (rate + 1) * d == rate * d + d <= SECOND;
      DivisionBound(rate + 1, d, SECOND);
    }
  }

  // Faster than one per nanosecond cannot be asked for.
  lemma BudgetOfHugeRate(rate: int)
    requires rate > SECOND
    ensures Interval(rate) == 1 && SECOND / Interval(rate) == SECOND < rate
  {
    QuotientIs(SECOND, rate, 0);
  }

  // Every rate up to 31622, the integer root of a second, keeps its own budget.
  lemma SmallRatesAreExact(rate: int)
    requires 1 <= rate <= 31622
    ensures SECOND / Interval(rate) == rate
  {
    hide Interval;
    Scaled(rate, 31622, rate);
    Scaled(rate, 31622, 31622);
    DivisionBound(rate, rate, SECOND);
    BudgetIsRateIff(rate);
  }

  // Rates whose second is cut into no more periods than the rate asks for. Faster than one
  // per nanosecond cannot be had, so a larger rate is never reached.
  predicate KeepsBudget(rate: int)
    requires rate >= 1
  {
    rate > SECOND || SECOND % rate < SECOND / rate
  }

  lemma KeepsBudgetIff(rate: int)
    requires rate >= 1
    ensures KeepsBudget(rate) <==> SECOND / Interval(rate) <= rate
    ensures rate <= 31622 ==> KeepsBudget(rate)
  {
    hide Interval;
    if rate > SECOND {
      BudgetOfHugeRate(rate);
    } else {
      BudgetIsRateIff(rate);
      if rate <= 31622 {
        SmallRatesAreExact(rate);
      }
    }
  }

  // A run of an admitted scenario under a positive cap has a rate within the cap. If that rate
  // keeps its budget, as all up to 31622 do, the run starts no more requests in its first
  // second than the cap, and at most two more in any second.
  lemma AdmittedRunIsPaced(t: Traffic, caps: Caps, acts: seq<Action>)
    requires Admissible(t, caps) && caps.maxRequestRate >= 1
    requires Allowed(Interval(ApplyRunGuardrails(t, caps).ratePerSecond), START, acts)
    ensures var rate, times := ApplyRunGuardrails(t, caps).ratePerSecond, Play(START, acts).times;
            && 1 <= rate <= caps.maxRequestRate
            && (rate <= 31622 ==> KeepsBudget(rate))
            && (KeepsBudget(rate) ==>
                  && (forall k | 0 <= k < |times| && times[k] <= SECOND :: k + 1 <= caps.maxRequestRate)
                  && (forall m, k | 0 <= m <= k < |times| && times[k] <= times[m] + SECOND :: k - m + 1 <= caps.maxRequestRate + 2))
  {
    AdmittedRunIsCapped(t, caps);
    hide Interval, Allowed, Play, KeepsBudget;
    var rate := ApplyRunGuardrails(t, caps).ratePerSecond;
    KeepsBudgetIff(rate);
    Paced(rate, acts);
  }

  lemma {:induction false} PlayPush(d: nat, w: World, acts: seq<Action>, act: Action)
    requires Allowed(d, w, acts) && Enabled(d, Play(w, acts), act)
    ensures Allowed(d, w, acts + [act]) && Play(w, acts + [act]) == Next(Play(w, acts), act)
    decreases |acts|
  {
    hide Enabled, Next;
    if |acts| == 0 {
      assert acts + [act] == [act] && [act][1..] == [];
    } else {
      assert (acts + [act])[1..] == acts[1..] + [act];
      PlayPush(d, Next(w, acts[0]), acts[1..], act);
    }
  }

  // The two more are real: at one request a second, three can fall within a second.
  lemma WindowIsTight() returns (acts: seq<Action>)
    ensures Allowed(Interval(1), START, acts)
    ensures var times := Play(START, acts).times; |times| == 3 && times[2] <= times[0] + SECOND
  {
    hide Allowed, Play;
    var d := Interval(1);
    acts := [];
    assert Allowed(d, START, []) && Play(START, []) == START by { NothingYet(d); }
    PlayPush(d, START, acts, Elapse(SECOND));
    acts := acts + [Elapse(SECOND)];
    PlayPush(d, START, acts, Fire);
    acts := acts + [Fire];
    PlayPush(d, START, acts, Elapse(SECOND));
    acts := acts + [Elapse(SECOND)];
    PlayPush(d, START, acts, Take);
    acts := acts + [Take];
    PlayPush(d, START, acts, Fire);
    acts := acts + [Fire];
    PlayPush(d, START, acts, Take);
    acts := acts + [Take];
    PlayPush(d, START, acts, Elapse(SECOND));
    acts := acts + [Elapse(SECOND)];
    PlayPush(d, START, acts, Fire);
    acts := acts + [Fire];
    PlayPush(d, START, acts, Take);
    acts := acts + [Take];
  }

  lemma NothingYet(d: nat)
    ensures Allowed(d, START, []) && Play(START, []) == START
  {
  }

  // Requests that are always waiting take every tick as it fires.
  lemma {:induction false} EagerSchedule(d: nat, n: nat) returns (acts: seq<Action>)
    requires d >= 1
    ensures Allowed(d, START, acts)
    ensures var w := Play(START, acts);
            && w.now == n * d && w.fired == n && w.token.None?
            && |w.times| == n && forall k | 0 <= k < n :: w.times[k] == (k + 1) * d
  {
    hide Allowed, Play;
    if n == 0 {
      acts := [];
      NothingYet(d);
    } else {
      acts := EagerSchedule(d, n - 1);
      assert n * d == (n - 1) * d + d;
      PlayPush(d, START, acts, Elapse(d));
      acts := acts + [Elapse(d)];
      PlayPush(d, START, acts, Fire);
      acts := acts + [Fire];
      PlayPush(d, START, acts, Take);
      acts := acts + [Take];
    }
  }

  ghost predicate FirstSecondKept(rate: int)
    requires rate >= 1
  {
    forall acts | Allowed(Interval(rate), START, acts) ::
      forall k | 0 <= k < |Play(START, acts).times| && Play(START, acts).times[k] <= SECOND :: k + 1 <= rate
  }

  // The first second never holds more requests than the rate exactly for these rates.
  lemma FirstSecondKeptIff(rate: int)
    requires rate >= 1
    ensures FirstSecondKept(rate) <==> KeepsBudget(rate)
  {
    hide KeepsBudget, Interval, Allowed, Play;
    var d := Interval(rate);
    KeepsBudgetIff(rate);
    if SECOND / d <= rate {
      forall acts | Allowed(d, START, acts)
        ensures forall k | 0 <= k < |Play(START, acts).times| && Play(START, acts).times[k] <= SECOND :: k + 1 <= rate
      {
        Paced(rate, acts);
      }
    } else {
      var acts := EagerSchedule(d, rate + 1);
      WithinSecond(rate + 1, d);
      assert Play(START, acts).times[rate] <= SECOND;
    }
  }

  lemma WithinSecond(n: nat, d: nat)
    requires d >= 1 && n <= SECOND / d
    ensures n * d <= SECOND
  {
    Scaled(n, SECOND / d, d);
    assert SECOND / d * d + SECOND % d == SECOND;
  }

  // A rate for which it can: 31742 requests at a rate of 31741.
  lemma RateExceeded()
    ensures !FirstSecondKept(31741)
  {
    FirstSecondKeptIff(31741);
  }
}
