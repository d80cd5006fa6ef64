// The numeric caps of the guardrails on traffic, and the default rate the API fills in.
module Guardrails {
  import opened Scenarios

  // A cap of zero or less is no cap.
  datatype Caps = Caps(maxConcurrency: int, maxRequestRate: int)

  predicate WithinCaps(t: Traffic, caps: Caps) {
    && !(caps.maxConcurrency > 0 && t.concurrency > caps.maxConcurrency)
    && !(caps.maxRequestRate > 0 && t.ratePerSecond > caps.maxRequestRate)
  }

  // The traffic part of Scenario.Validate.
  predicate ValidTraffic(t: Traffic) {
    && t.kind != Unset && !t.kind.Unknown?
    && t.concurrency >= 1 && t.iterations >= 1
    && t.ratePerSecond >= 0 && t.attempts >= 0 && t.backoffMS >= 0
  }

  predicate Admissible(t: Traffic, caps: Caps) {
    ValidTraffic(t) && WithinCaps(t, caps)
  }

  function ApplyRunGuardrails(t: Traffic, caps: Caps): Traffic {
    if caps.maxRequestRate > 0 && t.ratePerSecond == 0 then t.(ratePerSecond := caps.maxRequestRate) else t
  }

  // Under a positive cap every run is limited, and to at most the cap: at the rate of its author,
  // or if there is none at the largest rate that would have been admitted. A run without a limiter
  // needs both no cap and no rate of its own. Nothing else of the traffic changes.
  lemma AdmittedRunIsCapped(t: Traffic, caps: Caps)
    requires Admissible(t, caps)
    ensures var r := ApplyRunGuardrails(t, caps);
            && Admissible(r, caps)
            && (caps.maxRequestRate > 0 ==> 1 <= r.ratePerSecond <= caps.maxRequestRate)
            && (r.ratePerSecond == 0 <==> caps.maxRequestRate <= 0 && t.ratePerSecond == 0)
            && (t.ratePerSecond > 0 ==> r == t)
            && (forall rate | t.ratePerSecond == 0 && caps.maxRequestRate > 0 && Admissible(t.(ratePerSecond := rate), caps) :: rate <= r.ratePerSecond)
            && r.(ratePerSecond := t.ratePerSecond) == t
  {
  }

  // Which traffic is admitted once the defaults are filled in: of a known type, with no negative rate
  // and backoff, with no negative number of attempts unless a retry storm gets the default ones, and
  // with no more workers and no higher rate than the caps that are set.
  lemma AdmittedIff(t: Traffic, caps: Caps)
    ensures Admissible(NormalTraffic(t), caps) <==>
              && !t.kind.Unknown?
              && 0 <= t.ratePerSecond && 0 <= t.backoffMS && (0 <= t.attempts || t.kind == RetryStorm)
              && (caps.maxConcurrency < 1 || t.concurrency <= caps.maxConcurrency)
              && (caps.maxRequestRate < 1 || t.ratePerSecond <= caps.maxRequestRate)
  {
  }
}
