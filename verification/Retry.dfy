/** Retrying a call (`rsi_arena/core/retry.py`). */
module Retry {
  import opened Prelude

  /** What one attempt did. `Failed` carries what the two callbacks say about
      the exception: may it be retried, and did the server name a delay. */
  datatype Try<+T> =
    | Success(value: T)
    | Fatal                                              // FatalError
    | Cancelled                                          // asyncio.CancelledError
    | Failed(retryable: bool, serverDelay: Option<real>)

  /** `Nothing` is the RuntimeError of a policy that allows no attempt. */
  datatype Verdict<+T> = Returned(value: T) | Raised(last: Try<T>) | Nothing

  datatype Policy = Policy(
    maxAttempts: int,
    initialBackoff: real,
    maxBackoff: real,
    multiplier: real)

  function Power(base: real, n: nat): real {
    if n == 0 then 1.0 else base * Power(base, n - 1)
  }

  /** The most that `backoff` can return before attempt `attempt + 1`; jitter
      picks any share of it. */
  function Ceiling(p: Policy, attempt: nat): real
    requires attempt >= 1
  {
    Min(p.maxBackoff, p.initialBackoff * Power(p.multiplier, attempt - 1))
  }

  /** An attempt after which another one may be made. */
  predicate Again<T>(t: Try<T>) {
    t.Failed? && t.retryable
  }

  /** The verdict, and the number of attempts made, counting from `attempt`. */
  function Outcome<T>(maxAttempts: int, tries: nat -> Try<T>, attempt: nat): (Verdict<T>, nat)
    requires attempt >= 1
    decreases maxAttempts - attempt
  {
    if attempt > maxAttempts then (Nothing, attempt - 1)
    else
      var t := tries(attempt - 1);
      if t.Success? then (Returned(t.value), attempt)
      else if attempt >= maxAttempts || !Again(t) then (Raised(t), attempt)
      else Outcome(maxAttempts, tries, attempt + 1)
  }

  /** The attempts made before the last one all failed in a way that allows
      another, the last one decides, and there are never more than allowed. */
  lemma {:induction false} OutcomeFrom<T>(maxAttempts: int, tries: nat -> Try<T>, attempt: nat)
    requires 1 <= attempt <= maxAttempts
    ensures var (v, n) := Outcome(maxAttempts, tries, attempt);
            && attempt <= n <= maxAttempts
            && (forall k :: attempt - 1 <= k < n - 1 ==> tries(k).Failed? && tries(k).retryable)
            && v == (if tries(n - 1).Success? then Returned(tries(n - 1).value) else Raised(tries(n - 1)))
            && (v.Raised? ==> n == maxAttempts || !(tries(n - 1).Failed? && tries(n - 1).retryable))
    decreases maxAttempts - attempt
  {
    var t := tries(attempt - 1);
    if !t.Success? && attempt < maxAttempts && Again(t) {
      OutcomeFrom(maxAttempts, tries, attempt + 1);
    }
  }

  lemma AttemptsBounded<T>(maxAttempts: int, tries: nat -> Try<T>)
    ensures Outcome(maxAttempts, tries, 1).1 <= (if maxAttempts >= 0 then maxAttempts else 0)
  {
    if maxAttempts >= 1 { OutcomeFrom(maxAttempts, tries, 1); }
  }

  /** A call succeeds exactly when some allowed attempt succeeds and everything
      before it was retryable. */
  lemma SucceedsIff<T>(maxAttempts: int, tries: nat -> Try<T>)
    ensures Outcome(maxAttempts, tries, 1).0.Returned? <==>
            exists k: nat :: k < maxAttempts && tries(k).Success?
                        && forall j :: 0 <= j < k ==> tries(j).Failed? && tries(j).retryable
  {
    if maxAttempts >= 1 {
      OutcomeFrom(maxAttempts, tries, 1);
      var (v, n) := Outcome(maxAttempts, tries, 1);
      if v.Returned? {
        assert tries(n - 1).Success?;
      }
      if k: nat :| k < maxAttempts && tries(k).Success?
                     && forall j :: 0 <= j < k ==> tries(j).Failed? && tries(j).retryable
      {
        var last := tries(n - 1);
        assert k == n - 1;
      }
    }
  }

  /** The loop of `with_retry`. `shares` are the draws of the jitter. A delay
      the server named is slept as it is; any other lies under the ceiling. */
  method WithRetry<T>(p: Policy, tries: nat -> Try<T>, shares: nat -> real)
    returns (verdict: Verdict<T>, attempts: nat, slept: seq<real>)
    requires forall k :: 0.0 <= shares(k) <= 1.0
    ensures (verdict, attempts) == Outcome(p.maxAttempts, tries, 1)
    ensures |slept| == if attempts == 0 then 0 else attempts - 1
    ensures forall k :: 0 <= k < |slept| ==>
              tries(k).Failed? &&
              slept[k] == (if tries(k).serverDelay.Some? then tries(k).serverDelay.value
                           else Ceiling(p, k + 1) * shares(k))
  {
    slept := [];
    attempts := 0;
    while attempts < p.maxAttempts
      invariant attempts == 0 || attempts < p.maxAttempts
      invariant |slept| == attempts
      invariant Outcome(p.maxAttempts, tries, 1) == Outcome(p.maxAttempts, tries, attempts + 1)
      invariant forall k :: 0 <= k < |slept| ==>
                  tries(k).Failed? &&
                  slept[k] == (if tries(k).serverDelay.Some? then tries(k).serverDelay.value
                               else Ceiling(p, k + 1) * shares(k))
    {
      var t := tries(attempts);
      attempts := attempts + 1;
      if t.Success? {
        return Returned(t.value), attempts, slept;
      }
      if attempts >= p.maxAttempts || !Again(t) {
        return Raised(t), attempts, slept;
      }
      var delay := if t.serverDelay.Some? then t.serverDelay.value
                   else Ceiling(p, attempts) * shares(attempts - 1);
      slept := slept + [delay];
    }
    verdict := Nothing;
  }

  lemma Scales(x: real, a: real, b: real)
    requires x >= 0.0 && a <= b
    ensures x * a <= x * b
  {
    assert x * (b - a) >= 0.0;
  }

  lemma {:induction false} PowerGrows(base: real, n: nat)
    requires base >= 1.0
    ensures 1.0 <= Power(base, n) <= Power(base, n + 1)
  {
    if n > 0 { PowerGrows(base, n - 1); }
    Scales(Power(base, n), 1.0, base);
  }

  lemma {:induction false} PowerShrinks(base: real, n: nat)
    requires 0.0 <= base <= 1.0
    ensures 0.0 <= Power(base, n + 1) <= Power(base, n)
  {
    if n > 0 { PowerShrinks(base, n - 1); }
    var x := Power(base, n);
    Scales(x, 0.0, base);
    Scales(x, base, 1.0);
    assert Power(base, n + 1) == x * base && x * 0.0 == 0.0 && x * 1.0 == x;
  }

  /** The first ceiling is the initial backoff, and each next one the multiplier
      times the one before, until the maximum cuts them off. */
  lemma CeilingMultiplies(p: Policy, attempt: nat)
    requires attempt >= 1
    ensures Ceiling(p, 1) == if p.initialBackoff <= p.maxBackoff then p.initialBackoff else p.maxBackoff
    ensures Ceiling(p, attempt) < p.maxBackoff ==>
              var next := p.multiplier * Ceiling(p, attempt);
              Ceiling(p, attempt + 1) == if next <= p.maxBackoff then next else p.maxBackoff
  {
    var a := Power(p.multiplier, attempt - 1);
    assert Power(p.multiplier, 0) == 1.0 && Power(p.multiplier, attempt) == p.multiplier * a;
    Regroup(p.initialBackoff, p.multiplier, a);
  }

  lemma Regroup(x: real, m: real, a: real)
    ensures x * (m * a) == m * (x * a) && x * 1.0 == x
  {
  }

  /** No ceiling is above the maximum. From attempt to attempt they rise with a
      multiplier of one or more, and fall with one between zero and one. */
  lemma CeilingGrows(p: Policy, attempt: nat)
    requires attempt >= 1
    ensures Ceiling(p, attempt) <= p.maxBackoff
    ensures p.multiplier >= 1.0 && p.initialBackoff >= 0.0 ==> Ceiling(p, attempt) <= Ceiling(p, attempt + 1)
    ensures 0.0 <= p.multiplier <= 1.0 && p.initialBackoff >= 0.0 ==> Ceiling(p, attempt + 1) <= Ceiling(p, attempt)
  {
    hide Power;
    var a, b := Power(p.multiplier, attempt - 1), Power(p.multiplier, attempt);
    if p.multiplier >= 1.0 && p.initialBackoff >= 0.0 {
      PowerGrows(p.multiplier, attempt - 1);
      Scales(p.initialBackoff, a, b);
    }
    if 0.0 <= p.multiplier <= 1.0 && p.initialBackoff >= 0.0 {
      PowerShrinks(p.multiplier, attempt - 1);
      Scales(p.initialBackoff, b, a);
    }
  }
}
