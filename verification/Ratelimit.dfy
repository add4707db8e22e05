/** The asynchronous limiter: a token bucket, a pause that every waiter keeps to,
    and a ceiling on concurrency (`rsi_arena/core/ratelimit.py`). */
module Ratelimit {
  import opened Prelude
  import opened Buckets
  import opened Reals

  /** `metered` is false for `per_second = None`. */
  datatype Limits = Limits(metered: bool, bucket: Bucket, pausedUntil: real)
  {
    /** One turn of the waiting loop: the delay to sleep, or None once granted. */
    function Try(now: real, cost: real): (Limits, Option<real>) {
      if now < pausedUntil then (this, Some(pausedUntil - now))
      else if !metered then (this, None)
      else
        var (b, ok) := bucket.Take(now, cost);
        (this.(bucket := b), if ok then None else Some(b.Wait(cost)))
    }

    function PauseFor(now: real, seconds: real): Limits {
      this.(pausedUntil := Max(pausedUntil, now + seconds))
    }
  }

  /** What happens to a limiter, from any number of callers. */
  datatype Event = Tried(now: real, cost: real) | Paused(now: real, seconds: real)

  /** In the order of the clock, and no try for less than nothing. */
  predicate Timed(from: real, es: seq<Event>)
    decreases es
  {
    es == [] ||
    (from <= es[0].now && (es[0].Tried? ==> es[0].cost >= 0.0) && Timed(es[0].now, es[1..]))
  }

  function Step(l: Limits, e: Event): Limits {
    match e
    case Tried(now, cost) => l.Try(now, cost).0
    case Paused(now, seconds) => l.PauseFor(now, seconds)
  }

  predicate Grants(l: Limits, e: Event) {
    e.Tried? && l.Try(e.now, e.cost).1.None?
  }

  function After(l: Limits, es: seq<Event>): Limits
    decreases es
  {
    if es == [] then l else After(Step(l, es[0]), es[1..])
  }

  /** The cost of all that is granted over a stretch. */
  function Admitted(l: Limits, es: seq<Event>): real
    decreases es
  {
    if es == [] then 0.0
    else (if Grants(l, es[0]) then es[0].cost else 0.0) + Admitted(Step(l, es[0]), es[1..])
  }

  predicate Ready(l: Limits, now: real) {
    l.bucket.Valid() && l.bucket.last <= now
  }

  lemma StepIsPaid(l: Limits, e: Event, since: real, end: real)
    requires Ready(l, e.now) && l.metered && since <= e.now <= end && (e.Tried? ==> e.cost >= 0.0)
    ensures var l1 := Step(l, e);
            && Ready(l1, e.now) && l1.metered
            && l1.bucket.capacity == l.bucket.capacity && l1.bucket.rate == l.bucket.rate
            && l1.bucket.Budget(since, end) + (if Grants(l, e) then e.cost else 0.0) <= l.bucket.Budget(since, end)
  {
    if e.Tried? {
      TakeKeepsValid(l.bucket, e.now, e.cost);
      TakePays(l.bucket, e.now, e.cost, since, end);
    }
  }

  lemma {:induction false} AllIsPaid(l: Limits, es: seq<Event>, from: real, since: real, end: real)
    requires Ready(l, from) && l.metered && Timed(from, es) && since <= from <= end
    requires forall i :: 0 <= i < |es| ==> es[i].now <= end
    ensures Admitted(l, es) + After(l, es).bucket.Budget(since, end) <= l.bucket.Budget(since, end)
    ensures Ready(After(l, es), end)
    decreases es
  {
    hide Step, Grants;
    if es != [] {
      StepIsPaid(l, es[0], since, end);
      AllIsPaid(Step(l, es[0]), es[1..], es[0].now, since, end);
    }
  }

  /** The window bound, under any interleaving of waiters and pauses: in any
      stretch of time at most the capacity is admitted, and what the rate
      refills in that time. */
  lemma WindowBound(l: Limits, es: seq<Event>, since: real, end: real)
    requires Ready(l, since) && l.metered && Timed(since, es) && since <= end
    requires forall i :: 0 <= i < |es| ==> es[i].now <= end
    ensures Admitted(l, es) <= l.bucket.capacity + l.bucket.rate * (end - since)
  {
    hide Admitted, After, Timed, Bucket.Budget;
    AllIsPaid(l, es, since, since, end);
    BudgetBounds(l.bucket, since, end);
    BudgetBounds(After(l, es).bucket, since, end);
  }

  /** Nobody is let in before a pause is over, whoever asks and whatever other
      pauses come in between. */
  lemma {:induction false} PauseHolds(l: Limits, es: seq<Event>, until: real, k: nat)
    requires l.pausedUntil >= until && k < |es|
    requires Grants(After(l, es[..k]), es[k])
    ensures es[k].now >= until
    decreases k
  {
    if k > 0 {
      assert es[..k][1..] == es[1..][..k - 1];
      PauseHolds(Step(l, es[0]), es[1..], until, k - 1);
    }
  }

  /** A try during a pause changes nothing and is told to sleep to its very end:
      one that comes earlier is not let in, whatever it asks for. */
  lemma PauseIsSleptOut(l: Limits, now: real, cost: real, later: real)
    requires now < l.pausedUntil
    ensures var (l1, delay) := l.Try(now, cost);
            && l1 == l && delay.Some? && now + delay.value == l.pausedUntil
            && (later < now + delay.value ==> l1.Try(later, cost).1.Some?)
            && (!l.metered && later >= now + delay.value ==> l1.Try(later, cost).1.None?)
  {
  }

  /** A pause lasts as long as it says, and does not shorten one that lasts longer. */
  lemma PauseExtends(l: Limits, now: real, seconds: real)
    ensures var l1 := l.PauseFor(now, seconds);
            && l1.bucket == l.bucket && l1.metered == l.metered
            && l1.pausedUntil >= l.pausedUntil && l1.pausedUntil >= now + seconds
            && l1.pausedUntil in {l.pausedUntil, now + seconds}
  {
  }

  /** A pause of no length or less is none: no try at its time or later can tell. */
  lemma EmptyPause(l: Limits, now: real, seconds: real, later: real, cost: real)
    requires seconds <= 0.0 && now <= later
    ensures l.PauseFor(now, seconds).Try(later, cost).1 == l.Try(later, cost).1
    ensures l.PauseFor(now, seconds).Try(later, cost).0.bucket == l.Try(later, cost).0.bucket
  {
  }

  /** A waiter that nobody disturbs is let in by its second try outside a pause,
      or never: it depends on whether its cost fits the bucket. */
  lemma LoneWaiter(l: Limits, now: real, cost: real, later: real)
    requires Ready(l, now) && l.metered && now >= l.pausedUntil
    requires var (l1, delay) := l.Try(now, cost); delay.Some? && later >= now + delay.value
    ensures l.Try(now, cost).0.Try(later, cost).1.None? <==> cost <= l.bucket.capacity
  {
    SecondLookDecides(l.bucket, now, cost, later);
  }

  /** And the delay it is told is the least that can do: any sooner it is refused. */
  lemma DelayIsLeast(l: Limits, now: real, cost: real, later: real)
    requires Ready(l, now) && l.metered && now >= l.pausedUntil
    requires var (l1, delay) := l.Try(now, cost); delay.Some? && now <= later < now + delay.value
    ensures l.Try(now, cost).0.Try(later, cost).1.Some?
  {
    WaitIsLeast(l.bucket, now, cost, later);
  }

  // ---- the ceiling on concurrency ----

  /** Callers by what they hold; `free` is the semaphore's value. */
  datatype Gate = Gate(free: nat, queued: set<nat>, polling: set<nat>, inside: set<nat>)

  datatype Pass =
    | Request(c: nat)
    | Permit(c: nat)      // the semaphore lets a queued caller through
    | Enter(c: nat)       // its tokens were granted
    | Abort(c: nat)       // it is cancelled, or fails, while it waits
    | Exit(c: nat)        // `release`, on the way out of the guarded block

  predicate Can(g: Gate, p: Pass) {
    match p
    case Request(c) => c !in g.queued + g.polling + g.inside
    case Permit(c) => c in g.queued && g.free > 0
    case Enter(c) => c in g.polling
    case Abort(c) => c in g.queued + g.polling
    case Exit(c) => c in g.inside
  }

  function Passes(g: Gate, p: Pass): Gate
    requires Can(g, p)
  {
    match p
    case Request(c) => g.(queued := g.queued + {c})
    case Permit(c) => g.(queued := g.queued - {c}, polling := g.polling + {c}, free := g.free - 1)
    case Enter(c) => g.(polling := g.polling - {c}, inside := g.inside + {c})
    case Abort(c) =>
      if c in g.polling then g.(polling := g.polling - {c}, free := g.free + 1)
      else g.(queued := g.queued - {c})
    case Exit(c) => g.(inside := g.inside - {c}, free := g.free + 1)
  }

  /** Where a caller is: nowhere, in the queue, waiting for tokens, or inside. */
  function Place(g: Gate, c: nat): nat {
    if c in g.queued then 1 else if c in g.polling then 2 else if c in g.inside then 3 else 0
  }

  /** What each pass needs and does: it moves its own caller on, or out, and takes
      or returns a permit; nobody else moves. */
  lemma PassIs(g: Gate, p: Pass, d: nat)
    requires g.queued !! g.polling && g.queued !! g.inside && g.polling !! g.inside
    ensures match p
            case Request(c) => Can(g, p) <==> Place(g, c) == 0
            case Permit(c) => Can(g, p) <==> Place(g, c) == 1 && g.free > 0
            case Enter(c) => Can(g, p) <==> Place(g, c) == 2
            case Abort(c) => Can(g, p) <==> Place(g, c) == 1 || Place(g, c) == 2
            case Exit(c) => Can(g, p) <==> Place(g, c) == 3
    ensures Can(g, p) ==>
              var g', from := Passes(g, p), Place(g, p.c);
              && (d != p.c ==> Place(g', d) == Place(g, d))
              && Place(g', p.c) == (if p.Abort? || p.Exit? then 0 else from + 1)
              && g'.free == g.free - (if p.Permit? then 1 else 0)
                              + (if p.Exit? || (p.Abort? && from == 2) then 1 else 0)
  {
  }

  predicate Run(g: Gate, ps: seq<Pass>)
    decreases ps
  {
    ps == [] || (Can(g, ps[0]) && Run(Passes(g, ps[0]), ps[1..]))
  }

  function Through(g: Gate, ps: seq<Pass>): Gate
    requires Run(g, ps)
    decreases ps
  {
    if ps == [] then g else Through(Passes(g, ps[0]), ps[1..])
  }

  /** A permit is free, or with exactly one caller that waits for tokens or is inside. */
  predicate Balanced(g: Gate, concurrency: nat) {
    && g.free + |g.polling| + |g.inside| == concurrency
    && g.queued !! g.polling && g.queued !! g.inside && g.polling !! g.inside
  }

  /** No permit is lost or made on any path, cancellation included, so never
      more than `concurrency` callers are inside. */
  lemma {:induction false} PermitsConserved(g: Gate, concurrency: nat, ps: seq<Pass>)
    requires Balanced(g, concurrency) && Run(g, ps)
    ensures Balanced(Through(g, ps), concurrency) && |Through(g, ps).inside| <= concurrency
    decreases ps
  {
    if ps != [] {
      assert Balanced(Passes(g, ps[0]), concurrency);
      PermitsConserved(Passes(g, ps[0]), concurrency, ps[1..]);
    }
  }

  // ---- the object ----

  class RateLimiter {
    const perSecond: Option<real>
    const capacity: real
    var tokens: real
    var last: real
    var pausedUntil: real
    const limited: bool
    var permits: nat

    function View(): Limits
      reads this
    {
      var rate := if perSecond.Some? then perSecond.value else 0.0;
      Limits(perSecond.Some?, Bucket(capacity, rate, tokens, last), pausedUntil)
    }

    /** No concurrency, or one of zero, leaves the number of callers open. */
    constructor (perSecond: Option<real>, burst: Option<real>, concurrency: Option<nat>, now: real)
      ensures View().metered == perSecond.Some? && View().pausedUntil == 0.0
      ensures View().bucket == Full(capacity, if perSecond.Some? then perSecond.value else 0.0, now)
      ensures burst.None? ==> capacity >= 1.0 && (perSecond.Some? ==> capacity >= perSecond.value)
      ensures burst.Some? ==> capacity == burst.value
      ensures limited <==> concurrency.Some? && concurrency.value > 0
      ensures limited ==> permits == concurrency.value
    {
      this.perSecond := perSecond;
      var size := if burst.Some? then burst.value
                  else Max(1.0, if perSecond.Some? then perSecond.value else 1.0);
      capacity, tokens, last, pausedUntil := size, size, now, 0.0;
      limited := concurrency.Some? && concurrency.value > 0;
      permits := if concurrency.Some? then concurrency.value else 0;
    }

    /** One turn under the lock. */
    method TryOnce(now: real, cost: real) returns (delay: Option<real>)
      modifies this`tokens, this`last
      ensures (View(), delay) == old(View()).Try(now, cost)
    {
      hide Bucket.Level, Bucket.Wait;
      if now < pausedUntil {
        return Some(pausedUntil - now);
      }
      if perSecond.None? {
        return None;
      }
      tokens := View().bucket.Level(now);
      last := now;
      if tokens >= cost {
        tokens := tokens - cost;
        return None;
      }
      return Some(View().bucket.Wait(cost));
    }

    /** The waiting loop, over the times the scheduler wakes it at: the number
        of tries it took, or None while it still waits. */
    method WaitForTokens(cost: real, wakes: seq<real>) returns (tries: Option<nat>)
      modifies this`tokens, this`last
      ensures var es := seq(|wakes|, i requires 0 <= i < |wakes| => Tried(wakes[i], cost));
              match tries
              case Some(n) =>
                && 0 < n <= |wakes|
                && View() == After(old(View()), es[..n])
                && Grants(After(old(View()), es[..n - 1]), es[n - 1])
                && forall k :: 0 <= k < n - 1 ==> !Grants(After(old(View()), es[..k]), es[k])
              case None =>
                && View() == After(old(View()), es)
                && forall k :: 0 <= k < |wakes| ==> !Grants(After(old(View()), es[..k]), es[k])
    {
      ghost var es := seq(|wakes|, i requires 0 <= i < |wakes| => Tried(wakes[i], cost));
      ghost var l0 := View();
      var i := 0;
      assert es[..0] == [];
      while i < |wakes|
        invariant 0 <= i <= |wakes|
        invariant View() == After(l0, es[..i])
        invariant forall k :: 0 <= k < i ==> !Grants(After(l0, es[..k]), es[k])
      {
        AfterSnoc(l0, es[..i], es[i]);
        assert es[..i + 1] == es[..i] + [es[i]];
        var delay := TryOnce(wakes[i], cost);
        i := i + 1;
        if delay.None? {
          return Some(i);
        }
      }
      assert es[..i] == es;
      return None;
    }

    /** The answer to a Retry-After: every waiter is held. */
    method Pause(now: real, seconds: real)
      modifies this`pausedUntil
      ensures View() == old(View()).PauseFor(now, seconds)
    {
      pausedUntil := Max(pausedUntil, now + seconds);
    }

    /** A permit, then tokens; whatever stops the wait gives the permit back. */
    method Acquire(cost: real, wakes: seq<real>, cancelled: bool) returns (inside: bool)
      requires limited ==> permits > 0
      modifies this
      ensures limited ==> permits == old(permits) - (if inside then 1 else 0)
      ensures cancelled ==> !inside
    {
      if limited {
        permits := permits - 1;
      }
      var tries := WaitForTokens(cost, wakes);
      inside := tries.Some? && !cancelled;
      if !inside && limited {
        permits := permits + 1;
      }
    }

    method Release()
      modifies this`permits
      ensures permits == old(permits) + (if limited then 1 else 0)
    {
      if limited {
        permits := permits + 1;
      }
    }
  }

  lemma {:induction false} AfterSnoc(l: Limits, es: seq<Event>, e: Event)
    ensures After(l, es + [e]) == Step(After(l, es), e)
    decreases es
  {
    if es == [] {
      assert ([] + [e])[1..] == [];
    } else {
      assert (es + [e])[1..] == es[1..] + [e];
      AfterSnoc(Step(l, es[0]), es[1..], e);
    }
  }
}
