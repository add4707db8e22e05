/** The token bucket that both rate limiters of the repository are built on
    (`rsi_arena/core/ratelimit.py`, `topics/kalshi/tools/_client.py`). */
module Buckets {
  import opened Prelude
  import opened Reals

  /** Refilled when looked at: `tokens` is what there was at time `last`. */
  datatype Bucket = Bucket(capacity: real, rate: real, tokens: real, last: real)
  {
    predicate Valid() {
      0.0 <= tokens <= capacity && rate > 0.0
    }

    /** What there is at `now`. */
    function Level(now: real): real {
      Min(capacity, tokens + Times(now - last, rate))
    }

    /** One look: refill, then take `cost` if it is there. */
    function Take(now: real, cost: real): (Bucket, bool) {
      var there := Level(now);
      (this.(tokens := if there >= cost then there - cost else there, last := now), there >= cost)
    }

    /** How long until the refill covers what is missing. */
    function Wait(cost: real): real {
      if rate > 0.0 then (cost - tokens) / rate else 0.0
    }

    /** The most that can still be granted from `since` on until `end`. */
    function Budget(since: real, end: real): real {
      if last >= since then tokens + Times(end - last, rate) else capacity + Times(end - since, rate)
    }
  }

  function Full(capacity: real, rate: real, now: real): Bucket {
    Bucket(capacity, rate, capacity, now)
  }

  lemma RefillIsNoLoss(b: Bucket, now: real)
    requires b.Valid() && b.last <= now
    ensures b.tokens <= b.Level(now) <= b.capacity
  {
    hide Times;
    TimesGrows(0.0, now - b.last, b.rate);
    TimesGrows(now - b.last, now - b.last, b.rate);
  }

  lemma TakeKeepsValid(b: Bucket, now: real, cost: real)
    requires b.Valid() && b.last <= now && cost >= 0.0
    ensures var (b1, ok) := b.Take(now, cost);
            && b1.Valid() && b1.last == now && b1.capacity == b.capacity && b1.rate == b.rate
  {
    hide Times;
    RefillIsNoLoss(b, now);
  }

  /** A grant is paid for out of the budget, whatever the look finds. */
  lemma TakePays(b: Bucket, now: real, cost: real, since: real, end: real)
    requires b.Valid() && b.last <= now && since <= now <= end && cost >= 0.0
    ensures var (b1, ok) := b.Take(now, cost);
            b1.Budget(since, end) + (if ok then cost else 0.0) <= b.Budget(since, end)
  {
    hide Times;
    TimesSum(now - b.last, end - now, end - b.last, b.rate);
    TimesGrows(end - now, end - since, b.rate);
  }

  lemma BudgetBounds(b: Bucket, since: real, end: real)
    requires b.Valid() && b.last <= end && since <= end
    ensures 0.0 <= b.Budget(since, end) <= b.capacity + Times(end - since, b.rate)
  {
    hide Times;
    TimesGrows(end - since, end - since, b.rate);
    TimesGrows(end - b.last, end - b.last, b.rate);
    if b.last >= since { TimesGrows(end - b.last, end - since, b.rate); }
  }

  /** No shorter wait is enough: a look that comes earlier is refused. */
  lemma WaitIsLeast(b: Bucket, now: real, cost: real, later: real)
    requires b.Valid() && b.last <= now <= later && !b.Take(now, cost).1
    requires later < now + b.Take(now, cost).0.Wait(cost)
    ensures !b.Take(now, cost).0.Take(later, cost).1
  {
    var b1 := b.Take(now, cost).0;
    var w := b1.Wait(cost);
    assert w * b1.rate == cost - b1.tokens;
    assert (w - (later - now)) * b1.rate > 0.0 by { Positive(w - (later - now), b1.rate); }
    assert Times(later - now, b1.rate) < cost - b1.tokens;
  }

  /** Who is alone gets in with the second look, after the wait it was told,
      exactly when it does not ask for more than the bucket can ever hold. */
  lemma SecondLookDecides(b: Bucket, now: real, cost: real, later: real)
    requires b.Valid() && b.last <= now && !b.Take(now, cost).1
    requires later >= now + b.Take(now, cost).0.Wait(cost)
    ensures b.Take(now, cost).0.Take(later, cost).1 <==> cost <= b.capacity
  {
    var b1 := b.Take(now, cost).0;
    var w := b1.Wait(cost);
    assert w * b1.rate == cost - b1.tokens;
    assert Times(w, b1.rate) == cost - b1.tokens;
    TimesGrows(w, later - now, b1.rate);
  }
}
