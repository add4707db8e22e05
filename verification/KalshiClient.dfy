/** The exchange client's own limiter and its pagination
    (`topics/kalshi/tools/_client.py`). */
module KalshiClient {
  import opened Prelude
  import opened Buckets
  import opened Reals

  datatype Look = Look(now: real, cost: real)

  predicate Timed(from: real, looks: seq<Look>)
    decreases looks
  {
    looks == [] || (from <= looks[0].now && looks[0].cost >= 0.0 && Timed(looks[0].now, looks[1..]))
  }

  function After(b: Bucket, looks: seq<Look>): Bucket
    decreases looks
  {
    if looks == [] then b else After(b.Take(looks[0].now, looks[0].cost).0, looks[1..])
  }

  /** The looks that were granted: the requests that go out, and when. */
  function Granted(b: Bucket, looks: seq<Look>): seq<Look>
    decreases looks
  {
    if looks == [] then []
    else
      var (b1, ok) := b.Take(looks[0].now, looks[0].cost);
      if ok then [looks[0]] + Granted(b1, looks[1..]) else Granted(b1, looks[1..])
  }

  predicate AllGranted(b: Bucket, looks: seq<Look>)
    decreases looks
  {
    looks == [] ||
    (var (b1, ok) := b.Take(looks[0].now, looks[0].cost); ok && AllGranted(b1, looks[1..]))
  }

  function Spent(looks: seq<Look>): real
    decreases looks
  {
    if looks == [] then 0.0 else looks[0].cost + Spent(looks[1..])
  }

  /** The client keeps to a fraction of the exchange's budget, one a second at least. */
  function ClientCapacity(perSecond: int, safety: real): real {
    Max(1.0, perSecond as real * safety)
  }

  function ClientBucket(perSecond: int, safety: real, now: real): Bucket {
    Full(ClientCapacity(perSecond, safety), ClientCapacity(perSecond, safety), now)
  }

  function ServerBucket(perSecond: int, now: real): Bucket {
    Full(perSecond as real, perSecond as real, now)
  }

  class RateLimiter {
    const capacity: real
    var tokens: real
    var last: real

    function View(): Bucket
      reads this
    {
      Bucket(capacity, capacity, tokens, last)
    }

    constructor (perSecond: int, safety: real, now: real)
      ensures View() == ClientBucket(perSecond, safety, now)
    {
      var c := ClientCapacity(perSecond, safety);
      capacity, tokens, last := c, c, now;
    }

    /** One look under the lock: None once taken, else how long to sleep. */
    method TakeOnce(now: real, cost: real) returns (wait: Option<real>)
      modifies this`tokens, this`last
      ensures View() == old(View()).Take(now, cost).0
      ensures wait.None? <==> old(View()).Take(now, cost).1
      ensures wait.Some? ==> wait.value == View().Wait(cost)
    {
      hide Bucket.Level, Bucket.Wait;
      tokens := View().Level(now);
      last := now;
      if tokens >= cost {
        tokens := tokens - cost;
        return None;
      }
      return Some(View().Wait(cost));
    }
  }

  // ---- the exchange never refuses what the client lets out ----

  /** At every moment from `at` on the server holds at least what the client does. */
  predicate Covers(server: Bucket, client: Bucket, at: real) {
    && server.Valid() && client.Valid()
    && client.capacity <= server.capacity && client.rate <= server.rate
    && server.last <= at && client.last == at
    && client.tokens <= server.Level(at)
  }

  lemma CoversLater(server: Bucket, client: Bucket, at: real, now: real)
    requires Covers(server, client, at) && at <= now
    ensures client.Level(now) <= server.Level(now)
  {
    hide Times;
    TimesFaster(now - at, client.rate, server.rate);
    TimesGrows(0.0, now - at, server.rate);
    TimesGrows(now - at, now - at, server.rate);
    TimesSum(at - server.last, now - at, now - server.last, server.rate);
  }

  lemma CoversStep(server: Bucket, client: Bucket, at: real, look: Look)
    requires Covers(server, client, at) && at <= look.now && look.cost >= 0.0
    ensures var (c1, ok) := client.Take(look.now, look.cost);
            if ok then server.Take(look.now, look.cost).1
                       && Covers(server.Take(look.now, look.cost).0, c1, look.now)
            else Covers(server, c1, look.now)
  {
    hide Bucket.Level;
    CoversLater(server, client, at, look.now);
    TakeKeepsValid(client, look.now, look.cost);
    TakeKeepsValid(server, look.now, look.cost);
    LevelHere(server.Take(look.now, look.cost).0);
  }

  lemma LevelHere(b: Bucket)
    ensures b.Level(b.last) == Min(b.capacity, b.tokens)
  {
    assert Times(b.last - b.last, b.rate) == 0.0;
  }

  lemma {:induction false} ServerFollows(server: Bucket, client: Bucket, at: real, looks: seq<Look>)
    requires Covers(server, client, at) && Timed(at, looks)
    ensures AllGranted(server, Granted(client, looks))
    decreases looks
  {
    hide Covers;
    if looks != [] {
      CoversStep(server, client, at, looks[0]);
      var (c1, ok) := client.Take(looks[0].now, looks[0].cost);
      var s1 := if ok then server.Take(looks[0].now, looks[0].cost).0 else server;
      ServerFollows(s1, c1, looks[0].now, looks[1..]);
      if ok {
        assert Granted(client, looks)[1..] == Granted(c1, looks[1..]);
      }
    }
  }

  /** Whatever the callers ask and whenever, every request the client lets out
      is one the exchange's own bucket of `perSecond` admits. */
  lemma ClientIsSimulated(perSecond: int, safety: real, start: real, looks: seq<Look>)
    requires perSecond >= 1 && safety <= 1.0 && Timed(start, looks)
    ensures AllGranted(ServerBucket(perSecond, start),
                       Granted(ClientBucket(perSecond, safety, start), looks))
  {
    var server, client := ServerBucket(perSecond, start), ClientBucket(perSecond, safety, start);
    TimesFaster(perSecond as real, safety, 1.0);
    LevelHere(server);
    ServerFollows(server, client, start, looks);
  }

  // ---- and for no other budget and safety ----

  /** `n` requests of one token each, all at once. */
  function Units(n: nat, now: real): seq<Look> {
    if n == 0 then [] else [Look(now, 1.0)] + Units(n - 1, now)
  }

  predicate UnitCosts(looks: seq<Look>) {
    forall i :: 0 <= i < |looks| ==> looks[i].cost == 1.0
  }

  lemma {:induction false} UnitsAreTimed(n: nat, now: real, last: Look)
    requires now <= last.now && last.cost == 1.0
    ensures Timed(now, Units(n, now) + [last]) && UnitCosts(Units(n, now) + [last])
  {
    if n > 0 {
      UnitsAreTimed(n - 1, now, last);
      assert (Units(n, now) + [last])[1..] == Units(n - 1, now) + [last];
    } else {
      assert Units(n, now) + [last] == [last] && [last][1..] == [];
    }
  }

  /** A bucket that holds `n` tokens grants them at once, and is asked the rest. */
  lemma {:induction false} UnitsTaken(b: Bucket, n: nat, rest: seq<Look>)
    requires n as real <= b.tokens <= b.capacity
    ensures var b' := b.(tokens := b.tokens - n as real);
            && Granted(b, Units(n, b.last) + rest) == Units(n, b.last) + Granted(b', rest)
            && (AllGranted(b, Units(n, b.last) + rest) <==> AllGranted(b', rest))
    decreases n
  {
    if n == 0 {
      assert Units(0, b.last) + rest == rest && b.(tokens := b.tokens - 0.0) == b;
    } else {
      LevelHere(b);
      var b1 := b.(tokens := b.tokens - 1.0);
      assert b.Take(b.last, 1.0) == (b1, true);
      UnitsTaken(b1, n - 1, rest);
      assert b1.(tokens := b1.tokens - (n - 1) as real) == b.(tokens := b.tokens - n as real);
      var all := Units(n, b.last) + rest;
      assert all[0] == Look(b.last, 1.0) && all[1..] == Units(n - 1, b.last) + rest;
    }
  }

  lemma OneLook(b: Bucket, look: Look)
    ensures Granted(b, [look]) == if b.Level(look.now) >= look.cost then [look] else []
    ensures AllGranted(b, [look]) <==> b.Level(look.now) >= look.cost
  {
    assert [look][1..] == [];
  }

  /** What is missing for one more token after the whole tokens of `capacity`
      more than `perSecond` are gone comes sooner at the larger rate. */
  lemma NextToken(perSecond: int, capacity: real) returns (wait: real)
    requires 1 <= perSecond && perSecond as real < capacity
    ensures wait >= 0.0
    ensures capacity - perSecond as real + Times(wait, capacity) >= 1.0
    ensures Times(wait, perSecond as real) < 1.0
  {
    var missing := 1.0 - (capacity - perSecond as real);
    if missing <= 0.0 {
      wait := 0.0;
    } else {
      wait := missing / capacity;
      assert Times(wait, capacity) == missing;
      assert wait > 0.0;
      assert wait * (capacity - perSecond as real) > 0.0 by { Positive(capacity - perSecond as real, wait); }
    }
  }

  /** The requests, one token each, that get past the client and not past the
      exchange: all its budget at once, and the next as soon as the client has it. */
  lemma BudgetExceeded(perSecond: int, safety: real, start: real) returns (looks: seq<Look>)
    requires perSecond < 1 || safety > 1.0
    ensures Timed(start, looks) && UnitCosts(looks)
    ensures !AllGranted(ServerBucket(perSecond, start), Granted(ClientBucket(perSecond, safety, start), looks))
  {
    hide Bucket.Level;
    var server, client := ServerBucket(perSecond, start), ClientBucket(perSecond, safety, start);
    if perSecond < 1 {
      var look := Look(start, 1.0);
      looks := [look];
      LevelHere(client);
      LevelHere(server);
      OneLook(client, look);
      OneLook(server, look);
    } else {
      TimesFaster(perSecond as real, 1.0, safety);
      var c := client.capacity;
      assert c > perSecond as real by { Positive(safety - 1.0, perSecond as real); }
      var wait := NextToken(perSecond, c);
      var look := Look(start + wait, 1.0);
      looks := Units(perSecond, start) + [look];
      UnitsAreTimed(perSecond, start, look);
      UnitsTaken(client, perSecond, [look]);
      UnitsTaken(server, perSecond, [look]);
      LastLook(client.(tokens := c - perSecond as real), server.(tokens := 0.0), look, wait);
    }
  }

  lemma LastLook(client: Bucket, server: Bucket, look: Look, wait: real)
    requires client.last == server.last == look.now - wait && look.cost == 1.0 && server.tokens == 0.0
    requires client.capacity >= 1.0 && client.tokens + Times(wait, client.rate) >= 1.0
    requires Times(wait, server.rate) < 1.0
    ensures Granted(client, [look]) == [look] && !AllGranted(server, [look])
  {
    hide Times;
    assert look.now - client.last == wait && look.now - server.last == wait;
    OneLook(client, look);
    OneLook(server, look);
  }

  /** Every request the client lets out, in any timed sequence of requests, or of
      requests for one token each, is admitted by the exchange. */
  ghost predicate KeepsToBudget(perSecond: int, safety: real, start: real, units: bool) {
    forall looks :: Timed(start, looks) && (units ==> UnitCosts(looks)) ==>
      AllGranted(ServerBucket(perSecond, start), Granted(ClientBucket(perSecond, safety, start), looks))
  }

  /** That is so if and only if the budget is one a second at least and the
      safety factor one at most: the client never goes under one a second, and
      does not check the factor. */
  lemma KeepsToBudgetIff(perSecond: int, safety: real, start: real, units: bool)
    ensures KeepsToBudget(perSecond, safety, start, units) <==> perSecond >= 1 && safety <= 1.0
  {
    hide Granted, AllGranted, ServerBucket, ClientBucket;
    if perSecond >= 1 && safety <= 1.0 {
      forall looks | Timed(start, looks)
        ensures AllGranted(ServerBucket(perSecond, start), Granted(ClientBucket(perSecond, safety, start), looks))
      {
        ClientIsSimulated(perSecond, safety, start, looks);
      }
    } else {
      var looks := BudgetExceeded(perSecond, safety, start);
    }
  }

  // ---- the worst second ----

  lemma {:induction false} GrantsArePaid(b: Bucket, looks: seq<Look>, from: real, since: real, end: real)
    requires b.Valid() && b.last <= from && Timed(from, looks) && since <= from <= end
    requires forall i :: 0 <= i < |looks| ==> looks[i].now <= end
    ensures Spent(Granted(b, looks)) + After(b, looks).Budget(since, end) <= b.Budget(since, end)
    ensures After(b, looks).Valid() && After(b, looks).last <= end
    decreases looks
  {
    hide Bucket.Budget, Bucket.Take;
    if looks != [] {
      TakePays(b, looks[0].now, looks[0].cost, since, end);
      TakeKeepsValid(b, looks[0].now, looks[0].cost);
      var (b1, ok) := b.Take(looks[0].now, looks[0].cost);
      GrantsArePaid(b1, looks[1..], looks[0].now, since, end);
      if ok { assert Granted(b, looks)[1..] == Granted(b1, looks[1..]); }
    }
  }

  /** In any second the client lets out at most twice its capacity. */
  lemma WorstSecond(perSecond: int, safety: real, b: Bucket, looks: seq<Look>, since: real)
    requires b.Valid() && b.capacity == b.rate == ClientCapacity(perSecond, safety)
    requires b.last <= since && Timed(since, looks)
    requires forall i :: 0 <= i < |looks| ==> looks[i].now <= since + 1.0
    ensures Spent(Granted(b, looks)) <= 2.0 * ClientCapacity(perSecond, safety)
  {
    hide Bucket.Budget, Granted, After, Spent, ClientCapacity, Timed;
    GrantsArePaid(b, looks, since, since, since + 1.0);
    BudgetBounds(b, since, since + 1.0);
    assert Times(since + 1.0 - since, b.rate) == b.rate;
    BudgetBounds(After(b, looks), since, since + 1.0);
  }

  /** And it can let out that much: a full bucket at once, and again a second later. */
  lemma WorstSecondIsReached(perSecond: int, safety: real, start: real)
    ensures var c := ClientCapacity(perSecond, safety);
            var looks := [Look(start, c), Look(start + 1.0, c)];
            && Granted(ClientBucket(perSecond, safety, start), looks) == looks
            && Spent(looks) == 2.0 * c
  {
    var c := ClientCapacity(perSecond, safety);
    var b := ClientBucket(perSecond, safety, start);
    var first, second := Look(start, c), Look(start + 1.0, c);
    LevelHere(b);
    var b1 := b.Take(start, c).0;
    assert b1 == Bucket(c, c, 0.0, start);
    assert b1.Level(start + 1.0) == c by { assert (start + 1.0 - start) * c == c; }
    assert [first, second][1..] == [second] && [second][1..] == [];
    assert Granted(b1, [second]) == [second];
    assert Spent([second]) == c;
  }

  // ---- pagination ----

  datatype Page<T> = Page(items: seq<T>, more: bool)

  /** All items of the pages up to the one that ends the listing: the first
      without a cursor, or without items. */
  function Listing<T>(pages: seq<Page<T>>): seq<T>
    decreases pages
  {
    if pages == [] then []
    else if !pages[0].more || pages[0].items == [] then pages[0].items
    else pages[0].items + Listing(pages[1..])
  }

  /** What `max_items` leaves of a listing: None and zero leave all of it, and a
      negative number still lets the first item through. */
  function Capped<T>(items: seq<T>, max: Option<int>): seq<T> {
    if max.None? || max.value == 0 then items
    else
      var n := if max.value >= 1 then max.value else 1;
      if |items| > n then items[..n] else items
  }

  function Items<T>(pages: seq<Page<T>>): seq<T>
    decreases pages
  {
    if pages == [] then [] else pages[0].items + Items(pages[1..])
  }

  /** The listing is the items of the first pages, up to and with the first one
      that has no cursor or no items, or of all if none is such. */
  lemma {:induction false} ListingIs<T>(pages: seq<Page<T>>)
    ensures exists n :: 0 <= n <= |pages| && Listing(pages) == Items(pages[..n])
              && (forall i :: 0 <= i < n - 1 ==> pages[i].more && pages[i].items != [])
              && (n < |pages| ==> n > 0 && (!pages[n - 1].more || pages[n - 1].items == []))
    decreases pages
  {
    if pages == [] {
      assert pages[..0] == [];
    } else if !pages[0].more || pages[0].items == [] {
      assert pages[..1] == [pages[0]] && [pages[0]][1..] == [];
      assert Items(pages[..1]) == pages[0].items + [];
    } else {
      ListingIs(pages[1..]);
      var m :| 0 <= m <= |pages[1..]| && Listing(pages[1..]) == Items(pages[1..][..m])
                 && (forall i :: 0 <= i < m - 1 ==> pages[1..][i].more && pages[1..][i].items != [])
                 && (m < |pages[1..]| ==> m > 0 && (!pages[1..][m - 1].more || pages[1..][m - 1].items == []));
      var n := m + 1;
      assert pages[..n][1..] == pages[1..][..m];
      forall i | 0 <= i < n - 1 ensures pages[i].more && pages[i].items != [] {
        if i > 0 { assert pages[i] == pages[1..][i - 1]; }
      }
      assert m > 0 ==> pages[n - 1] == pages[1..][m - 1];
      assert Listing(pages) == Items(pages[..n]);
    }
  }

  /** The cap takes the first of them: all without a cap or with one of zero, else
      as many as it says, but one where it says less. */
  lemma CappedIs<T>(items: seq<T>, max: Option<int>)
    ensures Capped(items, max) <= items
    ensures max in {None, Some(0)} ==> Capped(items, max) == items
    ensures max !in {None, Some(0)} ==>
              |Capped(items, max)| ==
                if max.value < 1 then (if items == [] then 0 else 1)
                else if max.value <= |items| then max.value else |items|
  {
  }

  predicate Stops(max: Option<int>, seen: nat) {
    max.Some? && max.value != 0 && seen >= max.value
  }

  /** The loop over one page: how many items it yields, and whether the limit stopped it. */
  method FromPage(size: nat, seen: nat, max: Option<int>) returns (taken: nat, stopped: bool)
    requires seen > 0 ==> !Stops(max, seen)
    ensures taken <= size
    ensures stopped ==> taken > 0 && Stops(max, seen + taken)
    ensures stopped && seen + taken > 1 ==> !Stops(max, seen + taken - 1)
    ensures !stopped ==> taken == size && (seen + taken > 0 ==> !Stops(max, seen + taken))
  {
    taken := 0;
    while taken < size
      invariant taken <= size
      invariant seen + taken > 0 ==> !Stops(max, seen + taken)
    {
      taken := taken + 1;
      if Stops(max, seen + taken) {
        return taken, true;
      }
    }
    return taken, false;
  }

  /** The generator run to its end, over the pages the server answers with. */
  method Paginate<T>(pages: seq<Page<T>>, max: Option<int>) returns (out: seq<T>)
    ensures out == Capped(Listing(pages), max)
  {
    hide Capped, Stops, Listing;
    ghost var all := Listing(pages);
    out := [];
    var i := 0;
    assert pages[0..] == pages && [] + all == all;
    while i < |pages|
      invariant 0 <= i <= |pages|
      invariant out + Listing(pages[i..]) == all
      invariant |out| > 0 ==> !Stops(max, |out|)
    {
      var page := pages[i];
      ListingStep(out, pages, i);
      var taken, stopped := FromPage(|page.items|, |out|, max);
      if stopped {
        PrefixOfListing(pages, i, out, taken, max);
        return out + page.items[..taken];
      }
      out := out + page.items;
      if !page.more || page.items == [] {
        NotStopped(all, max);
        return;
      }
      i := i + 1;
    }
    ListingStep(out, pages, i);
    NotStopped(all, max);
  }

  lemma ListingStep<T>(out: seq<T>, pages: seq<Page<T>>, i: nat)
    requires i <= |pages|
    ensures out + Listing(pages[i..]) ==
            if i == |pages| then out
            else if !pages[i].more || pages[i].items == [] then out + pages[i].items
            else (out + pages[i].items) + Listing(pages[i + 1..])
  {
    if i < |pages| {
      assert pages[i..][0] == pages[i] && pages[i..][1..] == pages[i + 1..];
    }
  }

  lemma NotStopped<T>(all: seq<T>, max: Option<int>)
    requires |all| > 0 ==> !Stops(max, |all|)
    ensures Capped(all, max) == all
  {
  }

  /** Stopping inside a page stops at a prefix of the listing. */
  lemma PrefixOfListing<T>(pages: seq<Page<T>>, i: nat, before: seq<T>, j: nat, max: Option<int>)
    requires i < |pages| && j <= |pages[i].items| && j > 0
    requires before + Listing(pages[i..]) == Listing(pages)
    requires Stops(max, |before| + j)
    requires |before| + j > 1 ==> !Stops(max, |before| + j - 1)
    ensures before + pages[i].items[..j] == Capped(Listing(pages), max)
  {
    var here := Listing(pages[i..]);
    assert pages[i..][0] == pages[i];
    assert |here| >= j && here[..j] == pages[i].items[..j];
    assert Listing(pages)[..|before| + j] == before + here[..j];
    assert |before| + j == if max.value >= 1 then max.value else 1;
  }
}
