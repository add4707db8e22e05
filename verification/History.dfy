/** Historical quotes, fetched in chunks (`topics/kalshi/tools/_history.py`).
    Instants are whole seconds; an exchange is a function from a request's two
    bounds to the candles it answers with. */
module History {
  import opened Prelude
  import opened Sorting

  const MAX_PERIODS := 5000
  const VALID_INTERVALS: set<int> := {1, 60, 1440}

  datatype Candle = Candle(
    ts: int,
    bid: Option<real>,
    ask: Option<real>,
    close: Option<real>,
    previous: Option<real>,
    volume: real)
  {
    /** An emptied book reads 0 bid, 1 asked: no market, not an even one. */
    predicate TwoSided() {
      bid.Some? && ask.Some? && !(bid.value <= 0.0 && ask.value >= 1.0)
    }

    function Mid(): Option<real> {
      if TwoSided() then Some((bid.value + ask.value) / 2.0) else None
    }
  }

  type Server = (int, int) -> seq<Candle>

  function Answer(server: Server, lo: int, hi: int): seq<Candle> {
    server(lo, hi)
  }

  function TsOf(c: Candle): real {
    c.ts as real
  }

  function Earlier(a: int, b: int): int {
    if a <= b then a else b
  }

  function Span(interval: int): int {
    interval * 60 * MAX_PERIODS
  }

  /** The windows of one fetch. */
  function Chunks(start: int, end: int, span: int): seq<(int, int)>
    requires span > 0
    decreases end - start
  {
    if start >= end then []
    else
      var stop := Earlier(start + span, end);
      [(start, stop)] + Chunks(stop, end, span)
  }

  function Collected(server: Server, chunks: seq<(int, int)>): seq<Candle> {
    if chunks == [] then []
    else Collected(server, chunks[..|chunks| - 1]) + Answer(server, chunks[|chunks| - 1].0, chunks[|chunks| - 1].1)
  }

  function Candles(server: Server, start: int, end: int, span: int): seq<Candle>
    requires span > 0
  {
    Sort(Collected(server, Chunks(start, end, span)), TsOf)
  }

  /** `candles`; an interval the exchange does not know is a `ValueError`. */
  method FetchCandles(server: Server, start: int, end: int, interval: int) returns (r: Result<seq<Candle>, ()>)
    ensures r.Ok? <==> interval == 1 || interval == 60 || interval == 1440
    ensures r.Ok? ==> r.value == Candles(server, start, end, Span(interval))
  {
    if interval !in VALID_INTERVALS {
      return Err(());
    }
    hide Sort, Chunks, Collected, Span;
    assert Span(interval) > 0 by { SpanPositive(interval); }
    var span := Span(interval);
    var out: seq<Candle> := [];
    var cursor := start;
    ghost var made: seq<(int, int)> := [];
    assert made + Chunks(start, end, span) == Chunks(start, end, span);
    NothingCollected(server);
    while cursor < end
      invariant made + Chunks(cursor, end, span) == Chunks(start, end, span)
      invariant out == Collected(server, made)
      decreases end - cursor
    {
      var stop := Earlier(cursor + span, end);
      NextChunk(made, cursor, end, span);
      CollectedSnoc(server, made, (cursor, stop));
      out := out + Answer(server, cursor, stop);
      made := made + [(cursor, stop)];
      cursor := stop;
    }
    NoChunk(made, cursor, end, span);
    return Ok(Sort(out, TsOf));
  }

  lemma SpanPositive(interval: int)
    requires interval > 0
    ensures Span(interval) > 0
  {
  }

  lemma NothingCollected(server: Server)
    ensures Collected(server, []) == []
  {
  }

  lemma NextChunk(made: seq<(int, int)>, cursor: int, end: int, span: int)
    requires span > 0 && cursor < end
    ensures var stop := Earlier(cursor + span, end);
            made + Chunks(cursor, end, span) == (made + [(cursor, stop)]) + Chunks(stop, end, span)
  {
    var stop := Earlier(cursor + span, end);
    var rest := Chunks(stop, end, span);
    assert Chunks(cursor, end, span) == [(cursor, stop)] + rest;
    Associates(made, [(cursor, stop)], rest);
  }

  lemma Associates<T>(a: seq<T>, b: seq<T>, c: seq<T>)
    ensures a + (b + c) == (a + b) + c
  {
  }

  lemma CollectedSnoc(server: Server, made: seq<(int, int)>, c: (int, int))
    ensures Collected(server, made + [c]) == Collected(server, made) + Answer(server, c.0, c.1)
  {
    assert (made + [c])[..|made|] == made;
  }

  lemma NoChunk(made: seq<(int, int)>, cursor: int, end: int, span: int)
    requires span > 0 && cursor >= end
    ensures made + Chunks(cursor, end, span) == made
  {
  }

  // ---- the chunks tile the window ----

  function Ceil(x: real): int {
    -((-x).Floor)
  }

  /** `request_count`: what a sweep is said to cost before it is made. */
  function RequestCount(start: int, end: int, interval: int, markets: int): int
    requires interval > 0
  {
    var periods := (end - start) as real / 60.0 / interval as real;
    var chunks := Ceil(periods / MAX_PERIODS as real);
    (if chunks >= 1 then chunks else 1) * markets
  }

  /** No gap and no overlap but at the seams, each within the exchange's limit. */
  lemma {:induction false} ChunksTile(start: int, end: int, span: int)
    requires span > 0 && start < end
    ensures var cs := Chunks(start, end, span);
            && |cs| > 0 && cs[0].0 == start && cs[|cs| - 1].1 == end
            && (forall i :: 0 <= i < |cs| ==> 0 < cs[i].1 - cs[i].0 <= span)
            && (forall i, j :: 0 <= i && j == i + 1 && j < |cs| ==> cs[i].1 == cs[j].0)
    decreases end - start
  {
    var stop := Earlier(start + span, end);
    if stop < end {
      ChunksTile(stop, end, span);
    } else {
      assert Chunks(stop, end, span) == [];
    }
  }

  /** Which for an interval of so many minutes is five thousand of its candles. */
  lemma WindowsWithinLimit(start: int, end: int, interval: int)
    requires interval > 0
    ensures forall i :: 0 <= i < |Chunks(start, end, Span(interval))| ==>
              var (lo, hi) := Chunks(start, end, Span(interval))[i]; 0 < hi - lo <= 5000 * 60 * interval
  {
    if start < end { ChunksTile(start, end, Span(interval)); }
  }

  lemma {:induction false} ChunksCount(start: int, end: int, span: int)
    requires span > 0 && start < end
    ensures var n := |Chunks(start, end, span)|; n > 0 && (n - 1) * span < end - start <= n * span
    decreases end - start
  {
    hide Chunks;
    NextChunk([], start, end, span);
    var stop := Earlier(start + span, end);
    if stop < end {
      ChunksCount(stop, end, span);
      var n := |Chunks(stop, end, span)|;
      assert n * span == (n - 1) * span + span && (n + 1) * span == n * span + span;
    } else {
      NoChunk([], stop, end, span);
    }
  }

  /** The estimate is the number of requests that are made, for every window
      that has a length; for an empty one it says one where none is made. */
  lemma RequestsAsCounted(start: int, end: int, interval: int)
    requires interval in VALID_INTERVALS
    ensures RequestCount(start, end, interval, 1) == if start < end then |Chunks(start, end, Span(interval))| else 1
  {
    var length := (end - start) as real;
    var x := length / 60.0 / interval as real / MAX_PERIODS as real;
    assert x * Span(interval) as real == length;
    if start < end {
      ChunksCount(start, end, Span(interval));
      CeilIs(x, end - start, Span(interval), |Chunks(start, end, Span(interval))|);
    } else {
      assert x <= 0.0;
    }
  }

  lemma CeilIs(x: real, length: int, span: int, n: int)
    requires span > 0 && x * span as real == length as real
    requires (n - 1) * span < length <= n * span
    ensures Ceil(x) == n
  {
    var s := span as real;
    assert ((n - 1) * span) as real == (n - 1) as real * s && (n * span) as real == n as real * s;
    if x <= (n - 1) as real { assert ((n - 1) as real - x) * s >= 0.0; }
    if x > n as real { assert (x - n as real) * s > 0.0; }
  }

  // ---- against one single fetch ----

  function Within(lo: int, hi: int): Candle -> bool {
    (c: Candle) => lo <= c.ts <= hi
  }

  /** An exchange that holds `all` and takes both bounds as included. */
  function Exchange(all: seq<Candle>): Server {
    (lo, hi) => Where(all, Within(lo, hi))
  }

  lemma {:induction false} CountWhere<T>(xs: seq<T>, keep: T -> bool, x: T)
    ensures multiset(Where(xs, keep))[x] == if keep(x) then multiset(xs)[x] else 0
  {
    if xs != [] {
      var init, last := xs[..|xs| - 1], xs[|xs| - 1];
      assert xs == init + [last];
      CountWhere(init, keep, x);
    }
  }

  /** How often a candle at `ts` is fetched. */
  function Copies(ts: int, start: int, end: int, span: int): nat
    requires span > 0
  {
    if start >= end || ts < start || ts > end then 0
    else if start < ts < end && (ts - start) % span == 0 then 2
    else 1
  }

  lemma ModShift(x: int, s: int)
    requires s > 0
    ensures (x - s) % s == x % s
  {
    var q, r := x / s, x % s;
    assert s * (q - 1) == s * q - s;
    ModUnique(x - s, s, q - 1, r);
  }

  lemma ModUnique(x: int, s: int, q: int, r: int)
    requires s > 0 && x == s * q + r && 0 <= r < s
    ensures x % s == r
  {
    var q', r' := x / s, x % s;
    assert s * (q - q') == s * q - s * q';
    Multiple(s, q - q', r' - r);
  }

  lemma Multiple(s: int, k: int, d: int)
    requires s > 0 && s * k == d && -s < d < s
    ensures d == 0
  {
    assert k >= 1 ==> s * k >= s;
    assert k <= -1 ==> s * k <= -s;
  }

  lemma CopiesStep(ts: int, start: int, end: int, span: int)
    requires span > 0 && start < end
    ensures var stop := Earlier(start + span, end);
            Copies(ts, start, end, span) == (if start <= ts <= stop then 1 else 0) + Copies(ts, stop, end, span)
  {
    ModShift(ts - start, span);
    var d := ts - start;
    if 0 <= d < span { assert d % span == d; }
    if d == span { assert d % span == 0; }
  }

  lemma {:induction false} CollectedCons(server: Server, c: (int, int), cs: seq<(int, int)>)
    ensures Collected(server, [c] + cs) == Answer(server, c.0, c.1) + Collected(server, cs)
  {
    if cs == [] {
      assert [c] + cs == [c] && [c][..0] == [];
    } else {
      var init, last := cs[..|cs| - 1], cs[|cs| - 1];
      CollectedCons(server, c, init);
      assert ([c] + cs)[..|cs|] == [c] + init;
    }
  }

  lemma {:induction false} CollectedCopies(all: seq<Candle>, start: int, end: int, span: int, x: Candle)
    requires span > 0
    ensures multiset(Collected(Exchange(all), Chunks(start, end, span)))[x]
            == Copies(x.ts, start, end, span) * multiset(all)[x]
    decreases end - start
  {
    hide Copies, Where, Collected;
    var n := multiset(all)[x];
    if start < end {
      var stop := Earlier(start + span, end);
      CollectedCons(Exchange(all), (start, stop), Chunks(stop, end, span));
      CollectedCopies(all, stop, end, span, x);
      CountWhere(all, Within(start, stop), x);
      CopiesStep(x.ts, start, end, span);
      OnceMore(if start <= x.ts <= stop then 1 else 0, Copies(x.ts, stop, end, span), n);
    } else {
      NoCopies(Exchange(all), x.ts, start, end, span);
    }
  }

  lemma OnceMore(here: nat, k: nat, n: nat)
    requires here <= 1
    ensures (here + k) * n == (if here == 1 then n else 0) + k * n
  {
  }

  lemma NoCopies(server: Server, ts: int, start: int, end: int, span: int)
    requires span > 0 && start >= end
    ensures Copies(ts, start, end, span) == 0 && Collected(server, Chunks(start, end, span)) == []
  {
  }

  /** What the chunked fetch returns, against an exchange that answers any
      window in full: in order, every candle of the window once, and twice
      exactly if it lies on a seam between two chunks. */
  lemma ChunkedAgainstSingle(all: seq<Candle>, start: int, end: int, span: int, x: Candle)
    requires span > 0 && start < end
    ensures var got, single := Candles(Exchange(all), start, end, span), Answer(Exchange(all), start, end);
            && Ascending(got, TsOf)
            && multiset(got)[x] == multiset(single)[x]
                 * (if start < x.ts < end && (x.ts - start) % span == 0 then 2 else 1)
  {
    hide Collected, Chunks, Where, Ascending;
    SortSorts(Collected(Exchange(all), Chunks(start, end, span)), TsOf);
    CollectedCopies(all, start, end, span, x);
    CountWhere(all, Within(start, end), x);
    Factor(start <= x.ts <= end, if start < x.ts < end && (x.ts - start) % span == 0 then 2 else 1, multiset(all)[x]);
  }

  lemma Factor(inside: bool, f: nat, n: nat)
    ensures (if inside then f else 0) * n == (if inside then n else 0) * f
  {
  }

  // ---- a quote at an instant ----

  function Until(at: int): Candle -> bool {
    (c: Candle) => c.ts <= at
  }

  function LastOf(cs: seq<Candle>): Option<Candle> {
    if cs == [] then None else Some(cs[|cs| - 1])
  }

  function Lookback(interval: int): int {
    interval * 240 * 60
  }

  function QuoteAt(server: Server, at: int, interval: int): Option<Candle>
    requires interval > 0
  {
    LastOf(Where(Candles(server, at - Lookback(interval), at, Span(interval)), Until(at)))
  }

  lemma InCandles(all: seq<Candle>, start: int, end: int, span: int, x: Candle)
    requires span > 0 && start < end
    ensures x in Candles(Exchange(all), start, end, span) <==> x in all && start <= x.ts <= end
  {
    ChunkedAgainstSingle(all, start, end, span, x);
    CountWhere(all, Within(start, end), x);
    assert x in Candles(Exchange(all), start, end, span) <==>
           multiset(Candles(Exchange(all), start, end, span))[x] > 0;
    assert x in all <==> multiset(all)[x] > 0;
  }

  /** The quote is the latest candle of the last 240 periods, and there is none
      exactly if those have no candle. */
  lemma QuoteIsLatest(all: seq<Candle>, at: int, interval: int)
    requires interval > 0
    ensures match QuoteAt(Exchange(all), at, interval)
            case Some(c) =>
              && c in all && at - 240 * 60 * interval <= c.ts <= at
              && forall x :: x in all && x.ts <= at ==> x.ts <= c.ts
            case None => forall x :: x in all ==> !(at - 240 * 60 * interval <= x.ts <= at)
  {
    hide Candles, Where;
    var start := at - Lookback(interval);
    var got := Candles(Exchange(all), start, at, Span(interval));
    var usable := Where(got, Until(at));
    forall x ensures x in usable <==> x in all && start <= x.ts <= at {
      WhereHas(got, Until(at), x);
      InCandles(all, start, at, Span(interval), x);
    }
    if usable != [] {
      var c := usable[|usable| - 1];
      assert c in usable;
      SortedCandles(Exchange(all), start, at, Span(interval));
      WhereAscends(got, Until(at), TsOf);
      forall x | x in all && x.ts <= at ensures x.ts <= c.ts {
        if start <= x.ts {
          var i :| 0 <= i < |usable| && usable[i] == x;
          assert TsOf(usable[i]) <= TsOf(c);
        }
      }
    }
  }

  lemma SortedCandles(server: Server, start: int, end: int, span: int)
    requires span > 0
    ensures Ascending(Candles(server, start, end, span), TsOf)
  {
    SortSorts(Collected(server, Chunks(start, end, span)), TsOf);
  }

  // ---- a path, and the quote a market closed on ----

  /** `price_path`, `closed` being the market's close or the present if unknown. */
  function PathEnd(end: Option<int>, closed: int, now: int, clip: bool): int {
    var to := if end.Some? then end.value else Earlier(closed, now);
    if clip then Earlier(to, closed) else to
  }

  function PricePath(server: Server, listed: int, closed: int, now: int,
                     start: Option<int>, end: Option<int>, interval: int, clip: bool): seq<Candle>
    requires interval > 0
  {
    Candles(server, if start.Some? then start.value else listed, PathEnd(end, closed, now, clip), Span(interval))
  }

  /** A path has the candles from its start to its end: what was asked for, else
      the close or the present if that is sooner, and clipped the close at most. */
  lemma PathHas(all: seq<Candle>, listed: int, closed: int, now: int,
                start: Option<int>, end: Option<int>, interval: int, clip: bool, x: Candle)
    requires interval > 0
    ensures var from := if start.Some? then start.value else listed;
            x in PricePath(Exchange(all), listed, closed, now, start, end, interval, clip) <==>
              && x in all && from <= x.ts
              && (end.Some? ==> from < end.value && x.ts <= end.value)
              && (end.None? || clip ==> from < closed && x.ts <= closed)
              && (end.None? ==> from < now && x.ts <= now)
  {
    var from := if start.Some? then start.value else listed;
    var to := PathEnd(end, closed, now, clip);
    if from < to {
      InCandles(all, from, to, Span(interval), x);
    } else {
      EmptyWindow(Exchange(all), from, to, Span(interval));
    }
  }

  /** A market is two-sided with a bid and an ask that are not nothing bid and a
      dollar asked, and then has the middle of the two. */
  lemma MidIs(c: Candle)
    ensures c.Mid().Some? <==> c.bid.Some? && c.ask.Some? && (c.bid.value > 0.0 || c.ask.value < 1.0)
    ensures c.Mid().Some? ==> c.Mid().value + c.Mid().value == c.bid.value + c.ask.value
    ensures c.Mid().Some? <==> c.TwoSided()
  {
  }

  /** A clipped path over a market that had both has nothing from after its close. */
  lemma ClippedPathStopsAtClose(all: seq<Candle>, listed: int, closed: int, now: int,
                                start: Option<int>, end: Option<int>, interval: int, x: Candle)
    requires interval > 0 && x in PricePath(Exchange(all), listed, closed, now, start, end, interval, true)
    ensures x in all && x.ts <= closed
  {
    var from := if start.Some? then start.value else listed;
    var to := PathEnd(end, closed, now, true);
    if from >= to { EmptyWindow(Exchange(all), from, to, Span(interval)); }
    InCandles(all, from, to, Span(interval), x);
  }

  lemma EmptyWindow(server: Server, start: int, end: int, span: int)
    requires span > 0 && start >= end
    ensures Candles(server, start, end, span) == []
  {
  }

  /** The scan of `closing_quote`: the last candle with a book on both sides. */
  method ClosingQuote(window: seq<Candle>) returns (r: Option<Candle>)
    ensures r.None? <==> window == []
    ensures r.Some? ==> exists i :: 0 <= i < |window| && window[i] == r.value
                          && (forall j :: i < j < |window| ==> !window[j].TwoSided())
                          && (r.value.TwoSided()
                              || (i == |window| - 1 && forall j :: 0 <= j < |window| ==> !window[j].TwoSided()))
  {
    var i := |window|;
    while i > 0
      invariant 0 <= i <= |window|
      invariant forall j :: i <= j < |window| ==> !window[j].TwoSided()
    {
      i := i - 1;
      if window[i].TwoSided() {
        return Some(window[i]);
      }
    }
    return LastOf(window);
  }

  // ---- no look ahead ----

  /** Two exchanges that answer every request alike up to `at`. */
  ghost predicate AgreeUntil(s: Server, t: Server, at: int) {
    forall lo, hi :: Where(Answer(s, lo, hi), Until(at)) == Where(Answer(t, lo, hi), Until(at))
  }

  lemma {:induction false} CollectedAgree(s: Server, t: Server, at: int, chunks: seq<(int, int)>)
    requires AgreeUntil(s, t, at)
    ensures Where(Collected(s, chunks), Until(at)) == Where(Collected(t, chunks), Until(at))
  {
    if chunks != [] {
      var init, c := chunks[..|chunks| - 1], chunks[|chunks| - 1];
      CollectedAgree(s, t, at, init);
      WhereConcat(Collected(s, init), Answer(s, c.0, c.1), Until(at));
      WhereConcat(Collected(t, init), Answer(t, c.0, c.1), Until(at));
    }
  }

  /** A quote depends on nothing after its instant, even where the exchange
      answers with more than it was asked for. */
  lemma QuoteSeesNoFuture(s: Server, t: Server, at: int, interval: int)
    requires interval > 0 && AgreeUntil(s, t, at)
    ensures QuoteAt(s, at, interval) == QuoteAt(t, at, interval)
  {
    var chunks := Chunks(at - Lookback(interval), at, Span(interval));
    SortWhere(Collected(s, chunks), TsOf, Until(at));
    SortWhere(Collected(t, chunks), TsOf, Until(at));
    CollectedAgree(s, t, at, chunks);
  }

  predicate AllUntil(cs: seq<Candle>, hi: int) {
    forall i :: 0 <= i < |cs| ==> cs[i].ts <= hi
  }

  /** An exchange that keeps to the end it is given. */
  ghost predicate KeepsEnd(s: Server) {
    forall lo, hi :: AllUntil(Answer(s, lo, hi), hi)
  }

  lemma {:induction false} WhereAll<T>(xs: seq<T>, keep: T -> bool)
    requires forall i :: 0 <= i < |xs| ==> keep(xs[i])
    ensures Where(xs, keep) == xs
  {
    if xs != [] {
      WhereAll(xs[..|xs| - 1], keep);
      assert xs == xs[..|xs| - 1] + [xs[|xs| - 1]];
    }
  }

  lemma {:induction false} CollectedSame(s: Server, t: Server, at: int, chunks: seq<(int, int)>)
    requires AgreeUntil(s, t, at) && KeepsEnd(s) && KeepsEnd(t)
    requires forall i :: 0 <= i < |chunks| ==> chunks[i].1 <= at
    ensures Collected(s, chunks) == Collected(t, chunks)
  {
    if chunks != [] {
      var c := chunks[|chunks| - 1];
      CollectedSame(s, t, at, chunks[..|chunks| - 1]);
      assert AllUntil(Answer(s, c.0, c.1), c.1) && AllUntil(Answer(t, c.0, c.1), c.1);
      WhereAll(Answer(s, c.0, c.1), Until(at));
      WhereAll(Answer(t, c.0, c.1), Until(at));
    }
  }

  lemma {:induction false} ChunksEnd(start: int, end: int, span: int)
    requires span > 0
    ensures forall i :: 0 <= i < |Chunks(start, end, span)| ==> Chunks(start, end, span)[i].1 <= end
    decreases end - start
  {
    if start < end { ChunksEnd(Earlier(start + span, end), end, span); }
  }

  /** Nor does a fetch that ends at or before it, given an exchange that keeps
      to the end of a request. */
  lemma CandlesSeeNoFuture(s: Server, t: Server, at: int, start: int, end: int, span: int)
    requires span > 0 && end <= at
    ensures AgreeUntil(s, t, at) && KeepsEnd(s) && KeepsEnd(t) ==>
              Candles(s, start, end, span) == Candles(t, start, end, span)
  {
    ChunksEnd(start, end, span);
    if AgreeUntil(s, t, at) && KeepsEnd(s) && KeepsEnd(t) {
      CollectedSame(s, t, at, Chunks(start, end, span));
    }
  }
}
