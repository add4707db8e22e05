/** What a scan of neighbouring rungs sees of a ladder, and what it can miss. */
module Ladders {
  import opened Prelude
  import opened Sorting
  import opened Coherence

  /** A pair of rungs, adjacent or not, that is priced the wrong way round. */
  predicate Inverted(rungs: seq<Rung>, i: nat, j: nat) {
    i < j < |rungs| && PairFinding(rungs[i], rungs[j]) != []
  }

  predicate NextInverted(rungs: seq<Rung>, k: nat) {
    0 < k < |rungs| && Inverted(rungs, k - 1, k)
  }

  /** The scan compares each rung with the one before it, and reports those only. */
  lemma {:induction false} ScanSeesNeighbours(rungs: seq<Rung>)
    ensures Pairs(rungs) != [] <==> exists k :: NextInverted(rungs, k)
  {
    hide PairFinding;
    var n := |rungs|;
    if n >= 2 {
      var init := rungs[..n - 1];
      ScanSeesNeighbours(init);
      assert NextInverted(rungs, n - 1) <==> PairFinding(rungs[n - 2], rungs[n - 1]) != [];
      assert forall k: nat :: k < n - 1 ==> (NextInverted(rungs, k) <==> NextInverted(init, k));
      assert forall k: nat :: NextInverted(rungs, k) ==> k < n - 1 || k == n - 1;
    }
  }

  predicate BothQuoted(r: Rung) {
    r.leg.bid.Some? && r.leg.ask.Some?
  }

  function SpreadOf(r: Rung): real
    requires BothQuoted(r)
  {
    r.leg.ask.value - r.leg.bid.value
  }

  /** The spreads of the rungs from `i` up to `j`, added up. */
  function Spreads(rungs: seq<Rung>, i: nat, j: nat): real
    requires i <= j <= |rungs| && forall k :: i <= k < j ==> BothQuoted(rungs[k])
  {
    if i == j then 0.0 else Spreads(rungs, i, j - 1) + SpreadOf(rungs[j - 1])
  }

  /** An inversion wider than the spreads between its rungs add up to is always
      betrayed: two neighbours on the way are inverted too. */
  lemma {:induction false} WideInversionIsSeen(rungs: seq<Rung>, i: nat, j: nat)
    requires i < j < |rungs| && rungs[i].leg.ask.Some? && rungs[j].leg.bid.Some?
    requires forall k :: i < k < j ==> BothQuoted(rungs[k])
    requires rungs[j].leg.bid.value - rungs[i].leg.ask.value > Spreads(rungs, i + 1, j)
    ensures exists k :: i < k <= j && NextInverted(rungs, k)
    decreases j
  {
    var last := j - 1;
    if last == i || rungs[j].leg.bid.value > rungs[last].leg.ask.value {
      assert NextInverted(rungs, j);
    } else {
      WideInversionIsSeen(rungs, i, last);
    }
  }

  predicate Firm(r: Rung) {
    r.leg.bid.Some? && r.leg.ask == r.leg.bid
  }

  /** So where bid meets ask on every rung no inversion at all escapes the scan. */
  lemma FirmQuotesHideNothing(rungs: seq<Rung>, i: nat, j: nat)
    requires forall k :: 0 <= k < |rungs| ==> Firm(rungs[k])
    requires Inverted(rungs, i, j)
    ensures Pairs(rungs) != []
  {
    NoSpreads(rungs, i + 1, j);
    WideInversionIsSeen(rungs, i, j);
    ScanSeesNeighbours(rungs);
  }

  lemma {:induction false} NoSpreads(rungs: seq<Rung>, i: nat, j: nat)
    requires i <= j <= |rungs| && forall k :: 0 <= k < |rungs| ==> Firm(rungs[k])
    ensures forall k :: i <= k < j ==> BothQuoted(rungs[k])
    ensures Spreads(rungs, i, j) == 0.0
    decreases j
  {
    if i < j { NoSpreads(rungs, i, j - 1); }
  }

  // ---- every smaller one can be hidden ----

  predicate Price(q: Option<real>) {
    q.None? || 0.0 < q.value <= 1.0
  }

  /** A ladder in order of its strikes, its prices between 0 and 1, whose lowest
      rung asks `ask`, whose highest bids `gross` more, and whose rungs between
      have these spreads. */
  predicate Shows(rungs: seq<Rung>, ask: real, gross: real, spreads: seq<real>) {
    var last := |spreads| + 1;
    && |rungs| == last + 1 && Ascending(rungs, StrikeOf)
    && (forall k :: 0 <= k <= last ==> Price(rungs[k].leg.bid) && Price(rungs[k].leg.ask))
    && rungs[0].leg.ask == Some(ask) && rungs[last].leg.bid == Some(ask + gross)
    && forall k :: 0 < k < last ==> BothQuoted(rungs[k]) && SpreadOf(rungs[k]) == spreads[k - 1]
  }

  lemma {:induction false} SpreadsAreSum(rungs: seq<Rung>, spreads: seq<real>, n: nat)
    requires n <= |spreads| < |rungs|
    requires forall k :: 0 < k <= |spreads| ==> BothQuoted(rungs[k]) && SpreadOf(rungs[k]) == spreads[k - 1]
    ensures Spreads(rungs, 1, n + 1) == Sum(spreads[..n])
  {
    if n > 0 {
      SpreadsAreSum(rungs, spreads, n - 1);
      assert spreads[..n][..n - 1] == spreads[..n - 1];
    } else {
      assert spreads[..0] == [];
    }
  }

  predicate SpreadsOk(spreads: seq<real>) {
    forall k :: 0 <= k < |spreads| ==> 0.0 <= spreads[k] < 1.0
  }

  /** The ask of the last of the rungs that follow each other with no bid above
      the ask before it: the spreads added up, at one at the most. */
  function TopAsk(ask: real, spreads: seq<real>): real {
    if spreads == [] then ask
    else Min(1.0, TopAsk(ask, spreads[..|spreads| - 1]) + spreads[|spreads| - 1])
  }

  function Staircase(ask: real, spreads: seq<real>): (r: seq<Rung>)
    ensures |r| == |spreads| + 1
  {
    if spreads == [] then [Quoted(0.0, None, Some(ask))]
    else
      var n := |spreads|;
      var top := TopAsk(ask, spreads);
      Staircase(ask, spreads[..n - 1]) + [Quoted(n as real, Some(top - spreads[n - 1]), Some(top))]
  }

  lemma {:induction false} TopAskIs(ask: real, spreads: seq<real>)
    requires 0.0 < ask <= 1.0 && SpreadsOk(spreads)
    ensures TopAsk(ask, spreads) == Min(1.0, ask + Sum(spreads)) && Sum(spreads) >= 0.0
  {
    if spreads != [] { TopAskIs(ask, spreads[..|spreads| - 1]); }
  }

  lemma PairsSnoc(rungs: seq<Rung>, r: Rung)
    requires rungs != []
    ensures Pairs(rungs + [r]) == Pairs(rungs) + PairFinding(rungs[|rungs| - 1], r)
  {
    assert (rungs + [r])[..|rungs|] == rungs;
  }

  /** The rungs of a staircase, each at the strike of its position. */
  predicate Stairs(r: seq<Rung>, ask: real, spreads: seq<real>) {
    && |r| == |spreads| + 1 && r[0].leg.ask == Some(ask)
    && (forall k :: 0 <= k < |r| ==> Price(r[k].leg.bid) && Price(r[k].leg.ask) && r[k].strike == k as real)
    && (forall k :: 0 < k < |r| ==> BothQuoted(r[k]) && SpreadOf(r[k]) == spreads[k - 1])
  }

  lemma {:induction false} StaircaseIsSilent(ask: real, spreads: seq<real>)
    requires 0.0 < ask <= 1.0 && SpreadsOk(spreads)
    ensures var r := Staircase(ask, spreads);
            Pairs(r) == [] && Stairs(r, ask, spreads) && r[|spreads|].leg.ask == Some(TopAsk(ask, spreads))
  {
    hide Pairs, TopAsk, PairFinding;
    var n := |spreads|;
    if n == 0 {
      NoStairs(ask, spreads);
    } else {
      var init := spreads[..n - 1];
      StaircaseIsSilent(ask, init);
      TopStep(ask, spreads);
      var r, top := Staircase(ask, init), TopAsk(ask, spreads);
      var next := Quoted(n as real, Some(top - spreads[n - 1]), Some(top));
      PairsSnoc(r, next);
      NotInverted(r[n - 1], next);
      StairsSnoc(r, ask, init, spreads[n - 1], next);
      assert init + [spreads[n - 1]] == spreads;
    }
  }

  lemma NoStairs(ask: real, spreads: seq<real>)
    requires 0.0 < ask <= 1.0 && spreads == []
    ensures var r := Staircase(ask, spreads);
            Pairs(r) == [] && Stairs(r, ask, spreads) && r[0].leg.ask == Some(TopAsk(ask, spreads))
  {
  }

  lemma NotInverted(low: Rung, high: Rung)
    requires low.leg.ask.Some? && high.leg.bid.Some? && high.leg.bid.value <= low.leg.ask.value
    ensures PairFinding(low, high) == []
  {
  }

  /** The next rung up: its bid is a price, and is not above the ask before it. */
  lemma TopStep(ask: real, spreads: seq<real>)
    requires 0.0 < ask <= 1.0 && SpreadsOk(spreads) && spreads != []
    ensures var n := |spreads| - 1;
            var top := TopAsk(ask, spreads);
            0.0 < top - spreads[n] <= TopAsk(ask, spreads[..n]) && top <= 1.0
  {
    hide Sum;
    TopAskIs(ask, spreads[..|spreads| - 1]);
  }

  lemma StairsSnoc(r: seq<Rung>, ask: real, spreads: seq<real>, spread: real, next: Rung)
    requires Stairs(r, ask, spreads) && BothQuoted(next) && SpreadOf(next) == spread
    requires Price(next.leg.bid) && Price(next.leg.ask) && next.strike == |r| as real
    ensures Stairs(r + [next], ask, spreads + [spread])
  {
  }

  lemma HiddenLadder(ask: real, gross: real, spreads: seq<real>) returns (rungs: seq<Rung>)
    requires 0.0 < ask && 0.0 < gross && ask + gross <= 1.0 && SpreadsOk(spreads) && gross <= Sum(spreads)
    ensures Shows(rungs, ask, gross, spreads) && Pairs(rungs) == []
  {
    hide Staircase, TopAsk, Sum;
    var n := |spreads|;
    StaircaseIsSilent(ask, spreads);
    TopAskIs(ask, spreads);
    var stairs := Staircase(ask, spreads);
    rungs := stairs + [Quoted((n + 1) as real, Some(ask + gross), None)];
    PairsSnoc(stairs, rungs[n + 1]);
    assert PairFinding(rungs[n], rungs[n + 1]) == [];
  }

  /** What the scan can miss, exactly, on ladders of any length: with every rung
      between two others quoted, an inversion of those two can go unreported if
      and only if it is no wider than the spreads between them together. */
  lemma HiddenIff(ask: real, gross: real, spreads: seq<real>)
    requires 0.0 < ask && 0.0 < gross && ask + gross <= 1.0 && SpreadsOk(spreads)
    ensures (exists rungs :: Shows(rungs, ask, gross, spreads) && Pairs(rungs) == []) <==> gross <= Sum(spreads)
  {
    hide Pairs, Sum, Spreads;
    if gross <= Sum(spreads) {
      var rungs := HiddenLadder(ask, gross, spreads);
    } else {
      forall rungs | Shows(rungs, ask, gross, spreads) ensures Pairs(rungs) != [] {
        var n := |spreads|;
        SpreadsAreSum(rungs, spreads, n);
        assert spreads[..n] == spreads;
        WideInversionIsSeen(rungs, 0, n + 1);
        ScanSeesNeighbours(rungs);
      }
    }
  }

  /** Behind a rung without quotes an inversion of any width can go unreported. */
  lemma MissingQuoteHidesAny(ask: real, gross: real) returns (rungs: seq<Rung>)
    requires 0.0 < ask && 0.0 < gross && ask + gross <= 1.0
    ensures |rungs| == 3 && Ascending(rungs, StrikeOf) && rungs[1].leg.bid.None? && rungs[1].leg.ask.None?
    ensures rungs[0].leg.ask == Some(ask) && rungs[2].leg.bid == Some(ask + gross)
    ensures Inverted(rungs, 0, 2) && Pairs(rungs) == []
  {
    rungs := [Quoted(1.0, None, Some(ask)), Quoted(2.0, None, None), Quoted(3.0, Some(ask + gross), None)];
    assert rungs[..2] == [rungs[0], rungs[1]] && rungs[..2][..1] == [rungs[0]];
    assert Pairs(rungs[..2]) == [];
  }

  /** With a spread in between, or with a quote missing, one is hidden: the outer
      two of these rungs are inverted by twenty cents and the scan is silent. */
  lemma SpreadsHideInversions(missing: bool)
    ensures var middle := if missing then Quoted(2.0, None, None) else Quoted(2.0, Some(0.25), Some(0.65));
            var rungs := [Quoted(1.0, Some(0.25), Some(0.3)), middle, Quoted(3.0, Some(0.5), Some(0.65))];
            Ascending(rungs, StrikeOf) && Inverted(rungs, 0, 2) && Pairs(rungs) == []
  {
    var middle := if missing then Quoted(2.0, None, None) else Quoted(2.0, Some(0.25), Some(0.65));
    var rungs := [Quoted(1.0, Some(0.25), Some(0.3)), middle, Quoted(3.0, Some(0.5), Some(0.65))];
    assert rungs[..2] == [rungs[0], rungs[1]] && rungs[..2][..1] == [rungs[0]];
    assert Pairs(rungs[..2]) == [];
  }
}
