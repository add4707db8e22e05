/** No-arbitrage checks over the markets of an event
    (`topics/kalshi/tools/_coherence.py`), and what each finding is worth under
    every settlement. */
module Coherence {
  import opened Prelude
  import opened Sorting
  import Fees

  /** `greater` says the contract pays when the outcome exceeds `strike`; a price
      that is missing, zero or less is None. */
  datatype Leg = Leg(
    ticker: string,
    bid: Option<real>,
    ask: Option<real>,
    bidSize: real,
    askSize: real,
    strike: Option<real>,
    greater: bool,
    subject: string)

  datatype Kind = Complement | Partition | Monotonicity | Convexity

  datatype Violation = Violation(kind: Kind, tickers: seq<string>, gross: real, net: real, size: real)
  {
    predicate Tradeable() {
      net > 0.0 && size > 0.0
    }
  }

  function Charge(price: real): real {
    Fees.TakerFee(price, 1.0)
  }

  // ---- sets that must price to one ----

  function Tickers(legs: seq<Leg>): seq<string> {
    seq(|legs|, i requires 0 <= i < |legs| => legs[i].ticker)
  }

  predicate AllAsked(legs: seq<Leg>) {
    forall i :: 0 <= i < |legs| ==> legs[i].ask.Some?
  }

  predicate AllBid(legs: seq<Leg>) {
    forall i :: 0 <= i < |legs| ==> legs[i].bid.Some?
  }

  function Asks(legs: seq<Leg>): (r: seq<real>)
    requires AllAsked(legs)
    ensures |r| == |legs|
  {
    seq(|legs|, i requires 0 <= i < |legs| => legs[i].ask.value)
  }

  function Bids(legs: seq<Leg>): (r: seq<real>)
    requires AllBid(legs)
    ensures |r| == |legs|
  {
    seq(|legs|, i requires 0 <= i < |legs| => legs[i].bid.value)
  }

  function Charges(prices: seq<real>): (r: seq<real>)
    ensures |r| == |prices|
  {
    seq(|prices|, i requires 0 <= i < |prices| => Charge(prices[i]))
  }

  function Least(xs: seq<real>): real
    requires xs != []
  {
    if |xs| == 1 then xs[0] else Min(Least(xs[..|xs| - 1]), xs[|xs| - 1])
  }

  function AskSizes(legs: seq<Leg>): (r: seq<real>)
    ensures |r| == |legs|
  {
    seq(|legs|, i requires 0 <= i < |legs| => legs[i].askSize)
  }

  function BidSizes(legs: seq<Leg>): (r: seq<real>)
    ensures |r| == |legs|
  {
    seq(|legs|, i requires 0 <= i < |legs| => legs[i].bidSize)
  }

  function BuyAll(legs: seq<Leg>, kind: Kind): seq<Violation>
    requires legs != []
  {
    if !AllAsked(legs) then []
    else
      var gross := 1.0 - Sum(Asks(legs));
      if gross > 0.0 then
        [Violation(kind, Tickers(legs), gross, gross - Sum(Charges(Asks(legs))), Least(AskSizes(legs)))]
      else []
  }

  function SellAll(legs: seq<Leg>, kind: Kind): seq<Violation>
    requires legs != []
  {
    if !AllBid(legs) then []
    else
      var gross := Sum(Bids(legs)) - 1.0;
      if gross > 0.0 then
        [Violation(kind, Tickers(legs), gross, gross - Sum(Charges(Bids(legs))), Least(BidSizes(legs)))]
      else []
  }

  function SumToOne(legs: seq<Leg>, kind: Kind): seq<Violation>
    requires legs != []
  {
    BuyAll(legs, kind) + SellAll(legs, kind)
  }

  /** How many legs settle yes. */
  function Yes(settled: seq<bool>): nat {
    if settled == [] then 0
    else Yes(settled[..|settled| - 1]) + if settled[|settled| - 1] then 1 else 0
  }

  function Pays(yes: bool): real {
    if yes then 1.0 else 0.0
  }

  /** What one contract of every leg, bought at the ask, brings in the end. */
  function BuyProfit(legs: seq<Leg>, settled: seq<bool>): real
    requires AllAsked(legs) && |settled| == |legs|
  {
    if legs == [] then 0.0
    else
      var n := |legs| - 1;
      var price := legs[n].ask.value;
      BuyProfit(legs[..n], settled[..n]) + (Pays(settled[n]) - price - Charge(price))
  }

  function SellProfit(legs: seq<Leg>, settled: seq<bool>): real
    requires AllBid(legs) && |settled| == |legs|
  {
    if legs == [] then 0.0
    else
      var n := |legs| - 1;
      var price := legs[n].bid.value;
      SellProfit(legs[..n], settled[..n]) + (price - Pays(settled[n]) - Charge(price))
  }

  lemma {:induction false} BuyProfitIs(legs: seq<Leg>, settled: seq<bool>)
    requires AllAsked(legs) && |settled| == |legs|
    ensures BuyProfit(legs, settled) == Yes(settled) as real - Sum(Asks(legs)) - Sum(Charges(Asks(legs)))
  {
    if legs != [] {
      var n := |legs| - 1;
      BuyProfitIs(legs[..n], settled[..n]);
      assert Asks(legs)[..n] == Asks(legs[..n]);
      assert Charges(Asks(legs))[..n] == Charges(Asks(legs[..n]));
    }
  }

  lemma {:induction false} SellProfitIs(legs: seq<Leg>, settled: seq<bool>)
    requires AllBid(legs) && |settled| == |legs|
    ensures SellProfit(legs, settled) == Sum(Bids(legs)) - Yes(settled) as real - Sum(Charges(Bids(legs)))
  {
    if legs != [] {
      var n := |legs| - 1;
      SellProfitIs(legs[..n], settled[..n]);
      assert Bids(legs)[..n] == Bids(legs[..n]);
      assert Charges(Bids(legs))[..n] == Charges(Bids(legs[..n]));
    }
  }

  /** A buy-all finding earns its net in exactly the settlements where some leg
      settles yes, and loses a dollar against it otherwise: it needs legs that
      are exhaustive. It earns a dollar more for every further leg. */
  lemma BuyAllNeedsExhaustive(legs: seq<Leg>, kind: Kind, settled: seq<bool>)
    requires legs != [] && BuyAll(legs, kind) != [] && |settled| == |legs|
    ensures AllAsked(legs)
    ensures var net := BuyAll(legs, kind)[0].net;
            && BuyProfit(legs, settled) == net + Yes(settled) as real - 1.0
            && (BuyProfit(legs, settled) >= net <==> Yes(settled) >= 1)
  {
    BuyProfitIs(legs, settled);
  }

  /** A sell-all finding earns its net in exactly the settlements where at most
      one leg settles yes: it needs mutual exclusion and nothing else. */
  lemma SellAllNeedsExclusion(legs: seq<Leg>, kind: Kind, settled: seq<bool>)
    requires legs != [] && SellAll(legs, kind) != [] && |settled| == |legs|
    ensures AllBid(legs)
    ensures var net := SellAll(legs, kind)[0].net;
            && SellProfit(legs, settled) == net + 1.0 - Yes(settled) as real
            && (SellProfit(legs, settled) >= net <==> Yes(settled) <= 1)
  {
    SellProfitIs(legs, settled);
  }

  // ---- one ladder ----

  datatype Rung = Rung(leg: Leg, strike: real)

  function StrikeOf(r: Rung): real {
    r.strike
  }

  function PairFinding(low: Rung, high: Rung): seq<Violation> {
    if low.leg.ask.None? || high.leg.bid.None? then []
    else
      var ask, bid := low.leg.ask.value, high.leg.bid.value;
      var gross := bid - ask;
      if gross > 0.0 then
        [Violation(Monotonicity, [low.leg.ticker, high.leg.ticker], gross,
                   gross - Charge(ask) - Charge(bid), Min(low.leg.askSize, high.leg.bidSize))]
      else []
  }

  const SAME_STEP := 0.000000001

  predicate EvenSteps(a: Rung, b: Rung, c: Rung) {
    -SAME_STEP <= (b.strike - a.strike) - (c.strike - b.strike) <= SAME_STEP
  }

  function ButterflyFinding(a: Rung, b: Rung, c: Rung): seq<Violation> {
    if !EvenSteps(a, b, c) || a.leg.ask.None? || b.leg.bid.None? || c.leg.ask.None? then []
    else
      var x, y, z := a.leg.ask.value, b.leg.bid.value, c.leg.ask.value;
      var gross := 2.0 * y - x - z;
      if gross > 0.0 then
        [Violation(Convexity, [a.leg.ticker, b.leg.ticker, c.leg.ticker], gross,
                   gross - Charge(x) - 2.0 * Charge(y) - Charge(z),
                   Min(Min(a.leg.askSize, b.leg.bidSize / 2.0), c.leg.askSize))]
      else []
  }

  function Pairs(rungs: seq<Rung>): seq<Violation> {
    var n := |rungs|;
    if n < 2 then [] else Pairs(rungs[..n - 1]) + PairFinding(rungs[n - 2], rungs[n - 1])
  }

  function Butterflies(rungs: seq<Rung>): seq<Violation> {
    var n := |rungs|;
    if n < 3 then []
    else Butterflies(rungs[..n - 1]) + ButterflyFinding(rungs[n - 3], rungs[n - 2], rungs[n - 1])
  }

  method ScanPairs(rungs: seq<Rung>) returns (out: seq<Violation>)
    requires |rungs| >= 2
    ensures out == Pairs(rungs)
  {
    hide PairFinding;
    out := [];
    var i := 1;
    while i < |rungs|
      invariant 1 <= i <= |rungs|
      invariant out == Pairs(rungs[..i])
    {
      assert rungs[..i + 1][..i] == rungs[..i];
      out := out + PairFinding(rungs[i - 1], rungs[i]);
      i := i + 1;
    }
    assert rungs[..i] == rungs;
  }

  method ScanButterflies(rungs: seq<Rung>) returns (out: seq<Violation>)
    requires |rungs| >= 2
    ensures out == Butterflies(rungs)
  {
    hide ButterflyFinding;
    out := [];
    var i := 2;
    while i < |rungs|
      invariant 2 <= i <= |rungs|
      invariant out == Butterflies(rungs[..i])
    {
      assert rungs[..i + 1][..i] == rungs[..i];
      out := out + ButterflyFinding(rungs[i - 2], rungs[i - 1], rungs[i]);
      i := i + 1;
    }
    assert rungs[..i] == rungs;
  }

  method OneLadder(rungs: seq<Rung>) returns (out: seq<Violation>)
    ensures out == Pairs(rungs) + Butterflies(rungs)
  {
    if |rungs| < 2 {
      return [];
    }
    out := ScanPairs(rungs);
    var more := ScanButterflies(rungs);
    out := out + more;
  }

  /** A contract on a rung pays when the outcome exceeds its strike. */
  function Settles(r: Rung, outcome: real): real {
    Pays(outcome > r.strike)
  }

  /** Buy the lower strike at the ask, sell the higher at the bid. */
  function SpreadProfit(low: Rung, high: Rung, outcome: real): real
    requires low.leg.ask.Some? && high.leg.bid.Some?
  {
    var ask, bid := low.leg.ask.value, high.leg.bid.value;
    Settles(low, outcome) - ask - Charge(ask) + bid - Settles(high, outcome) - Charge(bid)
  }

  /** Buy the wings at the ask, sell the middle twice at the bid. */
  function ButterflyProfit(a: Rung, b: Rung, c: Rung, outcome: real): real
    requires a.leg.ask.Some? && b.leg.bid.Some? && c.leg.ask.Some?
  {
    var x, y, z := a.leg.ask.value, b.leg.bid.value, c.leg.ask.value;
    Settles(a, outcome) - x - Charge(x) + 2.0 * (y - Settles(b, outcome) - Charge(y))
      + Settles(c, outcome) - z - Charge(z)
  }

  /** An adjacent-strike finding earns its net whatever the outcome, and a
      dollar more when the outcome falls between the strikes. */
  lemma SpreadIsLocked(low: Rung, high: Rung, outcome: real)
    requires low.strike <= high.strike && PairFinding(low, high) != []
    ensures low.leg.ask.Some? && high.leg.bid.Some?
    ensures SpreadProfit(low, high, outcome) ==
            PairFinding(low, high)[0].net + Pays(low.strike < outcome <= high.strike)
  {
  }

  /** A butterfly earns its net, a dollar more or a dollar less, by where the
      outcome falls. */
  lemma ButterflyByRegion(a: Rung, b: Rung, c: Rung, outcome: real)
    requires a.strike <= b.strike <= c.strike && ButterflyFinding(a, b, c) != []
    ensures a.leg.ask.Some? && b.leg.bid.Some? && c.leg.ask.Some?
    ensures ButterflyProfit(a, b, c, outcome) ==
            ButterflyFinding(a, b, c)[0].net
              + Pays(a.strike < outcome <= b.strike) - Pays(b.strike < outcome <= c.strike)
  {
  }

  /** What the outcome can cost a butterfly: a dollar, unless its two upper
      strikes are one. */
  function AtRisk(b: Rung, c: Rung): real {
    Pays(b.strike < c.strike)
  }

  ghost predicate NeverLoses(a: Rung, b: Rung, c: Rung) {
    && a.leg.ask.Some? && b.leg.bid.Some? && c.leg.ask.Some?
    && forall outcome :: ButterflyProfit(a, b, c, outcome) >= 0.0
  }

  /** So it never costs more than it pays exactly when its net covers that; the
      finding claims it of any net. */
  lemma ButterflyIsRisklessIff(a: Rung, b: Rung, c: Rung)
    requires a.strike <= b.strike <= c.strike && ButterflyFinding(a, b, c) != []
    ensures NeverLoses(a, b, c) <==> ButterflyFinding(a, b, c)[0].net >= AtRisk(b, c)
  {
    ButterflyByRegion(a, b, c, c.strike);
    ButterflyByRegion(a, b, c, c.strike + 1.0);
    forall outcome
      ensures ButterflyProfit(a, b, c, outcome) >= ButterflyFinding(a, b, c)[0].net - AtRisk(b, c)
    {
      ButterflyByRegion(a, b, c, outcome);
    }
    assert NeverLoses(a, b, c) ==>
             ButterflyProfit(a, b, c, c.strike) >= 0.0 && ButterflyProfit(a, b, c, c.strike + 1.0) >= 0.0;
  }

  lemma {:induction false} LeastIs(xs: seq<real>)
    requires xs != []
    ensures Least(xs) in xs && forall i :: 0 <= i < |xs| ==> Least(xs) <= xs[i]
  {
    if |xs| > 1 {
      var init := xs[..|xs| - 1];
      LeastIs(init);
      assert forall i :: 0 <= i < |init| ==> init[i] == xs[i];
    }
  }

  /** The size of a set finding can be traded on every leg and exhausts one. */
  lemma SetSizeFits(legs: seq<Leg>, kind: Kind)
    requires legs != []
    ensures forall v :: v in BuyAll(legs, kind) ==>
              && (forall i :: 0 <= i < |legs| ==> v.size <= legs[i].askSize)
              && exists i :: 0 <= i < |legs| && v.size == legs[i].askSize
    ensures forall v :: v in SellAll(legs, kind) ==>
              && (forall i :: 0 <= i < |legs| ==> v.size <= legs[i].bidSize)
              && exists i :: 0 <= i < |legs| && v.size == legs[i].bidSize
  {
    hide Sum, Charges, Tickers;
    LeastIs(AskSizes(legs));
    LeastIs(BidSizes(legs));
    assert forall i :: 0 <= i < |legs| ==> AskSizes(legs)[i] == legs[i].askSize;
    assert forall i :: 0 <= i < |legs| ==> BidSizes(legs)[i] == legs[i].bidSize;
  }

  /** So can the size of a butterfly, whose middle is sold twice. */
  lemma ButterflySizeFits(a: Rung, b: Rung, c: Rung)
    ensures forall v :: v in ButterflyFinding(a, b, c) ==>
              && v.size <= a.leg.askSize && 2.0 * v.size <= b.leg.bidSize && v.size <= c.leg.askSize
              && (v.size == a.leg.askSize || 2.0 * v.size == b.leg.bidSize || v.size == c.leg.askSize)
  {
  }

  function Quoted(strike: real, bid: Option<real>, ask: Option<real>): Rung {
    Rung(Leg("", bid, ask, 100.0, 100.0, Some(strike), true, ""), strike)
  }

  /** The size of a spread is what both legs have. */
  lemma SpreadSizeFits(low: Rung, high: Rung)
    ensures forall v :: v in PairFinding(low, high) ==>
              && v.size <= low.leg.askSize && v.size <= high.leg.bidSize
              && (v.size == low.leg.askSize || v.size == high.leg.bidSize)
  {
  }

  /** Three rungs are taken for evenly spaced up to a billionth of a strike. */
  lemma EvenlySpaced(a: Rung, b: Rung, c: Rung)
    ensures var d := (b.strike - a.strike) - (c.strike - b.strike);
            EvenSteps(a, b, c) <==> (if d >= 0.0 then d else -d) * 1000000000.0 <= 1.0
  {
  }

  // ---- all ladders of an event ----

  predicate OnLadder(leg: Leg) {
    leg.strike.Some? && leg.greater
  }

  /** The rungs of one subject, in the order they came. */
  function RungsOf(legs: seq<Leg>, subject: string): seq<Rung> {
    if legs == [] then []
    else
      var leg := legs[|legs| - 1];
      RungsOf(legs[..|legs| - 1], subject)
        + if OnLadder(leg) && leg.subject == subject then [Rung(leg, leg.strike.value)] else []
  }

  /** The subjects in the order they were first seen. */
  function Subjects(legs: seq<Leg>): seq<string> {
    if legs == [] then []
    else
      var seen, leg := Subjects(legs[..|legs| - 1]), legs[|legs| - 1];
      if OnLadder(leg) && leg.subject !in seen then seen + [leg.subject] else seen
  }

  function LadderFindings(legs: seq<Leg>, subjects: seq<string>): seq<Violation> {
    if subjects == [] then []
    else
      var rungs := Sort(RungsOf(legs, subjects[|subjects| - 1]), StrikeOf);
      LadderFindings(legs, subjects[..|subjects| - 1]) + (Pairs(rungs) + Butterflies(rungs))
  }

  lemma EmptyGroups(legs: seq<Leg>)
    ensures Subjects(legs[..0]) == [] && forall s :: RungsOf(legs[..0], s) == []
  {
  }

  lemma OneLegMore(legs: seq<Leg>, i: nat)
    requires i < |legs|
    ensures var seen, leg := Subjects(legs[..i]), legs[i];
            && Subjects(legs[..i + 1]) == (if OnLadder(leg) && leg.subject !in seen then seen + [leg.subject] else seen)
            && forall s :: RungsOf(legs[..i + 1], s) == RungsOf(legs[..i], s)
                 + (if OnLadder(leg) && leg.subject == s then [Rung(leg, leg.strike.value)] else [])
  {
    assert legs[..i + 1][..i] == legs[..i];
  }

  /** The dictionary of groups, its keys in the order they were put in. */
  method Group(legs: seq<Leg>) returns (order: seq<string>, groups: map<string, seq<Rung>>)
    ensures order == Subjects(legs)
    ensures forall s :: s in groups <==> s in order
    ensures forall s :: s in groups ==> groups[s] == RungsOf(legs, s)
  {
    hide RungsOf, Subjects;
    EmptyGroups(legs);
    groups := map[];
    order := [];
    var i := 0;
    while i < |legs|
      invariant 0 <= i <= |legs|
      invariant order == Subjects(legs[..i])
      invariant forall s :: s in groups <==> s in order
      invariant forall s :: s in groups ==> groups[s] == RungsOf(legs[..i], s)
      invariant forall s :: s !in groups ==> RungsOf(legs[..i], s) == []
    {
      var leg := legs[i];
      OneLegMore(legs, i);
      if OnLadder(leg) {
        var rung := Rung(leg, leg.strike.value);
        if leg.subject in groups {
          groups := groups[leg.subject := groups[leg.subject] + [rung]];
        } else {
          order := order + [leg.subject];
          groups := groups[leg.subject := [rung]];
        }
      }
      i := i + 1;
    }
    assert legs[..i] == legs;
  }

  method Ladder(legs: seq<Leg>) returns (out: seq<Violation>)
    ensures out == LadderFindings(legs, Subjects(legs))
  {
    hide Pairs, Butterflies, Sort, RungsOf, Subjects;
    var order, groups := Group(legs);
    out := [];
    var j := 0;
    while j < |order|
      invariant 0 <= j <= |order|
      invariant out == LadderFindings(legs, order[..j])
    {
      assert order[j] in groups;
      var found := OneLadder(Sort(groups[order[j]], StrikeOf));
      out := out + found;
      assert order[..j + 1][..j] == order[..j];
      j := j + 1;
    }
    assert order[..j] == order;
  }

  /** Two rungs that a monotonicity finding is about. */
  predicate IsSpread(legs: seq<Leg>, v: Violation, low: Rung, high: Rung) {
    && low.leg in legs && high.leg in legs
    && low.leg.greater && high.leg.greater
    && low.leg.strike == Some(low.strike) && high.leg.strike == Some(high.strike)
    && low.leg.subject == high.leg.subject && low.strike <= high.strike
    && PairFinding(low, high) == [v] && v.tickers == [low.leg.ticker, high.leg.ticker]
  }

  lemma {:induction false} RungsAreLegs(legs: seq<Leg>, subject: string, r: Rung)
    requires r in RungsOf(legs, subject)
    ensures r.leg in legs && r.leg.greater && r.leg.strike == Some(r.strike) && r.leg.subject == subject
  {
    var init := legs[..|legs| - 1];
    if r in RungsOf(init, subject) { RungsAreLegs(init, subject, r); }
  }

  lemma {:induction false} PairsFrom(rungs: seq<Rung>, v: Violation)
    requires v in Pairs(rungs)
    ensures v.kind == Monotonicity
    ensures exists i :: 0 < i < |rungs| && PairFinding(rungs[i - 1], rungs[i]) == [v]
  {
    var n := |rungs|;
    if v in PairFinding(rungs[n - 2], rungs[n - 1]) {
      assert PairFinding(rungs[n - 2], rungs[n - 1]) == [v];
    } else {
      PairsFrom(rungs[..n - 1], v);
      var i :| 0 < i < n - 1 && PairFinding(rungs[..n - 1][i - 1], rungs[..n - 1][i]) == [v];
      assert PairFinding(rungs[i - 1], rungs[i]) == [v];
    }
  }

  /** Three rungs that a convexity finding is about. */
  predicate IsButterfly(legs: seq<Leg>, v: Violation, a: Rung, b: Rung, c: Rung) {
    && a.leg in legs && b.leg in legs && c.leg in legs
    && a.leg.greater && b.leg.greater && c.leg.greater
    && a.leg.strike == Some(a.strike) && b.leg.strike == Some(b.strike) && c.leg.strike == Some(c.strike)
    && a.leg.subject == b.leg.subject == c.leg.subject && a.strike <= b.strike <= c.strike
    && ButterflyFinding(a, b, c) == [v] && v.tickers == [a.leg.ticker, b.leg.ticker, c.leg.ticker]
  }

  lemma ButterflyIsOne(a: Rung, b: Rung, c: Rung, v: Violation)
    ensures v in ButterflyFinding(a, b, c) ==>
              && ButterflyFinding(a, b, c) == [v] && v.kind == Convexity
              && v.tickers == [a.leg.ticker, b.leg.ticker, c.leg.ticker]
  {
  }

  lemma {:induction false} ButterfliesFrom(rungs: seq<Rung>, v: Violation)
    requires v in Butterflies(rungs)
    ensures v.kind == Convexity
    ensures exists i :: 1 < i < |rungs| && ButterflyFinding(rungs[i - 2], rungs[i - 1], rungs[i]) == [v]
  {
    hide ButterflyFinding;
    var n := |rungs|;
    ButterflyIsOne(rungs[n - 3], rungs[n - 2], rungs[n - 1], v);
    if v in ButterflyFinding(rungs[n - 3], rungs[n - 2], rungs[n - 1]) {
      assert ButterflyFinding(rungs[n - 3], rungs[n - 2], rungs[n - 1]) == [v];
    } else {
      var init := rungs[..n - 1];
      ButterfliesFrom(init, v);
      var i :| 1 < i < n - 1 && ButterflyFinding(init[i - 2], init[i - 1], init[i]) == [v];
      assert ButterflyFinding(rungs[i - 2], rungs[i - 1], rungs[i]) == [v];
    }
  }

  lemma SpreadNames(low: Rung, high: Rung, v: Violation)
    ensures v in PairFinding(low, high) ==> v.tickers == [low.leg.ticker, high.leg.ticker]
  {
  }

  lemma {:induction false} LadderSpreads(legs: seq<Leg>, subjects: seq<string>, v: Violation)
    requires v in LadderFindings(legs, subjects) && v.kind == Monotonicity
    ensures exists low, high :: IsSpread(legs, v, low, high)
  {
    hide PairFinding, OnLadder, Sort, RungsOf, Pairs, Butterflies;
    var init, s := subjects[..|subjects| - 1], subjects[|subjects| - 1];
    if v in LadderFindings(legs, init) {
      LadderSpreads(legs, init, v);
    } else {
      var rungs := Sort(RungsOf(legs, s), StrikeOf);
      SortSorts(RungsOf(legs, s), StrikeOf);
      if v in Butterflies(rungs) { ButterfliesFrom(rungs, v); }
      PairsFrom(rungs, v);
      var i :| 0 < i < |rungs| && PairFinding(rungs[i - 1], rungs[i]) == [v];
      assert rungs[i - 1] in multiset(rungs) && rungs[i] in multiset(rungs);
      RungsAreLegs(legs, s, rungs[i - 1]);
      RungsAreLegs(legs, s, rungs[i]);
      assert StrikeOf(rungs[i - 1]) <= StrikeOf(rungs[i]);
      SpreadNames(rungs[i - 1], rungs[i], v);
      assert IsSpread(legs, v, rungs[i - 1], rungs[i]);
    }
  }

  lemma SortedButterflies(legs: seq<Leg>, s: string, v: Violation)
    requires v in Butterflies(Sort(RungsOf(legs, s), StrikeOf))
    ensures exists a, b, c :: IsButterfly(legs, v, a, b, c)
  {
    hide ButterflyFinding, OnLadder, Butterflies, Sort, RungsOf;
    var rungs := Sort(RungsOf(legs, s), StrikeOf);
    SortSorts(RungsOf(legs, s), StrikeOf);
    ButterfliesFrom(rungs, v);
    var i :| 1 < i < |rungs| && ButterflyFinding(rungs[i - 2], rungs[i - 1], rungs[i]) == [v];
    var a, b, c := rungs[i - 2], rungs[i - 1], rungs[i];
    assert a in multiset(rungs) && b in multiset(rungs) && c in multiset(rungs);
    RungsAreLegs(legs, s, a);
    RungsAreLegs(legs, s, b);
    RungsAreLegs(legs, s, c);
    assert StrikeOf(a) <= StrikeOf(b) <= StrikeOf(c);
    ButterflyIsOne(a, b, c, v);
    assert IsButterfly(legs, v, a, b, c);
  }

  lemma {:induction false} LadderButterflies(legs: seq<Leg>, subjects: seq<string>, v: Violation)
    requires v in LadderFindings(legs, subjects) && v.kind == Convexity
    ensures exists a, b, c :: IsButterfly(legs, v, a, b, c)
  {
    hide PairFinding, ButterflyFinding, OnLadder, Pairs, Butterflies;
    var init, s := subjects[..|subjects| - 1], subjects[|subjects| - 1];
    if v in LadderFindings(legs, init) {
      LadderButterflies(legs, init, v);
    } else {
      var rungs := Sort(RungsOf(legs, s), StrikeOf);
      if v in Pairs(rungs) { PairsFrom(rungs, v); }
      SortedButterflies(legs, s, v);
    }
  }

  // ---- the whole event ----

  function Kept(vs: seq<Violation>, minNet: real): seq<Violation> {
    if vs == [] then []
    else
      var v := vs[|vs| - 1];
      Kept(vs[..|vs| - 1], minNet) + if v.Tradeable() && v.net >= minNet then [v] else []
  }

  lemma {:induction false} KeptIs(vs: seq<Violation>, minNet: real, v: Violation)
    ensures v in Kept(vs, minNet) <==> v in vs && v.Tradeable() && v.net >= minNet
  {
    if vs != [] {
      KeptIs(vs[..|vs| - 1], minNet, v);
      assert vs == vs[..|vs| - 1] + [vs[|vs| - 1]];
    }
  }

  function Sums(exclusive: bool, legs: seq<Leg>): seq<Violation> {
    if exclusive && |legs| > 2 then SumToOne(legs, Partition)
    else if |legs| == 2 then SumToOne(legs, Complement)
    else []
  }

  /** The findings of one event. */
  function Findings(exclusive: bool, legs: seq<Leg>, minNet: real): seq<Violation> {
    Kept(Sums(exclusive, legs) + LadderFindings(legs, Subjects(legs)), minNet)
  }

  method Keep(all: seq<Violation>, minNet: real) returns (out: seq<Violation>)
    ensures out == Kept(all, minNet)
  {
    out := [];
    var i := 0;
    while i < |all|
      invariant 0 <= i <= |all|
      invariant out == Kept(all[..i], minNet)
    {
      assert all[..i + 1][..i] == all[..i];
      if all[i].Tradeable() && all[i].net >= minNet {
        out := out + [all[i]];
      }
      i := i + 1;
    }
    assert all[..i] == all;
  }

  method CheckEvent(exclusive: bool, legs: seq<Leg>, minNet: real) returns (out: seq<Violation>)
    ensures out == Findings(exclusive, legs, minNet)
  {
    hide LadderFindings, Subjects, BuyAll, SellAll, Kept;
    var all: seq<Violation> := [];
    if exclusive && |legs| > 2 {
      all := SumToOne(legs, Partition);
    } else if |legs| == 2 {
      all := SumToOne(legs, Complement);
    }
    var ladders := Ladder(legs);
    out := Keep(all + ladders, minNet);
  }

  /** What a dollar leaves after all asks and their fees, or the bids after a
      dollar and theirs. */
  function BuyNet(legs: seq<Leg>): real
    requires AllAsked(legs)
  {
    1.0 - Sum(Asks(legs)) - Sum(Charges(Asks(legs)))
  }

  function SellNet(legs: seq<Leg>): real
    requires AllBid(legs)
  {
    Sum(Bids(legs)) - 1.0 - Sum(Charges(Bids(legs)))
  }

  /** A size that every leg has on offer, and that is all one of them has. */
  predicate Fits(size: real, sizes: seq<real>) {
    size in sizes && forall i :: 0 <= i < |sizes| ==> size <= sizes[i]
  }

  /** A position in all legs that is worth taking, and what is said of it. */
  predicate SetFinding(legs: seq<Leg>, minNet: real, v: Violation) {
    && v.tickers == Tickers(legs) && v.net > 0.0 && v.net >= minNet && v.size > 0.0
    && ((AllAsked(legs) && Sum(Asks(legs)) < 1.0 && v.gross == 1.0 - Sum(Asks(legs))
           && v.net == BuyNet(legs) && Fits(v.size, AskSizes(legs)))
        || (AllBid(legs) && Sum(Bids(legs)) > 1.0 && v.gross == Sum(Bids(legs)) - 1.0
              && v.net == SellNet(legs) && Fits(v.size, BidSizes(legs))))
  }

  lemma FitsIsLeast(size: real, sizes: seq<real>)
    requires sizes != []
    ensures Fits(size, sizes) <==> size == Least(sizes)
  {
    LeastIs(sizes);
  }

  lemma SumToOneIs(legs: seq<Leg>, kind: Kind, minNet: real, v: Violation)
    requires legs != []
    ensures v in SumToOne(legs, kind) && v.Tradeable() && v.net >= minNet <==>
            v.kind == kind && SetFinding(legs, minNet, v)
  {
    hide Sum, Charges, Tickers, Least, Asks, Bids, AskSizes, BidSizes, Fits;
    FitsIsLeast(v.size, AskSizes(legs));
    FitsIsLeast(v.size, BidSizes(legs));
    assert v in SumToOne(legs, kind) <==> v in BuyAll(legs, kind) || v in SellAll(legs, kind);
  }

  /** Which sets an event is priced as, exactly. A partition is reported if and
      only if the event is exclusive, has more than two legs, and what is left of
      a dollar, after prices and fees, is positive and reaches the threshold at a
      size above zero; a complement likewise at exactly two legs, exclusive or not. */
  lemma SetFindingsExact(exclusive: bool, legs: seq<Leg>, minNet: real, v: Violation)
    ensures v.kind == Partition ==>
              (v in Findings(exclusive, legs, minNet) <==> exclusive && |legs| > 2 && SetFinding(legs, minNet, v))
    ensures v.kind == Complement ==>
              (v in Findings(exclusive, legs, minNet) <==> |legs| == 2 && SetFinding(legs, minNet, v))
  {
    hide LadderFindings, Subjects, Kept, SumToOne, SetFinding, Violation.Tradeable;
    var found := LadderFindings(legs, Subjects(legs));
    KeptIs(Sums(exclusive, legs) + found, minNet, v);
    if v.kind in {Partition, Complement} { LadderKinds(legs, Subjects(legs), v); }
    if |legs| >= 2 {
      SumToOneIs(legs, Partition, minNet, v);
      SumToOneIs(legs, Complement, minNet, v);
    }
  }

  lemma {:induction false} LadderKinds(legs: seq<Leg>, subjects: seq<string>, v: Violation)
    requires v.kind in {Partition, Complement}
    ensures v !in LadderFindings(legs, subjects)
  {
    hide Pairs, Butterflies, Sort, RungsOf;
    if subjects != [] {
      LadderKinds(legs, subjects[..|subjects| - 1], v);
      var rungs := Sort(RungsOf(legs, subjects[|subjects| - 1]), StrikeOf);
      if v in Pairs(rungs) { PairsFrom(rungs, v); }
      if v in Butterflies(rungs) { ButterfliesFrom(rungs, v); }
    }
  }

  lemma {:induction false} PairsHave(rungs: seq<Rung>, i: nat, v: Violation)
    requires 0 < i < |rungs| && v in PairFinding(rungs[i - 1], rungs[i])
    ensures v in Pairs(rungs)
  {
    hide PairFinding;
    if i < |rungs| - 1 { PairsHave(rungs[..|rungs| - 1], i, v); }
  }

  lemma {:induction false} ButterfliesHave(rungs: seq<Rung>, i: nat, v: Violation)
    requires 1 < i < |rungs| && v in ButterflyFinding(rungs[i - 2], rungs[i - 1], rungs[i])
    ensures v in Butterflies(rungs)
  {
    hide ButterflyFinding;
    if i < |rungs| - 1 { ButterfliesHave(rungs[..|rungs| - 1], i, v); }
  }

  lemma {:induction false} LaddersHave(legs: seq<Leg>, subjects: seq<string>, s: string, v: Violation)
    requires s in subjects
    requires v in Pairs(Sort(RungsOf(legs, s), StrikeOf)) + Butterflies(Sort(RungsOf(legs, s), StrikeOf))
    ensures v in LadderFindings(legs, subjects)
  {
    hide Pairs, Butterflies, Sort, RungsOf;
    var n := |subjects| - 1;
    if subjects[n] != s { LaddersHave(legs, subjects[..n], s, v); }
  }

  lemma {:induction false} SubjectsAre(legs: seq<Leg>, leg: Leg)
    requires leg in legs && OnLadder(leg)
    ensures leg.subject in Subjects(legs)
  {
    hide OnLadder;
    var n := |legs| - 1;
    if leg in legs[..n] { SubjectsAre(legs[..n], leg); }
  }

  /** None is missed: whatever two neighbours or three in a row of a subject's
      ladder show is reported, if it can be traded and reaches the threshold. */
  lemma LadderFindingsComplete(exclusive: bool, legs: seq<Leg>, minNet: real, leg: Leg, i: nat, v: Violation)
    requires leg in legs && OnLadder(leg) && v.net > 0.0 && v.net >= minNet && v.size > 0.0
    requires var rungs := Sort(RungsOf(legs, leg.subject), StrikeOf);
             || (0 < i < |rungs| && v in PairFinding(rungs[i - 1], rungs[i]))
             || (1 < i < |rungs| && v in ButterflyFinding(rungs[i - 2], rungs[i - 1], rungs[i]))
    ensures v in Findings(exclusive, legs, minNet)
  {
    hide PairFinding, ButterflyFinding, Sort, RungsOf, Pairs, Butterflies, Kept, Subjects, LadderFindings, OnLadder;
    var rungs := Sort(RungsOf(legs, leg.subject), StrikeOf);
    if 0 < i < |rungs| && v in PairFinding(rungs[i - 1], rungs[i]) {
      PairsHave(rungs, i, v);
    } else {
      ButterfliesHave(rungs, i, v);
    }
    SubjectsAre(legs, leg);
    LaddersHave(legs, Subjects(legs), leg.subject, v);
    KeptIs(Sums(exclusive, legs) + LadderFindings(legs, Subjects(legs)), minNet, v);
  }

  /** Every monotonicity finding of an event is a spread on two rungs of one
      subject that earns its net, and so at least the threshold, whatever the
      outcome. */
  lemma MonotonicityIsSound(exclusive: bool, legs: seq<Leg>, minNet: real, v: Violation)
    ensures v in Findings(exclusive, legs, minNet) && v.kind == Monotonicity ==>
              exists low, high :: IsSpread(legs, v, low, high) && Locks(v, low, high) && v.net >= minNet
  {
    hide LadderFindings, Subjects, Kept;
    var found := LadderFindings(legs, Subjects(legs));
    KeptIs(Sums(exclusive, legs) + found, minNet, v);
    if v in Findings(exclusive, legs, minNet) && v.kind == Monotonicity {
      assert v in found;
      LadderSpreads(legs, Subjects(legs), v);
      var low, high :| IsSpread(legs, v, low, high);
      forall outcome ensures SpreadProfit(low, high, outcome) >= v.net {
        SpreadIsLocked(low, high, outcome);
      }
    }
  }

  /** The position of the finding earns its net, which is positive, in every outcome. */
  ghost predicate Locks(v: Violation, low: Rung, high: Rung) {
    && low.leg.ask.Some? && high.leg.bid.Some? && v.net > 0.0
    && forall outcome :: SpreadProfit(low, high, outcome) >= v.net
  }

  /** Every convexity finding of an event is a butterfly on three rungs of one
      subject; it never loses if and only if its net covers what is at risk. */
  lemma ConvexityIsRisklessIff(exclusive: bool, legs: seq<Leg>, minNet: real, v: Violation)
    ensures v in Findings(exclusive, legs, minNet) && v.kind == Convexity ==>
              exists a, b, c :: IsButterfly(legs, v, a, b, c) && (NeverLoses(a, b, c) <==> v.net >= AtRisk(b, c))
  {
    hide LadderFindings, Subjects, Kept, ButterflyFinding, NeverLoses, AtRisk;
    var found := LadderFindings(legs, Subjects(legs));
    KeptIs(Sums(exclusive, legs) + found, minNet, v);
    if v in Findings(exclusive, legs, minNet) && v.kind == Convexity {
      assert v in found;
      LadderButterflies(legs, Subjects(legs), v);
      var a, b, c :| IsButterfly(legs, v, a, b, c);
      ButterflyIsRisklessIff(a, b, c);
    }
  }

  lemma {:induction false} OneSubject(legs: seq<Leg>, rungs: seq<Rung>, subject: string)
    requires |legs| == |rungs|
    requires forall i :: 0 <= i < |legs| ==>
               OnLadder(legs[i]) && legs[i].subject == subject && rungs[i] == Rung(legs[i], legs[i].strike.value)
    ensures RungsOf(legs, subject) == rungs && Subjects(legs) == if legs == [] then [] else [subject]
  {
    if legs != [] {
      var n := |legs| - 1;
      OneSubject(legs[..n], rungs[..n], subject);
      assert rungs == rungs[..n] + [rungs[n]];
    }
  }

  /** An event that is one ladder in order of its strikes is scanned as it is. */
  lemma OneLadderEvent(legs: seq<Leg>, rungs: seq<Rung>, subject: string)
    requires |legs| == |rungs| > 0 && Ascending(rungs, StrikeOf)
    requires forall i :: 0 <= i < |legs| ==>
               OnLadder(legs[i]) && legs[i].subject == subject && rungs[i] == Rung(legs[i], legs[i].strike.value)
    ensures LadderFindings(legs, Subjects(legs)) == Pairs(rungs) + Butterflies(rungs)
  {
    hide Pairs, Butterflies, Sort, OnLadder, RungsOf, Subjects;
    OneSubject(legs, rungs, subject);
    SortedStays(rungs, StrikeOf);
    assert [subject][..0] == [];
  }

  /** And a finding can lose: three rungs whose butterfly is reported with a net
      above thirty cents and costs more than sixty at an outcome of three. */
  lemma ConvexityFindingLoses()
    ensures var a, c := Quoted(1.0, Some(0.2), Some(0.3)), Quoted(3.0, Some(0.2), Some(0.3));
            var b := Quoted(2.0, Some(0.5), Some(0.6));
            var found := Findings(false, [a.leg, b.leg, c.leg], 0.005);
            && ButterflyFinding(a, b, c) != [] && ButterflyFinding(a, b, c)[0] in found
            && ButterflyFinding(a, b, c)[0].net > 0.3
            && ButterflyProfit(a, b, c, 3.0) < -0.6
  {
    hide LadderFindings, Subjects, Kept, PairFinding;
    var a, c := Quoted(1.0, Some(0.2), Some(0.3)), Quoted(3.0, Some(0.2), Some(0.3));
    var b := Quoted(2.0, Some(0.5), Some(0.6));
    var legs, rungs := [a.leg, b.leg, c.leg], [a, b, c];
    OneLadderEvent(legs, rungs, "");
    TwoCents();
    var v := ButterflyFinding(a, b, c)[0];
    assert v.net == 0.32 && v.size == 50.0;
    assert Butterflies(rungs[..2]) == [] && Butterflies(rungs) == [v];
    KeptIs(Sums(false, legs) + LadderFindings(legs, Subjects(legs)), 0.005, v);
    ButterflyByRegion(a, b, c, 3.0);
  }

  lemma Two(a: real, b: real)
    ensures Sum([a, b]) == a + b && Least([a, b]) == Min(a, b)
  {
    assert [a, b][..1] == [a] && [a][..0] == [];
    assert Sum([a]) == a;
  }

  /** The complement check asks for two legs and not for exclusion: two rungs of
      one ladder are reported as a locked profit, and lose when both settle yes. */
  lemma ComplementNeedsMore()
    ensures var legs := [Quoted(6.5, Some(0.7), None).leg, Quoted(7.5, Some(0.6), None).leg];
            && SellAll(legs, Complement) != []
            && SellAll(legs, Complement)[0] in Findings(false, legs, 0.005)
            && AllBid(legs) && SellProfit(legs, [true, true]) < -0.7
  {
    hide LadderFindings, Subjects, Kept, Sum, Least;
    var legs := [Quoted(6.5, Some(0.7), None).leg, Quoted(7.5, Some(0.6), None).leg];
    assert Bids(legs) == [0.7, 0.6];
    assert Charges(Bids(legs)) == [Charge(0.7), Charge(0.6)];
    assert BidSizes(legs) == [100.0, 100.0];
    Two(0.7, 0.6);
    Two(Charge(0.7), Charge(0.6));
    Two(100.0, 100.0);
    TwoCents();
    var v := SellAll(legs, Complement)[0];
    assert v.net == 0.26 && v.size == 100.0;
    KeptIs(Sums(false, legs) + LadderFindings(legs, Subjects(legs)), 0.005, v);
    SellAllNeedsExclusion(legs, Complement, [true, true]);
    assert [true, true][..1] == [true] && [true][..0] == [];
    assert Yes([true]) == 1;
  }

  lemma TwoCents()
    ensures Charge(0.7) == 0.02 && Charge(0.6) == 0.02 && Charge(0.5) == 0.02 && Charge(0.3) == 0.02
  {
    Fees.FeeInCents(0.5);
    Fees.FeeInCents(0.3);
    assert Fees.Spread(0.5) == 0.25 && Fees.Spread(0.3) == 0.21;
    Fees.FeeInCents(0.7);
    Fees.FeeInCents(0.6);
    assert Fees.Spread(0.7) == 0.21 && Fees.Spread(0.6) == 0.24;
  }
}
