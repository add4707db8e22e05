/** Fees, breakeven and sizing (`topics/kalshi/tools/_fees.py`), on exact reals. */
module Fees {
  import opened Prelude
  import opened Reals

  const FEE_RATE := 0.07
  const FEE_CAP := 0.035
  const MAKER_MULTIPLIER := 0.25

  function Ceil(x: real): int {
    -((-x).Floor)
  }

  function Clamp(price: real): real {
    Min(Max(price, 0.0), 1.0)
  }

  function PerContract(price: real): real {
    var p := Clamp(price);
    Min(Ceil(FEE_RATE * p * (1.0 - p) * 100.0) as real / 100.0, FEE_CAP)
  }

  function TakerFee(price: real, contracts: real): real {
    PerContract(price) * contracts
  }

  function MakerFee(price: real, contracts: real): real {
    TakerFee(price, contracts) * MAKER_MULTIPLIER
  }

  function Fee(price: real, contracts: real, maker: bool): real {
    if maker then MakerFee(price, contracts) else TakerFee(price, contracts)
  }

  function Breakeven(price: real, maker: bool, roundTrip: bool): real {
    price + Fee(price, 1.0, maker) * (if roundTrip then 2.0 else 1.0)
  }

  function Edge(probability: real, price: real, maker: bool, roundTrip: bool): real {
    probability - Breakeven(price, maker, roundTrip)
  }

  function Kelly(probability: real, price: real, fraction: real, maker: bool): real {
    var cost := Breakeven(price, maker, false);
    if !(0.0 < cost < 1.0) then 0.0
    else
      var win, lose := 1.0 - cost, cost;
      Max(0.0, (probability * win - (1.0 - probability) * lose) / win * fraction)
  }

  datatype Trade = Trade(yes: bool, price: real, contracts: real, maker: bool)
  {
    function Cost(): real {
      price * contracts + Fee(price, contracts, maker)
    }

    function MaxWin(): real {
      (1.0 - price) * contracts - Fee(price, contracts, maker)
    }

    function Pnl(settledYes: bool): real {
      if yes == settledYes then MaxWin() else -Cost()
    }
  }

  // ---- the fee ----

  /** The variance of a binary price, which the fee is a step function of. */
  function Spread(price: real): real {
    Clamp(price) * (1.0 - Clamp(price))
  }

  lemma SpreadBound(price: real)
    ensures 0.0 <= Spread(price) <= 0.25
    ensures Spread(price) == 0.0 <==> price <= 0.0 || price >= 1.0
  {
    var p := Clamp(price);
    assert Spread(price) == 0.25 - (p - 0.5) * (p - 0.5);
    if 0.0 < p < 1.0 { assert p * (1.0 - p) > 0.0; }
  }

  /** Over all prices a contract costs nothing, one cent or two. The two cents
      are charged where seven times the variance exceeds one, so at the middle
      the fee is two cents and not the 1.75 of the documentation; and the cap
      of 3.5 cents never binds. */
  lemma FeeInCents(price: real)
    ensures PerContract(price) ==
            if price <= 0.0 || price >= 1.0 then 0.0
            else if 7.0 * Spread(price) > 1.0 then 0.02
            else 0.01
    ensures PerContract(price) < FEE_CAP
    ensures PerContract(0.5) == 0.02
  {
    SpreadBound(price);
    CeilOf(price);
    CeilOf(0.5);
    assert Spread(0.5) == 0.25;
  }

  lemma CeilOf(price: real)
    ensures PerContract(price) == Min(Ceil(7.0 * Spread(price)) as real / 100.0, FEE_CAP)
  {
    hide Ceil, Clamp;
    var p := Clamp(price);
    Regroup(p, 1.0 - p);
  }

  lemma Regroup(p: real, q: real)
    ensures FEE_RATE * p * q * 100.0 == 7.0 * (p * q)
  {
  }

  /** The fee is the same on both sides of a contract, and grows toward the middle. */
  lemma FeeSymmetricUnimodal(price: real, inner: real)
    ensures PerContract(1.0 - price) == PerContract(price)
    ensures (price <= inner <= 0.5 || 0.5 <= inner <= price) ==> PerContract(price) <= PerContract(inner)
  {
    assert Clamp(1.0 - price) == 1.0 - Clamp(price);
    assert Spread(1.0 - price) == Spread(price);
    FeeInCents(price);
    FeeInCents(1.0 - price);
    FeeInCents(inner);
    if price <= inner <= 0.5 || 0.5 <= inner <= price { Closer(Clamp(price), Clamp(inner)); }
  }

  lemma Closer(p: real, q: real)
    requires p <= q <= 0.5 || 0.5 <= q <= p
    ensures p * (1.0 - p) <= q * (1.0 - q)
  {
    assert q * (1.0 - q) - p * (1.0 - p) == (q - p) * (1.0 - q - p);
    if q >= p { assert (q - p) * (1.0 - q - p) >= 0.0; } else { assert (p - q) * (p + q - 1.0) >= 0.0; }
  }

  /** A maker pays a quarter of a taker's fee, both in proportion to the contracts. */
  lemma FeesAre(price: real, contracts: real)
    ensures 4.0 * Fee(price, contracts, true) == Fee(price, contracts, false)
    ensures Fee(price, contracts, false) == contracts * PerContract(price)
  {
  }

  // ---- edge and stake ----

  /** A position's expected result is its contracts times the edge at the
      probability of the side it is on. */
  lemma ExpectedPnlIsEdge(t: Trade, probability: real)
    ensures probability * t.Pnl(true) + (1.0 - probability) * t.Pnl(false)
            == t.contracts * Edge(if t.yes then probability else 1.0 - probability, t.price, t.maker, false)
  {
    FeeScales(t.price, t.contracts, t.maker);
    hide Fee;
    var f, q := Fee(t.price, 1.0, t.maker), if t.yes then probability else 1.0 - probability;
    Expectation(q, t.price, t.contracts, f);
  }

  lemma FeeScales(price: real, contracts: real, maker: bool)
    ensures Fee(price, contracts, maker) == contracts * Fee(price, 1.0, maker)
  {
    var per := PerContract(price);
    assert (per * contracts) * MAKER_MULTIPLIER == contracts * ((per * 1.0) * MAKER_MULTIPLIER);
  }

  lemma Expectation(q: real, price: real, n: real, f: real)
    ensures q * ((1.0 - price) * n - n * f) - (1.0 - q) * (price * n + n * f) == n * (q - (price + f * 1.0))
  {
    var a, b := (1.0 - price) * n - n * f, price * n + n * f;
    assert a + b == n;
    assert q * a - (1.0 - q) * b == q * (a + b) - b;
  }

  /** A price breaks even at the probability that pays it and its fee, or both
      fees if the position is to be sold again. */
  lemma BreakevenIs(price: real, maker: bool)
    ensures Edge(price + Fee(price, 1.0, maker), price, maker, false) == 0.0
    ensures Edge(price + Fee(price, 1.0, maker) + Fee(price, 1.0, maker), price, maker, true) == 0.0
  {
    hide Fee;
  }

  /** The stake is the fraction of the edge over what can be won; with a cost
      inside (0, 1) it is positive exactly when the edge is, and for a
      probability no stake exceeds the fraction. */
  lemma KellyFollowsEdge(probability: real, price: real, fraction: real, maker: bool)
    requires fraction > 0.0
    ensures var cost := Breakeven(price, maker, false);
            var e := Edge(probability, price, maker, false);
            var stake := Kelly(probability, price, fraction, maker);
            && stake >= 0.0
            && (0.0 < cost < 1.0 ==> (stake > 0.0 <==> e > 0.0))
            && (0.0 < cost < 1.0 && e > 0.0 ==> stake * (1.0 - cost) == fraction * e)
            && (probability <= 1.0 ==> stake <= fraction)
            && (!(0.0 < cost < 1.0) ==> stake == 0.0)
  {
    hide Fee;
    var cost := Breakeven(price, maker, false);
    if 0.0 < cost < 1.0 { Stake(probability, cost, fraction); }
  }

  lemma Stake(probability: real, cost: real, fraction: real)
    requires 0.0 < cost < 1.0 && fraction > 0.0
    ensures var e, win := probability - cost, 1.0 - cost;
            var full := (probability * win - (1.0 - probability) * cost) / win;
            && (full * fraction > 0.0 <==> e > 0.0)
            && (full * fraction) * win == fraction * e
            && (probability <= 1.0 ==> full * fraction <= fraction)
  {
    var e, win := probability - cost, 1.0 - cost;
    var top := probability * win - (1.0 - probability) * cost;
    assert top == e;
    var full := top / win;
    assert full * win == e;
    Scale(0.0, full, win);
    Scale(1.0, full, win);
    Scale(0.0, full, fraction);
    Scale(1.0, full, fraction);
    Swap(full, fraction, win);
    Swap(fraction, full, win);
  }
}
