/** Odds and probabilities (`topics/kalshi/tools/_implied.py`), on exact reals. */
module Implied {
  import opened Prelude
  import opened Reals

  function AmericanToProb(odds: real): real {
    if odds < 0.0 then -odds / (-odds + 100.0) else 100.0 / (odds + 100.0)
  }

  /** `ValueError` outside the open interval. */
  function ProbToAmerican(prob: real): Result<real, ()> {
    if !(0.0 < prob < 1.0) then Err(())
    else if prob > 0.5 then Ok(-(prob * 100.0) / (1.0 - prob))
    else Ok(100.0 * (1.0 - prob) / prob)
  }

  /** Odds say what a hundred wins, or what wins a hundred: a stake at the fair
      price of the implied probability has no expectation. */
  lemma OddsAreFair(odds: real)
    ensures var p := AmericanToProb(odds);
            && (odds < 0.0 ==> p * 100.0 == (1.0 - p) * -odds)
            && (odds >= 0.0 ==> p * odds == (1.0 - p) * 100.0)
  {
    var p := AmericanToProb(odds);
    if odds < 0.0 {
      assert p * (-odds + 100.0) == -odds;
    } else {
      assert p * (odds + 100.0) == 100.0;
    }
  }

  /** Probability to odds and back is the identity on (0, 1). */
  lemma ProbRoundTrip(prob: real)
    requires 0.0 < prob < 1.0
    ensures ProbToAmerican(prob).Ok? && AmericanToProb(ProbToAmerican(prob).value) == prob
  {
    var odds := ProbToAmerican(prob).value;
    if prob > 0.5 {
      var rest := 1.0 - prob;
      assert odds * rest == -(prob * 100.0);
      SignOf(odds, rest, -(prob * 100.0));
      assert prob * (-odds + 100.0) == -odds by {
        assert (prob * (-odds + 100.0) + odds) * rest == 0.0;
      }
      Quotient(-odds, -odds + 100.0, prob);
    } else {
      assert odds * prob == 100.0 * (1.0 - prob);
      SignOf(odds, prob, 100.0 * (1.0 - prob));
      assert prob * (odds + 100.0) == 100.0;
      Quotient(100.0, odds + 100.0, prob);
    }
  }

  lemma SignOf(x: real, y: real, product: real)
    requires y > 0.0 && x * y == product
    ensures x < 0.0 <==> product < 0.0
  {
    ScaleTo(x, 0.0, y, product, 0.0);
  }

  /** Odds to probability and back is the identity exactly on odds as a book
      quotes them: below -100, or 100 and more. */
  lemma OddsRoundTrip(odds: real)
    ensures ProbToAmerican(AmericanToProb(odds)) == Ok(odds) <==> odds < -100.0 || odds >= 100.0
  {
    var p := AmericanToProb(odds);
    if odds < 0.0 {
      var d := -odds + 100.0;
      assert p * d == -odds;
      HalfLine(p, d, -odds);
      if odds < -100.0 {
        assert (1.0 - p) * d == 100.0;
        assert odds * (1.0 - p) == -(p * 100.0) by { assert (odds * (1.0 - p) + p * 100.0) * d == 0.0; }
        Quotient(-(p * 100.0), 1.0 - p, odds);
      } else {
        var back := 100.0 * (1.0 - p) / p;
        assert back * p == 100.0 * (1.0 - p);
        SignOf(back, p, 100.0 * (1.0 - p));
      }
    } else {
      var d := odds + 100.0;
      assert p * d == 100.0;
      HalfLine(p, d, 100.0);
      if odds >= 100.0 {
        assert odds * p == 100.0 * (1.0 - p);
        Quotient(100.0 * (1.0 - p), p, odds);
      } else if odds > 0.0 {
        var back := -(p * 100.0) / (1.0 - p);
        assert back * (1.0 - p) == -(p * 100.0);
        SignOf(back, 1.0 - p, -(p * 100.0));
      }
    }
  }

  /** Where a share of a positive whole lies. */
  lemma HalfLine(p: real, whole: real, part: real)
    requires whole > 0.0 && p * whole == part
    ensures p > 0.0 <==> part > 0.0
    ensures p < 1.0 <==> part < whole
    ensures p > 0.5 <==> part > 0.5 * whole
  {
    ScaleTo(0.0, p, whole, 0.0, part);
    ScaleTo(p, 1.0, whole, part, whole);
    ScaleTo(0.5, p, whole, 0.5 * whole, part);
  }

  // ---- removing the margin ----

  function Overround(probs: seq<real>): real {
    Sum(probs) - 1.0
  }

  function Divided(probs: seq<real>, total: real): (r: seq<real>)
    requires total != 0.0
    ensures |r| == |probs|
  {
    seq(|probs|, i requires 0 <= i < |probs| => probs[i] / total)
  }

  function Proportional(probs: seq<real>): (r: seq<real>)
    ensures |r| == |probs|
  {
    var total := Sum(probs);
    if total <= 0.0 then seq(|probs|, _ => 0.0) else Divided(probs, total)
  }

  lemma {:induction false} DividedSum(probs: seq<real>, total: real)
    requires total != 0.0
    ensures Sum(Divided(probs, total)) == Sum(probs) / total
  {
    if probs != [] {
      var init := probs[..|probs| - 1];
      DividedSum(init, total);
      assert Divided(probs, total)[..|probs| - 1] == Divided(init, total);
    }
  }

  /** A set that sums to nothing has nothing to divide. */
  lemma NothingIsNothing(probs: seq<real>)
    requires Sum(probs) <= 0.0
    ensures Proportional(probs) == seq(|probs|, _ => 0.0)
  {
  }

  /** With any margin to remove, or any to add, the result sums to one and keeps
      the order of the outcomes and their ratios. */
  lemma ProportionalIsFair(probs: seq<real>)
    requires Sum(probs) > 0.0
    ensures Sum(Proportional(probs)) == 1.0 && Overround(Proportional(probs)) == 0.0
    ensures forall i, j :: 0 <= i < |probs| && 0 <= j < |probs| ==>
              && (probs[i] < probs[j] <==> Proportional(probs)[i] < Proportional(probs)[j])
              && probs[i] * Proportional(probs)[j] == probs[j] * Proportional(probs)[i]
  {
    hide Sum;
    var total := Sum(probs);
    DividedSum(probs, total);
    Quotient(total, total, 1.0);
    forall i, j | 0 <= i < |probs| && 0 <= j < |probs|
      ensures probs[i] < probs[j] <==> Proportional(probs)[i] < Proportional(probs)[j]
      ensures probs[i] * Proportional(probs)[j] == probs[j] * Proportional(probs)[i]
    {
      Shares(probs[i], probs[j], total);
    }
  }

  lemma Shares(x: real, y: real, total: real)
    requires total > 0.0
    ensures x < y <==> x / total < y / total
    ensures x * (y / total) == y * (x / total)
  {
    var a, b := x / total, y / total;
    assert a * total == x && b * total == y;
    Scale(a, b, total);
    Swap(a, total, b);
    Swap(b, total, a);
    Swap(a, b, total);
  }

  // ---- the power method ----

  /** What `sum(p ** k for p in probs)` is as a function of the exponent, no
      probability being above one. */
  ghost predicate Falling(s: real -> real) {
    forall a: real, b: real :: a <= b ==> s(a) >= s(b)
  }

  /** The exponent from which on the set sums to one or less. */
  ghost predicate Threshold(s: real -> real, t: real) {
    s(t) <= 1.0 && forall u: real :: u < t ==> s(u) > 1.0
  }

  /** Where the sum falls strictly, that is the exponent at which it is one. */
  lemma RootIsThreshold(s: real -> real, root: real)
    requires s(root) == 1.0 && forall a: real, b: real :: a < b ==> s(a) > s(b)
    ensures Threshold(s, root) && forall t :: Threshold(s, t) ==> t == root
  {
    forall t | Threshold(s, t) ensures t == root {
      assert t < root ==> s(t) > s(root);
      assert root < t ==> s(root) > 1.0;
    }
  }

  function TwoTo(n: nat): real {
    if n == 0 then 1.0 else 2.0 * TwoTo(n - 1)
  }

  lemma {:induction false} TwoToPositive(n: nat)
    ensures TwoTo(n) > 0.0
  {
    if n > 0 { TwoToPositive(n - 1); }
  }

  function Distance(a: real, b: real): real {
    if a >= b then a - b else b - a
  }

  /** Sixty halvings of [0.5, 3]. The exponent found is within 2.5 / 2^61 of the
      threshold; when that is not in the bracket, of the end on whose side it lies. */
  method PowerExponent(s: real -> real) returns (k: real)
    requires Falling(s)
    ensures 0.5 <= k <= 3.0
    ensures forall t :: 0.5 <= t <= 3.0 && Threshold(s, t) ==> Distance(k, t) * TwoTo(61) <= 2.5
    ensures s(3.0) > 1.0 ==> Distance(k, 3.0) * TwoTo(61) <= 2.5
    ensures s(0.5) <= 1.0 ==> Distance(k, 0.5) * TwoTo(61) <= 2.5
  {
    hide TwoTo, Falling, Threshold;
    var lo, hi := 0.5, 3.0;
    var i := 0;
    StartWidth();
    while i < 60
      invariant 0 <= i <= 60
      invariant (hi - lo) * TwoTo(i) == 2.5
      invariant Bracket(s, lo, hi)
    {
      k := (lo + hi) / 2.0;
      Halved(hi - lo, i);
      BracketHalves(s, lo, hi);
      if s(k) > 1.0 {
        lo := k;
      } else {
        hi := k;
      }
      i := i + 1;
    }
    k := (lo + hi) / 2.0;
    Halved(hi - lo, 60);
    forall t | 0.5 <= t <= 3.0 && Threshold(s, t)
      ensures Distance(k, t) * TwoTo(61) <= 2.5
    {
      ThresholdInBracket(s, lo, hi, t);
      Within(Distance(k, t), (hi - lo) / 2.0);
    }
    if s(3.0) > 1.0 { Within(Distance(k, 3.0), (hi - lo) / 2.0); }
    if s(0.5) <= 1.0 { Within(Distance(k, 0.5), (hi - lo) / 2.0); }
  }

  /** The sum is above one on the left and not above it on the right. */
  ghost predicate Bracket(s: real -> real, lo: real, hi: real) {
    && 0.5 <= lo < hi <= 3.0
    && (lo == 0.5 || s(lo) > 1.0)
    && (hi == 3.0 || s(hi) <= 1.0)
    && (s(3.0) > 1.0 ==> hi == 3.0)
    && (s(0.5) <= 1.0 ==> lo == 0.5)
  }

  lemma BracketHalves(s: real -> real, lo: real, hi: real)
    requires Falling(s) && Bracket(s, lo, hi)
    ensures var k := (lo + hi) / 2.0; if s(k) > 1.0 then Bracket(s, k, hi) else Bracket(s, lo, k)
  {
  }

  lemma ThresholdInBracket(s: real -> real, lo: real, hi: real, t: real)
    requires Falling(s) && Bracket(s, lo, hi)
    requires 0.5 <= t <= 3.0 && Threshold(s, t)
    ensures lo <= t <= hi
  {
    assert t <= lo ==> s(lo) <= s(t);
    assert hi < t ==> s(hi) > 1.0;
  }

  lemma StartWidth()
    ensures (3.0 - 0.5) * TwoTo(0) == 2.5
  {
  }

  lemma Halved(width: real, i: nat)
    ensures width / 2.0 * TwoTo(i + 1) == width * TwoTo(i)
  {
  }

  lemma Within(d: real, half: real)
    requires d <= half && half * TwoTo(61) == 2.5
    ensures d * TwoTo(61) <= 2.5
  {
    hide TwoTo;
    TwoToPositive(61);
    Scale(half, d, TwoTo(61));
  }

  /** `p ** k` for an exponent above zero, as far as the method relies on it. */
  ghost predicate Rising(pow: (real, real) -> real) {
    forall p: real, q: real, k: real :: 0.0 <= p < q && k > 0.0 ==> pow(p, k) < pow(q, k)
  }

  function Powers(probs: seq<real>, pow: (real, real) -> real, k: real): (r: seq<real>)
    ensures |r| == |probs|
  {
    seq(|probs|, i requires 0 <= i < |probs| => pow(probs[i], k))
  }

  function SumOfPowers(probs: seq<real>, pow: (real, real) -> real): real -> real {
    k => Sum(Powers(probs, pow, k))
  }

  /** The power method keeps the order of the outcomes, and its exponent is as
      close as that to the threshold. */
  method Power(probs: seq<real>, pow: (real, real) -> real) returns (fair: seq<real>, k: real)
    requires Falling(SumOfPowers(probs, pow)) && Rising(pow)
    requires forall i :: 0 <= i < |probs| ==> probs[i] >= 0.0
    ensures |fair| == |probs|
    ensures Sum(probs) <= 0.0 ==> forall i :: 0 <= i < |fair| ==> fair[i] == 0.0
    ensures Sum(probs) > 0.0 ==>
              && fair == Powers(probs, pow, k)
              && (forall i, j :: 0 <= i < |probs| && 0 <= j < |probs| && probs[i] < probs[j] ==> fair[i] < fair[j])
              && forall t :: 0.5 <= t <= 3.0 && Threshold(SumOfPowers(probs, pow), t) ==>
                   Distance(k, t) * TwoTo(61) <= 2.5
  {
    hide TwoTo, Falling, Sum, Threshold;
    if Sum(probs) <= 0.0 {
      return seq(|probs|, _ => 0.0), 0.0;
    }
    k := PowerExponent(SumOfPowers(probs, pow));
    fair := Powers(probs, pow, k);
  }
}
