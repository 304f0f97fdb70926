/** refund_math.py: the only place a refund figure is computed. */
module RefundMath {
  import opened Wrappers

  /** The nearest integer, ties to the even one. */
  function RoundHalfEven(x: real): int {
    var f := x.Floor;
    var d := x - f as real;
    if d < 0.5 || (d == 0.5 && f % 2 == 0) then f else f + 1
  }

  /** Rounding to two decimal places, Python's `round(x, 2)` on an exact value. */
  function Round2(x: real): real {
    RoundHalfEven(100.0 * x) as real / 100.0
  }

  /** The cancellation fee a penalty percentage takes from an amount. */
  function Fee(original: real, pct: real): real {
    original * (pct / 100.0)
  }

  /** What is left of an amount, as the merchants write it. */
  function NetOfPenalty(original: real, pct: real): real {
    original * (1.0 - pct / 100.0)
  }

  function PenaltyOf(penalty: Option<real>): real {
    if penalty.Some? then penalty.value else 0.0
  }

  function ComputeRefund(original: real, penalty: Option<real>, refundable: bool): Option<real> {
    if !refundable then None
    else
      Some(Round2(original - Fee(original, PenaltyOf(penalty))))
  }

  /** What the policy asks for before any rounding. */
  function ExactRefund(original: real, penalty: Option<real>): real {
    NetOfPenalty(original, PenaltyOf(penalty))
  }

  /** `n` is within one half of `x`, and is even when it is exactly one half away. */
  ghost predicate IsHalfEven(x: real, n: int) {
    var e := x - n as real;
    -0.5 <= e <= 0.5 && ((e == 0.5 || e == -0.5) ==> n % 2 == 0)
  }

  lemma HalfEvenAtMostOne(x: real, m: int, n: int)
    requires IsHalfEven(x, m) && IsHalfEven(x, n)
    ensures m == n
  {
    assert -1.0 <= n as real - m as real <= 1.0;
    assert -1 <= n - m <= 1;
  }

  /** The rounding is the one integer the half-even rule allows. */
  lemma RoundHalfEvenIsUnique(x: real, n: int)
    ensures RoundHalfEven(x) == n <==> IsHalfEven(x, n)
  {
    assert IsHalfEven(x, RoundHalfEven(x));
    if IsHalfEven(x, n) {
      HalfEvenAtMostOne(x, n, RoundHalfEven(x));
    }
  }

  lemma RoundHalfEvenMonotone(x: real, y: real)
    requires x <= y
    ensures RoundHalfEven(x) <= RoundHalfEven(y)
  {
    assert x.Floor <= y.Floor;
  }

  lemma RoundHalfEvenFixesIntegers(n: int)
    ensures RoundHalfEven(n as real) == n
  {
    assert (n as real).Floor == n;
  }

  /** Rounding to paise moves a value by at most half a paisa. */
  lemma Round2HalfPaisa(x: real)
    ensures -0.005 <= Round2(x) - x <= 0.005
  {
    RoundHalfEvenIsUnique(100.0 * x, RoundHalfEven(100.0 * x));
  }

  /** The saga's subtraction and the merchants' product are the same figure. */
  lemma FeeComplement(original: real, pct: real)
    ensures original - Fee(original, pct) == NetOfPenalty(original, pct)
  {
    var q := pct / 100.0;
    assert original * (1.0 - q) == original - original * q;
  }

  lemma PaiseDecide(m: int, n: int)
    ensures m as real / 100.0 == n as real / 100.0 <==> m == n
  {}

  /**
   The refund, by the policy: none unless it is refundable; else the charge less its penalty
   (none counts as zero), in whole paise by the half-even rule.
   */
  lemma ComputedRefundIff(original: real, penalty: Option<real>, refundable: bool, paise: int)
    ensures !refundable <==> ComputeRefund(original, penalty, refundable).None?
    ensures var pct := if penalty.Some? then penalty.value else 0.0;
      ComputeRefund(original, penalty, refundable) == Some(paise as real / 100.0) <==>
        refundable && IsHalfEven(100.0 * (original - original * (pct / 100.0)), paise)
  {
    hide RoundHalfEven, IsHalfEven;
    var pct := if penalty.Some? then penalty.value else 0.0;
    var x := 100.0 * (original - original * (pct / 100.0));
    FeeIs(original, pct);
    assert PenaltyOf(penalty) == pct;
    assert refundable ==> ComputeRefund(original, penalty, refundable) == Some(RoundHalfEven(x) as real / 100.0);
    RoundHalfEvenIsUnique(x, paise);
    PaiseDecide(RoundHalfEven(x), paise);
  }

  lemma FeeIs(original: real, pct: real)
    ensures Fee(original, pct) == original * (pct / 100.0)
  {}

  lemma ComputedRefundHalfPaisa(original: real, penalty: Option<real>)
    ensures ComputeRefund(original, penalty, true).Some?
    ensures -0.005 <= ComputeRefund(original, penalty, true).value - ExactRefund(original, penalty) <= 0.005
  {
    FeeComplement(original, PenaltyOf(penalty));
    Round2HalfPaisa(ExactRefund(original, penalty));
  }

  lemma FeeMonotone(original: real, p: real, q: real)
    requires 0.0 <= original && p <= q
    ensures Fee(original, p) <= Fee(original, q)
  {
    ScaleMonotone(original, p / 100.0, q / 100.0);
  }

  lemma ScaleMonotone(a: real, x: real, y: real)
    requires 0.0 <= a && x <= y
    ensures a * x <= a * y
  {
    assert 0.0 <= a * (y - x) == a * y - a * x;
  }

  lemma Round2Monotone(x: real, y: real)
    requires x <= y
    ensures Round2(x) <= Round2(y)
  {
    RoundHalfEvenMonotone(100.0 * x, 100.0 * y);
  }

  lemma Round2FixesWholePaise(paise: int)
    ensures Round2(paise as real / 100.0) == paise as real / 100.0
  {
    RoundHalfEvenFixesIntegers(paise);
  }

  /**
   For an amount in whole paise and a penalty of 0 to 100 percent the refund is
   never negative and never more than was charged.
   */
  lemma RefundWithinOriginal(paise: nat, penalty: Option<real>)
    requires penalty.Some? ==> 0.0 <= penalty.value <= 100.0
    ensures var original := paise as real / 100.0;
      0.0 <= ComputeRefund(original, penalty, true).value <= original
  {
    var original := paise as real / 100.0;
    var pct := PenaltyOf(penalty);
    FeeMonotone(original, 0.0, pct);
    FeeMonotone(original, pct, 100.0);
    assert Fee(original, 0.0) == 0.0 && Fee(original, 100.0) == original;
    Round2FixesWholePaise(0);
    Round2FixesWholePaise(paise);
    Round2Monotone(0.0, original - Fee(original, pct));
    Round2Monotone(original - Fee(original, pct), original);
  }

  /** A larger penalty never refunds more. */
  lemma RefundAntitoneInPenalty(original: real, p: real, q: real)
    requires 0.0 <= original && p <= q
    ensures ComputeRefund(original, Some(q), true).value <= ComputeRefund(original, Some(p), true).value
  {
    FeeMonotone(original, p, q);
    Round2Monotone(original - Fee(original, q), original - Fee(original, p));
  }

  /** Two values less than a paisa apart round to values at most a paisa apart. */
  lemma CloseValuesRoundClose(u: real, v: real)
    requires -0.01 < u - v < 0.01
    ensures -0.01 <= Round2(u) - Round2(v) <= 0.01
  {
    var m, n := RoundHalfEven(100.0 * u), RoundHalfEven(100.0 * v);
    RoundHalfEvenIsUnique(100.0 * u, m);
    RoundHalfEvenIsUnique(100.0 * v, n);
    assert -2.0 < m as real - n as real < 2.0;
    assert -1 <= m - n <= 1;
  }

  /** Two values at least two paise apart never round to values within a paisa: the even rule breaks the last tie. */
  lemma TwoPaiseStayApart(u: real, v: real)
    requires u - v >= 0.02
    ensures Round2(u) - Round2(v) > 0.01
  {
    var m, n := RoundHalfEven(100.0 * u), RoundHalfEven(100.0 * v);
    RoundHalfEvenIsUnique(100.0 * u, m);
    RoundHalfEvenIsUnique(100.0 * v, n);
    hide RoundHalfEven;
    var up, down := 100.0 * u - m as real, 100.0 * v - n as real;
    assert m as real - n as real >= 2.0 - (up - down) >= 1.0;
    assert up - down == 1.0 ==> m % 2 == 0 && n % 2 == 0;
    assert m - n >= 2;
  }

  /** The bound is sharp: exactly a paisa apart, half-even rounding can open a gap of two paise. */
  lemma PaisaApartCanRoundTwoApart()
    ensures Round2(0.015) - Round2(0.005) == 0.02
  {
    RoundHalfEvenIsUnique(1.5, 2);
    RoundHalfEvenIsUnique(0.5, 0);
  }
}
