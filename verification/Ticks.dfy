/**
 The price step of the spread strategy: built as a text, read as a float of very few bits, and
 still exactly one tick whenever a price plus the step is printed.
 */
module Ticks {
  import opened Decimals

  /** The step as cmd/spread.go writes it: the printed zero up to its last decimal, then a one. */
  function StepText(scale: nat): string {
    var zero := Print(0, scale);
    Fits(scale);
    zero[0..scale + 1] + "1"
  }

  lemma Fits(scale: nat)
    ensures |Print(0, scale)| >= scale + 1
    ensures Whole(0, Pow10(scale)) == 0 && Digits(0) == "0"
  {}

  lemma {:induction false} ZerosPadded(k: nat)
    ensures AllDigits(Padded(0, k)) && Value(Padded(0, k)) == 0
    ensures k > 0 ==> Padded(0, k)[..k - 1] == Padded(0, k - 1)
  {
    if k > 0 {
      assert Padded(0, k)[..k - 1] == Padded(0, k - 1);
      ZerosPadded(k - 1);
    }
  }

  /** The step text denotes one unit of the last decimal. */
  lemma StepDenotesOneTick(scale: nat)
    ensures Parse(StepText(scale)) == Some(Decimal(1, scale))
  {
    hide Parse, Padded, Value;
    Fits(scale);
    DigitsRead(0);
    if scale == 0 {
      assert StepText(0) == "0" + "1";
      ParseWhole("0" + "1");
      ValueOfOne("0");
    } else {
      ZerosPadded(scale - 1);
      ZerosPadded(scale);
      var b := Padded(0, scale - 1) + "1";
      assert AllDigits(b);
      assert StepText(scale) == "0" + "." + b;
      ParseParts("0", b);
      ValueOfOne(Padded(0, scale - 1));
    }
  }

  lemma ValueOfOne(zeros: string)
    requires AllDigits(zeros) && Value(zeros) == 0
    ensures AllDigits(zeros + "1") && Value(zeros + "1") == 1
  {
    assert (zeros + "1")[..|zeros|] == zeros;
  }

  function Pow2(k: nat): (p: nat)
    ensures p > 0
  {
    if k == 0 then 1 else 2 * Pow2(k - 1)
  }

  /** The step rounded to `scale` bits is mantissa / 2^e, where e gives the mantissa its bits. */
  function StepMantissa(scale: nat, e: nat): nat {
    RoundedRatio(Pow2(e), Pow10(scale))
  }

  predicate BinaryExponent(scale: nat, e: nat) {
    scale > 0 && Pow2(scale - 1) * Pow10(scale) <= Pow2(e) < Pow2(scale) * Pow10(scale)
  }

  /** `n` ticks plus the rounded step, printed at the pair's scale. */
  function NextPrice(n: nat, scale: nat, e: nat): string {
    Print(RoundedRatio(n * Pow2(e) + StepMantissa(scale, e) * Pow10(scale), Pow2(e)), scale)
  }

  /** Only 1/8 is the one-bit value nearest to 1/10. */
  lemma OneBit(e: nat)
    requires BinaryExponent(1, e)
    ensures e == 4 && StepMantissa(1, e) == 2
  {
    assert Pow10(1) == 10 && Pow2(0) == 1 && Pow2(1) == 2 && Pow2(3) == 8 && Pow2(4) == 16 && Pow2(5) == 32;
    if e <= 3 { Pow2Monotone(e, 3); } else if e >= 5 { Pow2Monotone(5, e); }
  }

  lemma {:induction false} Pow2Monotone(i: nat, j: nat)
    requires i <= j
    ensures Pow2(i) <= Pow2(j)
    decreases j
  {
    if i < j { Pow2Monotone(i, j - 1); }
  }

  /** The step misses its tick by less than half a tick. */
  lemma StepNearTick(scale: nat, e: nat)
    requires BinaryExponent(scale, e)
    ensures var (near, tick) := (StepMantissa(scale, e) * Pow10(scale), Pow2(e)); tick < 2 * near < 3 * tick
  {
    if scale == 1 {
      OneBit(e);
      assert Pow10(1) == 10 && Pow2(4) == 16;
    } else {
      Pow2Monotone(1, scale - 1);
      MultipleAtLeast2(Pow2(scale - 1), Pow10(scale));
    }
  }

  lemma MultipleAtLeast2(k: nat, p: nat)
    requires k >= 2
    ensures k * p >= 2 * p
  {
    assert k * p == 2 * p + (k - 2) * p;
  }

  lemma NearestIs(top: nat, d: nat, q: nat)
    requires d > 0 && 2 * (q * d) - d < 2 * top < 2 * (q * d) + d
    ensures RoundedRatio(top, d) == q
  {
    hide RoundedRatio;
    var r := RoundedRatio(top, d);
    assert r * d - q * d == d * (r - q);
    SmallMultiple(d, r - q);
  }

  /** A price of n ticks plus the step prints as n + 1 ticks, however few bits the step has. */
  lemma StepPrintsNextTick(n: nat, scale: nat, e: nat)
    requires BinaryExponent(scale, e)
    ensures NextPrice(n, scale, e) == Print(n + 1, scale)
  {
    hide Pow2, Pow10, Print;
    StepNearTick(scale, e);
    var d := Pow2(e);
    assert (n + 1) * d == n * d + d;
    NearestIs(n * d + StepMantissa(scale, e) * Pow10(scale), d, n + 1);
  }

  /** Every scale has such an exponent. */
  lemma ExponentExists(scale: nat) returns (e: nat)
    requires scale > 0
    ensures BinaryExponent(scale, e)
  {
    var least := Pow2(scale - 1) * Pow10(scale);
    Above(least);
    e := least;
    while e > 0 && Pow2(e - 1) >= least
      invariant Pow2(e) >= least
    {
      e := e - 1;
    }
    MultipleAtLeast(Pow10(scale), Pow2(scale - 1));
    Doubled(Pow2(scale - 1), Pow10(scale));
  }

  lemma Doubled(k: nat, p: nat)
    ensures 2 * k * p == 2 * (k * p)
  {}

  lemma {:induction false} Above(n: nat)
    ensures Pow2(n) > n
  {
    if n > 0 { Above(n - 1); }
  }

  /** A price of n ticks minus the step prints as n - 1 ticks. */
  lemma StepPrintsPreviousTick(n: nat, scale: nat, e: nat)
    requires BinaryExponent(scale, e) && n >= 2
    ensures n * Pow2(e) >= StepMantissa(scale, e) * Pow10(scale)
    ensures Print(RoundedRatio(n * Pow2(e) - StepMantissa(scale, e) * Pow10(scale), Pow2(e)), scale) == Print(n - 1, scale)
  {
    hide Pow2, Pow10, Print;
    StepNearTick(scale, e);
    var d := Pow2(e);
    assert (n - 1) * d == n * d - d;
    MultipleAtLeast2(n, d);
    NearestIs(n * d - StepMantissa(scale, e) * Pow10(scale), d, n - 1);
  }
}
