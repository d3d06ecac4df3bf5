/**
 Plain decimal texts: what a big.Float prints with a fixed number of decimals and what it reads
 back. A text denotes a mantissa and a number of decimals; a price at a pair's scale is then a
 whole number of ticks.
 */
module Decimals {

  datatype Option<T> = None | Some(value: T)

  /** The number mantissa / 10^scale. */
  datatype Decimal = Decimal(mantissa: nat, scale: nat)

  function Pow10(k: nat): (p: nat)
    ensures p > 0
  {
    if k == 0 then 1 else 10 * Pow10(k - 1)
  }

  predicate IsDigit(c: char) { '0' <= c <= '9' }

  predicate AllDigits(s: string) { forall i | 0 <= i < |s| :: IsDigit(s[i]) }

  function Digit(n: nat): (c: char)
    requires n < 10
    ensures IsDigit(c) && c as int - '0' as int == n
  {
    ('0' as int + n) as char
  }

  function Value(s: string): nat
    requires AllDigits(s)
  {
    if s == "" then 0 else 10 * Value(s[..|s| - 1]) + (s[|s| - 1] as int - '0' as int)
  }

  function Digits(n: nat): (s: string)
    ensures s != "" && AllDigits(s)
  {
    if n < 10 then [Digit(n)] else Digits(n / 10) + [Digit(n % 10)]
  }

  /** The last k digits of n, with leading zeros. */
  function Padded(n: nat, k: nat): (s: string)
    ensures |s| == k && AllDigits(s)
  {
    if k == 0 then "" else Padded(n / 10, k - 1) + [Digit(n % 10)]
  }

  lemma {:induction false} DigitsRead(n: nat)
    ensures Value(Digits(n)) == n
  {
    if n >= 10 {
      var s := Digits(n);
      assert s[..|s| - 1] == Digits(n / 10);
      DigitsRead(n / 10);
    }
  }

  lemma ModPow(n: nat, k: nat)
    requires k > 0
    ensures n % Pow10(k) == 10 * ((n / 10) % Pow10(k - 1)) + n % 10
  {
    var (p, q) := (Pow10(k - 1), (n / 10) / Pow10(k - 1));
    var r := 10 * ((n / 10) % p) + n % 10;
    assert n / 10 == q * p + (n / 10) % p;
    assert n == 10 * (n / 10) + n % 10 == Pow10(k) * q + r;
    assert r < 10 * p;
    Remainder(n, Pow10(k), q, r);
  }

  lemma Remainder(n: nat, d: nat, q: nat, r: nat)
    requires n == d * q + r && r < d
    ensures n / d == q && n % d == r
  {
    var (q', r') := (n / d, n % d);
    assert n == d * q' + r';
    assert d * q' - d * q == d * (q' - q);
    SmallMultiple(d, q' - q);
  }

  lemma MultipleAtLeast(d: int, k: int)
    requires d >= 0 && k >= 1
    ensures d * k >= d
  {
    assert d * k == d * (k - 1) + d;
  }

  lemma SmallMultiple(d: int, k: int)
    requires d > 0 && -d < d * k < d
    ensures k == 0
  {
    if k >= 1 {
      MultipleAtLeast(d, k);
    } else if k <= -1 {
      MultipleAtLeast(d, -k);
    }
  }

  lemma {:induction false} PaddedRead(n: nat, k: nat)
    ensures Value(Padded(n, k)) == n % Pow10(k)
  {
    if k > 0 {
      var s := Padded(n, k);
      assert s[..|s| - 1] == Padded(n / 10, k - 1);
      PaddedRead(n / 10, k - 1);
      ModPow(n, k);
    }
  }

  // ----- printing and reading -----

  /** Division of natural numbers, under a name of its own to keep the solver from unfolding it. */
  function Whole(n: nat, d: nat): nat
    requires d > 0
  {
    n / d
  }

  /** The text of n / 10^scale with exactly `scale` decimals. */
  function Print(n: nat, scale: nat): string {
    if scale == 0 then Digits(n) else Digits(Whole(n, Pow10(scale))) + "." + Padded(n, scale)
  }

  function DotAt(s: string): (i: nat)
    ensures i <= |s| && (forall j | 0 <= j < i :: s[j] != '.') && (i < |s| ==> s[i] == '.')
  {
    if s == "" || s[0] == '.' then 0 else 1 + DotAt(s[1..])
  }

  /** Reads digits with at most one dot among them. */
  function Parse(s: string): Option<Decimal> {
    var i := DotAt(s);
    var (whole, rest) := (s[..i], if i < |s| then s[i + 1..] else "");
    if whole + rest == "" || !AllDigits(whole + rest) then None
    else Some(Decimal(Value(whole + rest), |rest|))
  }

  lemma {:induction false} ValueAppend(a: string, b: string)
    requires AllDigits(a) && AllDigits(b)
    ensures AllDigits(a + b) && Value(a + b) == Value(a) * Pow10(|b|) + Value(b)
  {
    if b == "" {
      assert a + b == a;
    } else {
      var b' := b[..|b| - 1];
      assert (a + b)[..|a + b| - 1] == a + b';
      ValueAppend(a, b');
      PowNext(Value(a), |b'|);
      hide Pow10;
    }
  }

  lemma DotIsAt(s: string, i: nat)
    requires i <= |s| && AllDigits(s[..i]) && (i < |s| ==> s[i] == '.')
    ensures DotAt(s) == i
  {
    assert forall j | 0 <= j < i :: s[j] == s[..i][j];
  }

  lemma ParseParts(a: string, b: string)
    requires AllDigits(a) && AllDigits(b) && a != ""
    ensures Parse(a + "." + b) == Some(Decimal(Value(a) * Pow10(|b|) + Value(b), |b|))
  {
    hide Value, Pow10;
    var s := a + "." + b;
    assert s[..|a|] == a && s[|a| + 1..] == b;
    DotIsAt(s, |a|);
    assert DotAt(s) == |a|;
    ValueAppend(a, b);
  }

  lemma ParseWhole(a: string)
    requires AllDigits(a) && a != ""
    ensures Parse(a) == Some(Decimal(Value(a), 0))
  {
    assert a[..|a|] == a && a + "" == a;
    DotIsAt(a, |a|);
  }

  /** Reading a printed number gives the number back, decimals and all. */
  lemma ParsePrint(n: nat, scale: nat)
    ensures Parse(Print(n, scale)) == Some(Decimal(n, scale))
  {
    hide Parse, Value, Digits, Padded, Pow10;
    DigitsRead(if scale == 0 then n else Whole(n, Pow10(scale)));
    if scale == 0 {
      ParseWhole(Digits(n));
    } else {
      ParseParts(Digits(Whole(n, Pow10(scale))), Padded(n, scale));
      PaddedRead(n, scale);
      assert n == n / Pow10(scale) * Pow10(scale) + n % Pow10(scale);
    }
  }

  /** Different numbers of ticks print differently. */
  lemma PrintInjective(m: nat, n: nat, scale: nat)
    requires Print(m, scale) == Print(n, scale)
    ensures m == n
  {
    ParsePrint(m, scale);
    ParsePrint(n, scale);
  }

  // ----- rounding to a scale -----

  /** n / d to the nearest integer, ties to even. */
  function RoundedRatio(n: nat, d: nat): (q: nat)
    requires d > 0
    ensures 2 * n - d <= 2 * (q * d) <= 2 * n + d
  {
    assert n == n / d * d + n % d;
    assert (n / d + 1) * d == n / d * d + d;
    if 2 * (n % d) < d || (2 * (n % d) == d && n / d % 2 == 0) then n / d else n / d + 1
  }

  /** The nearest number of units 10^-scale. */
  function Rounded(a: Decimal, scale: nat): nat {
    if a.scale <= scale then a.mantissa * Pow10(scale - a.scale)
    else RoundedRatio(a.mantissa, Pow10(a.scale - scale))
  }

  function Text(a: Decimal, scale: nat): string { Print(Rounded(a, scale), scale) }

  /** A printed number is read back and printed again as the same text. */
  lemma TextIsStable(a: Decimal, scale: nat)
    ensures Parse(Text(a, scale)).Some?
    ensures Rounded(Parse(Text(a, scale)).value, scale) == Rounded(a, scale)
    ensures Text(Parse(Text(a, scale)).value, scale) == Text(a, scale)
  {
    ParsePrint(Rounded(a, scale), scale);
    assert Pow10(0) == 1;
  }

  // ----- the amount of an arbitrage order -----

  /** The parts of a text between its dots. */
  function SplitDots(s: string): (parts: seq<string>)
    ensures |parts| > 0
    decreases |s|
  {
    var i := DotAt(s);
    if i == |s| then [s] else [s[..i]] + SplitDots(s[i + 1..])
  }

  /** One decimal more than the pair allows is printed, and then cut off. */
  method PrepareAmount(a: Decimal, quantityScale: nat) returns (resultAmount: string)
    ensures resultAmount == Print(Rounded(a, quantityScale + 1) / 10, quantityScale)
  {
    var amountStr := Text(a, quantityScale + 1);
    var amountArr := SplitDots(amountStr);
    resultAmount := amountArr[0];
    SplitPrinted(Rounded(a, quantityScale + 1), quantityScale + 1);
    CutDigit(Rounded(a, quantityScale + 1), quantityScale);
    if |amountArr| == 2 && quantityScale != 0 {
      resultAmount := resultAmount + "." + amountArr[1][0..quantityScale];
    }
  }

  lemma SplitPrinted(n: nat, scale: nat)
    requires scale > 0
    ensures SplitDots(Print(n, scale)) == [Digits(Whole(n, Pow10(scale))), Padded(n, scale)]
  {
    var s := Print(n, scale);
    var (a, b) := (Digits(Whole(n, Pow10(scale))), Padded(n, scale));
    assert s[..|a|] == a && s[|a| + 1..] == b;
    DotIsAt(s, |a|);
    assert b[..|b|] == b;
    DotIsAt(b, |b|);
  }

  lemma {:induction false} DivPow(n: nat, k: nat)
    ensures n / Pow10(k + 1) == n / 10 / Pow10(k)
  {
    var (p, q) := (Pow10(k), n / 10 / Pow10(k));
    var r := n / 10 % p;
    assert n / 10 == p * q + r;
    assert n == 10 * (n / 10) + n % 10;
    assert n == Pow10(k + 1) * q + (10 * r + n % 10);
    Remainder(n, Pow10(k + 1), q, 10 * r + n % 10);
  }

  lemma CutDigit(n: nat, scale: nat)
    ensures Padded(n, scale + 1)[0..scale] == Padded(n / 10, scale)
    ensures n / Pow10(scale + 1) == n / 10 / Pow10(scale)
    ensures Pow10(0) == 1
  {
    DivPow(n, scale);
  }

  lemma RoundedExact(a: Decimal, q: nat)
    requires a.scale <= q + 1
    ensures Rounded(a, q + 1) * Pow10(a.scale) == a.mantissa * Pow10(q + 1)
  {
    PowAdd(q + 1 - a.scale, a.scale);
    Regroup(a.mantissa, Pow10(q + 1 - a.scale), Pow10(a.scale));
  }

  lemma RoundedNear(a: Decimal, q: nat)
    requires a.scale > q + 1
    ensures var (n, top, unit) := (Rounded(a, q + 1), a.mantissa * Pow10(q + 1), Pow10(a.scale));
            2 * top - unit <= 2 * (n * unit) <= 2 * top + unit
  {
    hide Pow10;
    var d := Pow10(a.scale - (q + 1));
    PowAdd(a.scale - (q + 1), q + 1);
    RatioScaled(a.mantissa, d, Rounded(a, q + 1), Pow10(q + 1));
  }

  lemma PowNext(m: nat, q: nat)
    ensures m * Pow10(q + 1) == 10 * (m * Pow10(q))
  {
    Regroup(m, 10, Pow10(q));
  }

  /** The number before the cut is within half of its last digit; exact when nothing is rounded. */
  lemma RoundedToOneMore(a: Decimal, q: nat)
    ensures var (n, exact, unit) := (Rounded(a, q + 1), a.mantissa * Pow10(q), Pow10(a.scale));
            && 20 * exact - unit <= 2 * (n * unit) <= 20 * exact + unit
            && (a.scale <= q + 1 ==> n * unit == 10 * exact)
  {
    hide Rounded, Pow10;
    PowNext(a.mantissa, q);
    if a.scale <= q + 1 { RoundedExact(a, q); } else { RoundedNear(a, q); }
  }

  lemma RatioScaled(m: nat, d: nat, n: nat, p: nat)
    requires 2 * m - d <= 2 * (n * d) <= 2 * m + d
    ensures 2 * (m * p) - d * p <= 2 * (n * (d * p)) <= 2 * (m * p) + d * p
  {
    ScaleUp(2 * m, d, 2 * (n * d), p);
    Regroup(n, d, p);
    Regroup(m, 1, p);
    assert 2 * m * p == 2 * (m * p);
  }

  lemma Regroup(n: nat, d: nat, p: nat)
    ensures n * d * p == n * (d * p) == d * (n * p)
    ensures 2 * (n * d) * p == 2 * (n * (d * p))
  {
    assert n * d * p == n * (d * p);
  }

  /** The prepared amount, in units of the quantity scale: between a - 0.95 and a + 0.05 units, and
      the plain truncation of an amount with at most one decimal too many. All numbers are
      multiplied by 20 * 10^a.scale, so that they are integers. */
  lemma PreparedAmount(a: Decimal, quantityScale: nat)
    ensures var units := Rounded(a, quantityScale + 1) / 10;
            var (exact, unit) := (a.mantissa * Pow10(quantityScale), Pow10(a.scale));
            && 20 * exact - 19 * unit <= 20 * (units * unit) <= 20 * exact + unit
            && (a.scale <= quantityScale + 1 ==> units == exact / unit)
  {
    hide Rounded, Pow10;
    var n := Rounded(a, quantityScale + 1);
    var units := n / 10;
    var (exact, unit) := (a.mantissa * Pow10(quantityScale), Pow10(a.scale));
    RoundedToOneMore(a, quantityScale);
    assert n * unit == 10 * (units * unit) + (n % 10) * unit by { assert n == 10 * units + n % 10; }
    TimesAtMost(n % 10, unit);
    if a.scale <= quantityScale + 1 {
      Remainder(exact, unit, units, exact - unit * units);
    }
  }

  lemma TimesAtMost(k: nat, unit: nat)
    requires k <= 9 && unit > 0
    ensures 0 <= k * unit <= 9 * unit
  {}

  lemma ScaleUp(x: int, d: int, y: int, p: nat)
    requires x - d <= y <= x + d
    ensures x * p - d * p <= y * p <= x * p + d * p
  {
    assert (x - d) * p <= y * p <= (x + d) * p;
  }

  lemma {:induction false} PowAdd(i: nat, j: nat)
    ensures Pow10(i) * Pow10(j) == Pow10(i + j)
  {
    if i > 0 {
      PowAdd(i - 1, j);
      Regroup(Pow10(j), 10, Pow10(i - 1));
    }
  }
}
