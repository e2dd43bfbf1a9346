/** Rounding half away from zero, and the decimal printer and parser that undo each other. */
module Decimals {
  import opened Wrappers

  // ---------- digits ----------

  predicate IsDigit(c: char) {
    '0' <= c <= '9'
  }

  predicate AllDigits(s: string) {
    forall c :: c in s ==> IsDigit(c)
  }

  function DigitChar(d: nat): (c: char)
    requires d < 10
    ensures IsDigit(c)
  {
    '0' + d as char
  }

  function DigitValue(c: char): (d: nat)
    requires IsDigit(c)
    ensures d < 10
  {
    c as int - '0' as int
  }

  /** n with the decimal point moved k places to the right. */
  function Shifted(n: int, k: nat): int {
    if k == 0 then n else 10 * Shifted(n, k - 1)
  }

  function ShiftUp(x: real, k: nat): real {
    if k == 0 then x else 10.0 * ShiftUp(x, k - 1)
  }

  function ShiftDown(x: real, k: nat): real {
    if k == 0 then x else ShiftDown(x, k - 1) / 10.0
  }

  function Pow10(k: nat): (p: nat)
    ensures p >= 1
    ensures p == Shifted(1, k)
  {
    if k == 0 then 1 else 10 * Pow10(k - 1)
  }

  /** The number a digit string denotes. */
  function Number(s: string): nat
    requires AllDigits(s)
  {
    if s == [] then 0 else 10 * Number(s[..|s| - 1]) + DigitValue(s[|s| - 1])
  }

  /** utoa: the shortest digit string of n. */
  function NatString(n: nat): (s: string)
    ensures |s| > 0 && AllDigits(s)
  {
    if n < 10 then [DigitChar(n)] else NatString(n / 10) + [DigitChar(n % 10)]
  }

  function Zeros(n: nat): (s: string)
    ensures |s| == n && AllDigits(s)
  {
    if n == 0 then [] else ['0'] + Zeros(n - 1)
  }

  function ZeroPadded(digits: string, width: nat): (s: string)
    requires AllDigits(digits)
    ensures AllDigits(s)
  {
    if |digits| < width then Zeros(width - |digits|) + digits else digits
  }

  /** n as exactly width digits, given that it fits. */
  function Padded(n: nat, width: nat): (s: string)
    requires n < Pow10(width)
    ensures AllDigits(s)
  {
    ZeroPadded(NatString(n), width)
  }

  lemma {:induction false} NumberOfNatString(n: nat)
    ensures Number(NatString(n)) == n
  {
    if n < 10 {
      assert [DigitChar(n)][..0] == [];
    } else {
      NumberOfNatString(n / 10);
      assert NatString(n)[..|NatString(n)| - 1] == NatString(n / 10);
    }
  }

  lemma {:induction false} NumberOfZeros(n: nat, s: string)
    requires AllDigits(s)
    ensures Number(Zeros(n) + s) == Number(s)
    decreases n, |s|
  {
    if s == [] {
      assert Zeros(n) + s == Zeros(n);
      if n > 0 {
        assert Zeros(n) == Zeros(n - 1) + ['0'] by { ZerosSnoc(n - 1); }
        assert Zeros(n)[..n - 1] == Zeros(n - 1);
        NumberOfZeros(n - 1, []);
        assert Zeros(n - 1) + [] == Zeros(n - 1);
      }
    } else {
      var t := Zeros(n) + s;
      assert t[..|t| - 1] == Zeros(n) + s[..|s| - 1];
      NumberOfZeros(n, s[..|s| - 1]);
    }
  }

  lemma {:induction false} ZerosSnoc(n: nat)
    ensures Zeros(n + 1) == Zeros(n) + ['0']
  {
    if n > 0 {
      ZerosSnoc(n - 1);
      calc {
        Zeros(n + 1);
        ['0'] + Zeros(n);
        ['0'] + (Zeros(n - 1) + ['0']);
        (['0'] + Zeros(n - 1)) + ['0'];
        Zeros(n) + ['0'];
      }
    }
  }

  lemma {:induction false} NatStringFits(n: nat, width: nat)
    requires n < Pow10(width)
    ensures |NatString(n)| <= if width == 0 then 1 else width
  {
    if n >= 10 {
      assert Pow10(1) == 10;
      assert n / 10 < Pow10(width - 1);
      NatStringFits(n / 10, width - 1);
    }
  }

  lemma PaddedNumber(n: nat, width: nat)
    requires n < Pow10(width) && width > 0
    ensures |Padded(n, width)| == width
    ensures Number(Padded(n, width)) == n
  {
    NatStringFits(n, width);
    NumberOfNatString(n);
    PaddingKeepsNumber(NatString(n), width);
  }

  lemma PaddingKeepsNumber(digits: string, width: nat)
    requires AllDigits(digits) && |digits| <= width
    ensures |ZeroPadded(digits, width)| == width
    ensures Number(ZeroPadded(digits, width)) == Number(digits)
  {
    if |digits| < width {
      NumberOfZeros(width - |digits|, digits);
    }
  }

  // ---------- rounding ----------

  function Abs(x: real): real {
    if x < 0.0 then -x else x
  }

  /** Half away from zero, to the nearest integer. */
  function Round(x: real): int {
    if x < 0.0 then -((-x + 0.5).Floor) else (x + 0.5).Floor
  }

  /** x rounded to prec decimals. */
  function RoundTo(x: real, prec: nat): real {
    ShiftDown(Round(ShiftUp(x, prec)) as real, prec)
  }

  /** Round is nearest, sends halves away from zero, fixes integers and commutes with negation. */
  lemma RoundLaws(x: real)
    ensures Abs(Round(x) as real - x) <= 0.5
    ensures Abs(Round(x) as real - x) == 0.5 ==> Abs(Round(x) as real) > Abs(x)
    ensures Round(-x) == -Round(x)
  {
  }

  lemma RoundInteger(n: int)
    ensures Round(n as real) == n
  {
  }

  /**
   roundToInt: truncated division adjusted by one unit, away from zero, when twice
   the remainder reaches the denominator. This is Round of the fraction.
   */
  method RoundToInt(num: int, den: int) returns (q: int)
    requires den > 0
    ensures q == Round(num as real / den as real)
  {
    var magnitude := if num < 0 then -num else num;
    var quotient := magnitude / den;
    var remainder := magnitude % den;
    q := if num < 0 then -quotient else quotient;
    var rem := if num < 0 then -remainder else remainder;
    TruncatedRound(magnitude, den);
    NegatedFraction(magnitude, den);
    if rem == 0 {
      return q;
    }
    var rem2 := 2 * rem;
    if (if rem2 < 0 then -rem2 else rem2) < den {
      return q;
    }
    var one := 1;
    if rem < 0 {
      one := -one;
    }
    q := q + one;
  }

  lemma NegatedFraction(a: int, b: int)
    requires b > 0
    ensures (-a) as real / b as real == -(a as real / b as real)
  {
  }

  lemma TruncatedRound(m: nat, den: int)
    requires den > 0
    ensures Round(m as real / den as real) == m / den + if 2 * (m % den) >= den then 1 else 0
  {
    var q, r := m / den, m % den;
    var x := m as real / den as real;
    assert m == q * den + r;
    assert x == q as real + r as real / den as real by {
      assert x * den as real == m as real;
      assert (q as real + r as real / den as real) * den as real == q as real * den as real + r as real;
      SameQuotient(x, q as real + r as real / den as real, den as real);
    }
    FractionBelowHalf(r, den);
    assert x >= 0.0;
  }

  lemma SameQuotient(a: real, b: real, d: real)
    requires d > 0.0 && a * d == b * d
    ensures a == b
  {
    assert (a - b) * d == 0.0;
  }

  lemma FractionBelowHalf(r: nat, den: int)
    requires r < den
    ensures 0.0 <= r as real / den as real < 1.0
    ensures 2 * r >= den <==> r as real / den as real >= 0.5
  {
    var f := r as real / den as real;
    var d := den as real;
    assert f * d == r as real;
    ScaleCompare(f, 0.0, d);
    ScaleCompare(f, 0.5, d);
    ScaleCompare(f, 1.0, d);
  }

  lemma ScaleCompare(a: real, b: real, d: real)
    requires d > 0.0
    ensures a >= b <==> a * d >= b * d
  {
    if a >= b {
      assert (a - b) * d >= 0.0;
    } else {
      assert (b - a) * d > 0.0;
    }
  }

  // ---------- shifting and printing ----------

  lemma {:induction false} ShiftUpLaws(x: real, y: real, k: nat)
    ensures ShiftUp(x + y, k) == ShiftUp(x, k) + ShiftUp(y, k)
    ensures ShiftUp(-x, k) == -ShiftUp(x, k)
    ensures x < y ==> ShiftUp(x, k) < ShiftUp(y, k)
    ensures ShiftUp(0.0, k) == 0.0
    ensures ShiftUp(1.0, k) == Pow10(k) as real
  {
    if k > 0 {
      ShiftUpLaws(x, y, k - 1);
    }
  }

  lemma {:induction false} ShiftedLaws(m: int, n: int, k: nat)
    ensures Shifted(m + n, k) == Shifted(m, k) + Shifted(n, k)
    ensures Shifted(-m, k) == -Shifted(m, k)
    ensures m < n ==> Shifted(m, k) + Pow10(k) <= Shifted(n, k)
    ensures ShiftUp(m as real, k) == Shifted(m, k) as real
  {
    if k > 0 {
      ShiftedLaws(m, n, k - 1);
    }
  }

  lemma {:induction false} ShiftDownLaws(x: real, y: real, k: nat)
    ensures ShiftDown(x + y, k) == ShiftDown(x, k) + ShiftDown(y, k)
    ensures ShiftDown(-x, k) == -ShiftDown(x, k)
    ensures x < y ==> ShiftDown(x, k) < ShiftDown(y, k)
    ensures ShiftDown(0.0, k) == 0.0
    ensures ShiftDown(10.0 * x, k) == 10.0 * ShiftDown(x, k)
  {
    if k > 0 {
      ShiftDownLaws(x, y, k - 1);
    }
  }

  /** The two shifts undo each other. */
  lemma {:induction false} ShiftsCancel(x: real, k: nat)
    ensures ShiftUp(ShiftDown(x, k), k) == x
    ensures ShiftDown(ShiftUp(x, k), k) == x
  {
    if k > 0 {
      ShiftsCancel(x, k - 1);
      ShiftDownLaws(ShiftUp(x, k - 1), 0.0, k - 1);
      TenTimesTenth(ShiftDown(x, k - 1), k - 1);
    }
  }

  lemma {:induction false} TenTimesTenth(y: real, k: nat)
    ensures 10.0 * ShiftUp(y / 10.0, k) == ShiftUp(y, k)
  {
    if k > 0 {
      TenTimesTenth(y, k - 1);
    }
  }

  /** Digits before and after the point of a magnitude printed with k decimals: divided, rounded up, carried. */
  function Split(a: real, k: nat): (int, int) {
    var q := a.Floor;
    var t := ShiftUp(a - q as real, k);
    var r := t.Floor;
    var up := if 2.0 * (t - r as real) >= 1.0 then r + 1 else r;
    if up >= Pow10(k) then (q + 1, up - Pow10(k)) else (q, up)
  }

  /** A magnitude in units of its k-th decimal, rounded half up. */
  function Units(a: real, k: nat): int {
    (ShiftUp(a, k) + 0.5).Floor
  }

  lemma SplitIsUnits(a: real, k: nat)
    requires a >= 0.0
    ensures var (q, r) := Split(a, k);
            q >= 0 && 0 <= r < Pow10(k) && Shifted(q, k) + r == Units(a, k)
  {
    var q := a.Floor;
    var rest := a - q as real;
    ShiftUpLaws(q as real, rest, k);
    ShiftUpLaws(rest, 1.0, k);
    ShiftUpLaws(0.0, rest, k);
    ShiftedLaws(q, 1, k);
    assert q as real + rest == a;
  }

  /** A magnitude of q + r/10^prec, printed. */
  function Body(q: nat, r: nat, prec: nat): (s: string)
    requires r < Pow10(prec)
    ensures |s| > 0 && IsDigit(s[0])
  {
    NatString(q) + if prec > 0 then "." + Padded(r, prec) else ""
  }

  function Signed(negative: bool, body: string): string {
    (if negative then "-" else "") + body
  }

  /** big.Int's String. */
  function IntString(n: int): string {
    if n < 0 then "-" + NatString(-n) else NatString(n)
  }

  function Sign(x: real): string {
    if x < 0.0 then "-" else ""
  }

  /** big.Rat's FloatString. */
  function FloatString(x: real, prec: nat): (s: string) {
    SplitIsUnits(Abs(x), prec);
    var (q, r) := Split(Abs(x), prec);
    Signed(x < 0.0, Body(q, r, prec))
  }

  // ---------- parsing ----------

  /** The position of the first point, or the length when there is none. */
  function Point(s: string): (k: nat)
    ensures k <= |s|
    ensures forall i :: 0 <= i < k ==> s[i] != '.'
    ensures k < |s| ==> s[k] == '.'
  {
    if s == [] then 0 else if s[0] == '.' then 0 else 1 + Point(s[1..])
  }

  function ParsedParts(whole: string, frac: string): real
    requires AllDigits(whole) && AllDigits(frac)
  {
    ShiftDown((Shifted(Number(whole), |frac|) + Number(frac)) as real, |frac|)
  }

  function ParseUnsigned(s: string): Option<real> {
    var k := Point(s);
    var whole := s[..k];
    var frac := if k < |s| then s[k + 1..] else "";
    if AllDigits(whole) && AllDigits(frac) && |whole| + |frac| > 0 then Some(ParsedParts(whole, frac)) else None
  }

  /** big.Rat's SetString on plain decimals: an optional sign, digits, and at most one point. */
  function ParseDecimal(s: string): Option<real> {
    if s != [] && (s[0] == '-' || s[0] == '+') then
      var r := ParseUnsigned(s[1..]);
      if r.None? || s[0] == '+' then r else Some(-r.value)
    else ParseUnsigned(s)
  }

  /** The value a printed amount denotes; every printed amount has one. */
  function Val(s: string): real {
    var r := ParseDecimal(s);
    if r.Some? then r.value else 0.0
  }

  lemma PointAfter(whole: string, rest: string)
    requires AllDigits(whole) && (rest == [] || rest[0] == '.')
    ensures Point(whole + rest) == |whole|
  {
    var s := whole + rest;
    forall i | 0 <= i < |whole|
      ensures s[i] != '.'
    {
      assert s[i] == whole[i] && whole[i] in whole;
    }
    assert rest != [] ==> s[|whole|] == '.';
  }

  lemma ParseWhole(whole: string)
    requires AllDigits(whole) && |whole| > 0
    ensures ParseUnsigned(whole) == Some(Number(whole) as real)
  {
    PointAfter(whole, "");
    assert whole + "" == whole;
    assert whole[..|whole|] == whole;
    NoFraction(whole);
  }

  lemma NoFraction(whole: string)
    requires AllDigits(whole)
    ensures ParsedParts(whole, "") == Number(whole) as real
  {
  }

  lemma ParsePointed(whole: string, frac: string)
    requires AllDigits(whole) && AllDigits(frac) && |whole| > 0
    ensures ParseUnsigned(whole + ("." + frac)) == Some(ParsedParts(whole, frac))
  {
    PointAfter(whole, "." + frac);
    var s := whole + ("." + frac);
    assert s[..|whole|] == whole;
    assert s[|whole| + 1..] == frac;
  }

  lemma ParseNumbers(whole: string, frac: string, q: nat, r: nat)
    requires AllDigits(whole) && AllDigits(frac) && |whole| > 0
    requires Number(whole) == q && Number(frac) == r
    ensures ParseUnsigned(whole + ("." + frac)) == Some(ShiftDown((Shifted(q, |frac|) + r) as real, |frac|))
  {
    ParsePointed(whole, frac);
  }

  lemma ParseWholeBody(q: nat)
    ensures ParseUnsigned(Body(q, 0, 0)) == Some(q as real)
  {
    NumberOfNatString(q);
    ParseWhole(NatString(q));
    assert NatString(q) + "" == NatString(q);
  }

  lemma ParsePointedBody(q: nat, r: nat, prec: nat)
    requires r < Pow10(prec) && prec > 0
    ensures ParseUnsigned(Body(q, r, prec)) == Some(ShiftDown((Shifted(q, prec) + r) as real, prec))
  {
    var whole, frac := NatString(q), Padded(r, prec);
    NumberOfNatString(q);
    PaddedNumber(r, prec);
    ParseNumbers(whole, frac, q, r);
    assert Body(q, r, prec) == whole + ("." + frac);
  }

  lemma ParseBody(q: nat, r: nat, prec: nat)
    requires r < Pow10(prec)
    ensures ParseUnsigned(Body(q, r, prec)) == Some(ShiftDown((Shifted(q, prec) + r) as real, prec))
  {
    if prec > 0 {
      ParsePointedBody(q, r, prec);
    } else {
      ParseWholeBody(q);
    }
  }

  function WithSign(negative: bool, magnitude: real): real {
    if negative then -magnitude else magnitude
  }

  lemma ParseSigned(negative: bool, body: string, magnitude: real)
    requires |body| > 0 && IsDigit(body[0]) && ParseUnsigned(body) == Some(magnitude)
    ensures ParseDecimal(Signed(negative, body)) == Some(WithSign(negative, magnitude))
  {
    assert Signed(negative, body)[if negative then 1 else 0..] == body;
  }

  /** Rounding a shifted value is rounding its magnitude and putting the sign back. */
  lemma RoundShifted(x: real, k: nat)
    ensures Round(ShiftUp(x, k)) == if x < 0.0 then -Units(Abs(x), k) else Units(Abs(x), k)
    ensures Units(Abs(x), k) >= 0
  {
    ShiftUpLaws(x, 0.0, k);
    ShiftUpLaws(0.0, x, k);
  }

  /** Reading back a printed value gives the value rounded to the printed precision. */
  lemma ParseFloatString(x: real, prec: nat)
    ensures ParseDecimal(FloatString(x, prec)) == Some(RoundTo(x, prec))
  {
    var units := ParsePrinted(x, prec);
    RoundToUnits(x, prec, units);
  }

  lemma RoundToUnits(x: real, prec: nat, units: int)
    requires units == Units(Abs(x), prec)
    ensures RoundTo(x, prec) == WithSign(x < 0.0, ShiftDown(units as real, prec))
  {
    RoundShifted(x, prec);
    ShiftDownLaws(units as real, 0.0, prec);
  }

  lemma ParseParts(negative: bool, q: nat, r: nat, prec: nat, units: int)
    requires r < Pow10(prec) && units == Shifted(q, prec) + r
    ensures ParseDecimal(Signed(negative, Body(q, r, prec))) == Some(WithSign(negative, ShiftDown(units as real, prec)))
  {
    ParseBody(q, r, prec);
    ParseSigned(negative, Body(q, r, prec), ShiftDown(units as real, prec));
  }

  /** The digits a value is printed with. */
  lemma PrintedDigits(x: real, prec: nat) returns (q: nat, r: nat, units: int)
    ensures r < Pow10(prec) && Shifted(q, prec) + r == units == Units(Abs(x), prec)
    ensures FloatString(x, prec) == Signed(x < 0.0, Body(q, r, prec))
  {
    SplitIsUnits(Abs(x), prec);
    q, r := Split(Abs(x), prec).0, Split(Abs(x), prec).1;
    units := Units(Abs(x), prec);
  }

  /** The text of a value, read back: the units of its last decimal, with its sign. */
  lemma ParsePrinted(x: real, prec: nat) returns (units: int)
    ensures units == Units(Abs(x), prec)
    ensures ParseDecimal(FloatString(x, prec)) == Some(WithSign(x < 0.0, ShiftDown(units as real, prec)))
  {
    var q, r;
    q, r, units := PrintedDigits(x, prec);
    ParseParts(x < 0.0, q, r, prec, units);
  }

  lemma ParseSignedNat(negative: bool, m: nat)
    ensures ParseDecimal(Signed(negative, NatString(m))) == Some(WithSign(negative, m as real))
  {
    NumberOfNatString(m);
    ParseWhole(NatString(m));
    assert IsDigit(NatString(m)[0]) by {
      assert NatString(m)[0] in NatString(m);
    }
    ParseSigned(negative, NatString(m), m as real);
  }

  lemma ParseIntString(n: int)
    ensures ParseDecimal(IntString(n)) == Some(n as real)
  {
    var m := if n < 0 then -n else n;
    ParseSignedNat(n < 0, m);
    assert IntString(n) == Signed(n < 0, NatString(m));
  }

  /** A value already at print precision survives printing and parsing unchanged. */
  lemma PrintedExactly(n: int, prec: nat)
    ensures Val(FloatString(ShiftDown(n as real, prec), prec)) == ShiftDown(n as real, prec)
  {
    ParseFloatString(ShiftDown(n as real, prec), prec);
    ShiftsCancel(n as real, prec);
    RoundInteger(n);
  }

  lemma SignShows(x: real, prec: nat)
    ensures |FloatString(x, prec)| > 0
    ensures FloatString(x, prec)[0] == '-' <==> x < 0.0
  {
    SplitIsUnits(Abs(x), prec);
    var (q, r) := Split(Abs(x), prec);
    var body := Body(q, r, prec);
    assert Signed(false, body) == body;
  }

  lemma SameUnitsSameBody(x: real, y: real, prec: nat)
    requires Sign(x) == Sign(y) && Units(Abs(x), prec) == Units(Abs(y), prec)
    ensures FloatString(x, prec) == FloatString(y, prec)
  {
    SplitIsUnits(Abs(x), prec);
    SplitIsUnits(Abs(y), prec);
    var (q, r) := Split(Abs(x), prec);
    var (q', r') := Split(Abs(y), prec);
    ShiftedLaws(q, q', prec);
    ShiftedLaws(q', q, prec);
    assert q == q' && r == r';
  }

  lemma SameTextSameUnits(x: real, y: real, prec: nat)
    requires FloatString(x, prec) == FloatString(y, prec)
    ensures Sign(x) == Sign(y) && Units(Abs(x), prec) == Units(Abs(y), prec)
  {
    SignShows(x, prec);
    SignShows(y, prec);
    ParseFloatString(x, prec);
    ParseFloatString(y, prec);
    assert RoundTo(x, prec) == RoundTo(y, prec);
    ShiftsCancel(Round(ShiftUp(x, prec)) as real, prec);
    ShiftsCancel(Round(ShiftUp(y, prec)) as real, prec);
    RoundShifted(x, prec);
    RoundShifted(y, prec);
  }

  /** Two values print alike exactly when they agree in sign and in rounded magnitude. */
  lemma SamePrintIff(x: real, y: real, prec: nat)
    ensures FloatString(x, prec) == FloatString(y, prec) <==>
            Sign(x) == Sign(y) && Units(Abs(x), prec) == Units(Abs(y), prec)
  {
    if FloatString(x, prec) == FloatString(y, prec) {
      SameTextSameUnits(x, y, prec);
    } else if Sign(x) == Sign(y) && Units(Abs(x), prec) == Units(Abs(y), prec) {
      SameUnitsSameBody(x, y, prec);
    }
  }

  lemma RoundedUnits(x: real, prec: nat)
    ensures Units(Abs(RoundTo(x, prec)), prec) == Units(Abs(x), prec)
    ensures RoundTo(x, prec) == 0.0 <==> Units(Abs(x), prec) == 0
    ensures RoundTo(x, prec) < 0.0 <==> x < 0.0 && Units(Abs(x), prec) > 0
  {
    var n := Round(ShiftUp(x, prec));
    ShiftsCancel(n as real, prec);
    ShiftDownLaws(n as real, 0.0, prec);
    ShiftDownLaws(0.0, n as real, prec);
    RoundInteger(n);
    RoundShifted(x, prec);
    RoundShifted(RoundTo(x, prec), prec);
  }

  /** Printing what was read back gives the same string, except for a negative value printed as minus zero. */
  lemma PrintParsePrintIff(x: real, prec: nat)
    ensures FloatString(Val(FloatString(x, prec)), prec) == FloatString(x, prec) <==>
            !(x < 0.0 && RoundTo(x, prec) == 0.0)
  {
    ParseFloatString(x, prec);
    RoundedUnits(x, prec);
    RoundShifted(x, prec);
    SamePrintIff(RoundTo(x, prec), x, prec);
  }

  /** The values that print as one given string form an interval. */
  lemma PrintsConvex(a: real, c: real, b: real, prec: nat)
    requires a <= c <= b && FloatString(a, prec) == FloatString(b, prec)
    ensures FloatString(c, prec) == FloatString(a, prec)
  {
    SamePrintIff(a, b, prec);
    ShiftUpLaws(Abs(a), Abs(c), prec);
    ShiftUpLaws(Abs(c), Abs(a), prec);
    ShiftUpLaws(Abs(c), Abs(b), prec);
    ShiftUpLaws(Abs(b), Abs(c), prec);
    SameUnitsSameBody(c, a, prec);
  }

  // ---------- what can be read at all ----------

  /** An optional sign, digits, and possibly a point and more digits; at least one digit in all. */
  predicate Spells(s: string, sign: string, whole: string, frac: string, pointed: bool) {
    && (sign == "" || sign == "+" || sign == "-")
    && AllDigits(whole) && AllDigits(frac) && |whole| + |frac| > 0 && (frac != "" ==> pointed)
    && s == sign + (whole + if pointed then "." + frac else "")
  }

  ghost predicate Readable(s: string) {
    exists sign, whole, frac, pointed :: Spells(s, sign, whole, frac, pointed)
  }

  lemma ParseTail(whole: string, frac: string, pointed: bool)
    requires AllDigits(whole) && AllDigits(frac) && |whole| + |frac| > 0 && (frac != "" ==> pointed)
    ensures ParseUnsigned(whole + if pointed then "." + frac else "") == Some(ParsedParts(whole, frac))
  {
    var s := whole + if pointed then "." + frac else "";
    PointAfter(whole, if pointed then "." + frac else "");
    assert s[..|whole|] == whole;
    if pointed {
      assert s[|whole| + 1..] == frac;
    } else {
      assert s == whole;
    }
  }

  lemma FirstOfTail(whole: string, frac: string, pointed: bool)
    requires AllDigits(whole) && AllDigits(frac) && |whole| + |frac| > 0 && (frac != "" ==> pointed)
    ensures var s := whole + if pointed then "." + frac else ""; s != [] && s[0] != '-' && s[0] != '+'
  {
    var s := whole + if pointed then "." + frac else "";
    if whole != [] {
      assert s[0] == whole[0] && whole[0] in whole;
    } else {
      assert s == "." + frac;
    }
  }

  /** A spelled number is read as its digits, moved behind the point, with its sign. */
  lemma ReadsSpelling(s: string, sign: string, whole: string, frac: string, pointed: bool)
    requires Spells(s, sign, whole, frac, pointed)
    ensures ParseDecimal(s) ==
            Some(if sign == "-" then -ParsedParts(whole, frac) else ParsedParts(whole, frac))
  {
    var tail := whole + if pointed then "." + frac else "";
    ParseTail(whole, frac, pointed);
    FirstOfTail(whole, frac, pointed);
    if sign == "" {
      assert s == tail;
    } else {
      assert s[0] == sign[0] && s[1..] == tail;
    }
  }

  lemma SpellingOfUnsigned(s: string) returns (whole: string, frac: string, pointed: bool)
    requires ParseUnsigned(s).Some?
    ensures AllDigits(whole) && AllDigits(frac) && |whole| + |frac| > 0 && (frac != "" ==> pointed)
    ensures s == whole + if pointed then "." + frac else ""
  {
    var k := Point(s);
    pointed := k < |s|;
    whole, frac := s[..k], if pointed then s[k + 1..] else "";
    if pointed {
      assert s == s[..k] + ([s[k]] + s[k + 1..]);
    } else {
      assert s == whole + "";
    }
  }

  /** Read exactly when spelled so. */
  lemma ReadableIff(s: string)
    ensures ParseDecimal(s).Some? <==> Readable(s)
  {
    if ParseDecimal(s).Some? {
      var signed := s != [] && (s[0] == '-' || s[0] == '+');
      var sign := if signed then [s[0]] else "";
      var whole, frac, pointed := SpellingOfUnsigned(if signed then s[1..] else s);
      if signed {
        assert s == [s[0]] + s[1..];
      } else {
        assert s == "" + s;
      }
      assert Spells(s, sign, whole, frac, pointed);
    }
    if Readable(s) {
      var sign, whole, frac, pointed :| Spells(s, sign, whole, frac, pointed);
      ReadsSpelling(s, sign, whole, frac, pointed);
    }
  }

  // ---------- what a printed value looks like ----------

  lemma {:induction false} NoLeadingZero(n: nat)
    ensures |NatString(n)| > 1 ==> NatString(n)[0] != '0'
    ensures n > 0 ==> NatString(n)[0] != '0'
  {
    if n >= 10 {
      NoLeadingZero(n / 10);
      assert NatString(n)[0] == NatString(n / 10)[0];
    }
  }

  /** Digits without a superfluous zero in front, and exactly prec of them behind the point. */
  predicate Prints(s: string, negative: bool, whole: string, frac: string, prec: nat) {
    && AllDigits(whole) && |whole| > 0 && (|whole| > 1 ==> whole[0] != '0')
    && AllDigits(frac) && |frac| == prec
    && s == (if negative then "-" else "") + (whole + if prec > 0 then "." + frac else "")
  }

  lemma PrintedShape(x: real, prec: nat) returns (whole: string, frac: string)
    ensures Prints(FloatString(x, prec), x < 0.0, whole, frac, prec)
  {
    var q, r, units := PrintedDigits(x, prec);
    NoLeadingZero(q);
    whole, frac := NatString(q), "";
    if prec > 0 {
      PaddedNumber(r, prec);
      frac := Padded(r, prec);
    }
    ShapeOf(q, r, prec, frac, x < 0.0, FloatString(x, prec));
  }

  lemma ShapeOf(q: nat, r: nat, prec: nat, frac: string, negative: bool, s: string)
    requires r < Pow10(prec) && |frac| == prec && (prec > 0 ==> frac == Padded(r, prec))
    requires |NatString(q)| > 1 ==> NatString(q)[0] != '0'
    requires s == Signed(negative, Body(q, r, prec))
    ensures Prints(s, negative, NatString(q), frac, prec)
  {
  }
}
