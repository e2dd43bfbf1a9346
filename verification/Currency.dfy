/** Stripe minor units, currency scales, and how amounts are rendered for NAV. */
module Currency {
  import opened Wrappers
  import opened Decimals

  /** Go's int64. */
  type Int64 = x: int | -0x8000_0000_0000_0000 <= x < 0x8000_0000_0000_0000

  const INT64_MIN: Int64 := -0x8000_0000_0000_0000

  /** Go's unary minus on int64: the smallest value is its own negation. */
  function Negated(x: Int64): Int64 {
    if x == INT64_MIN then INT64_MIN else -x
  }

  const ZERO_DECIMAL_CURRENCIES: set<string> := {
    "bif", "clp", "djf", "gnf", "jpy", "kmf", "krw", "mga",
    "pyg", "rwf", "ugx", "vnd", "vuv", "xaf", "xof", "xpf"
  }

  function LowerChar(c: char): char {
    if 'A' <= c <= 'Z' then (c as int + 32) as char else c
  }

  function UpperChar(c: char): char {
    if 'a' <= c <= 'z' then (c as int - 32) as char else c
  }

  function ToLower(s: string): (r: string)
    ensures |r| == |s|
  {
    seq(|s|, i requires 0 <= i < |s| => LowerChar(s[i]))
  }

  function ToUpper(s: string): (r: string)
    ensures |r| == |s|
  {
    seq(|s|, i requires 0 <= i < |s| => UpperChar(s[i]))
  }

  predicate ZeroDecimal(code: string) {
    ToLower(code) in ZERO_DECIMAL_CURRENCIES
  }

  function CurrencyMinorScale(code: string): int {
    if ZeroDecimal(code) then 1 else 100
  }

  /** How many decimals an amount in this currency is printed with. */
  function Precision(code: string): nat {
    if ZeroDecimal(code) then 0 else 2
  }

  function AmountFromMinor(minor: int, code: string): real {
    minor as real / CurrencyMinorScale(code) as real
  }

  function FormatAmount(x: real, code: string): string {
    if ZeroDecimal(code) then IntString(Round(x)) else FloatString(x, 2)
  }

  function FormatHUF(x: real): string {
    IntString(Round(x))
  }

  function ToHUF(amount: real, rate: real): real {
    amount * rate
  }

  lemma AmountForms(minor: int, code: string)
    ensures AmountFromMinor(minor, code) == ShiftDown(minor as real, Precision(code))
  {
    assert ShiftDown(minor as real, 1) == minor as real / 10.0;
  }

  lemma FormatAmountValue(x: real, code: string)
    ensures ParseDecimal(FormatAmount(x, code)) == Some(RoundTo(x, Precision(code)))
  {
    if ZeroDecimal(code) {
      ParseIntString(Round(x));
    } else {
      ParseFloatString(x, 2);
    }
  }

  lemma FormatHUFValue(x: real)
    ensures ParseDecimal(FormatHUF(x)) == Some(Round(x) as real)
  {
    ParseIntString(Round(x));
  }

  lemma AmountValue(x: real, code: string)
    ensures Val(FormatAmount(x, code)) == RoundTo(x, Precision(code))
  {
    FormatAmountValue(x, code);
  }

  lemma ForintValue(x: real)
    ensures Val(FormatHUF(x)) == Round(x) as real
  {
    FormatHUFValue(x);
  }

  /** Any whole number of minor units is printed exactly. */
  lemma MinorUnitsPrintExactly(minor: int, code: string)
    ensures Val(FormatAmount(AmountFromMinor(minor, code), code)) == AmountFromMinor(minor, code)
  {
    FormatAmountValue(AmountFromMinor(minor, code), code);
    AmountForms(minor, code);
    ShiftsCancel(minor as real, Precision(code));
    RoundInteger(minor);
  }

  // ---------- net, VAT and gross that add up ----------

  /** reconciled: gross is rebuilt from the printed net and VAT. */
  function Reconciled(net: real, vat: real, format: real -> string): (string, string, string) {
    var netStr := format(net);
    var vatStr := format(vat);
    (netStr, vatStr, format(Val(netStr) + Val(vatStr)))
  }

  function ReconciledAmount(net: real, vat: real, code: string): (string, string, string) {
    Reconciled(net, vat, (r: real) => FormatAmount(r, code))
  }

  function ReconciledHUF(net: real, vat: real): (string, string, string) {
    Reconciled(net, vat, FormatHUF)
  }

  lemma RoundedSum(x: real, y: real, k: nat)
    ensures RoundTo(RoundTo(x, k) + RoundTo(y, k), k) == RoundTo(x, k) + RoundTo(y, k)
  {
    var m, n := Round(ShiftUp(x, k)), Round(ShiftUp(y, k));
    ShiftDownLaws(m as real, n as real, k);
    ShiftsCancel((m + n) as real, k);
    RoundInteger(m + n);
  }

  lemma PrintsItself(v: real, code: string)
    requires RoundTo(v, Precision(code)) == v
    ensures Val(FormatAmount(v, code)) == v
  {
    AmountValue(v, code);
  }

  lemma SumPrintsExactly(x: real, y: real, code: string)
    ensures Val(FormatAmount(RoundTo(x, Precision(code)) + RoundTo(y, Precision(code)), code)) ==
            RoundTo(x, Precision(code)) + RoundTo(y, Precision(code))
  {
    RoundedSum(x, y, Precision(code));
    PrintsItself(RoundTo(x, Precision(code)) + RoundTo(y, Precision(code)), code);
  }

  /** In invoice currency the three printed strings satisfy net + vat = gross exactly, whatever was rounded. */
  lemma AmountsReconcile(net: real, vat: real, code: string)
    ensures var (n, v, g) := ReconciledAmount(net, vat, code);
            && n == FormatAmount(net, code) && v == FormatAmount(vat, code)
            && Val(n) + Val(v) == Val(g)
  {
    FormatAmountValue(net, code);
    FormatAmountValue(vat, code);
    SumPrintsExactly(net, vat, code);
  }

  lemma WholeForints(m: int, n: int)
    ensures Val(FormatHUF(m as real + n as real)) == (m + n) as real
  {
    assert m as real + n as real == (m + n) as real;
    ForintValue((m + n) as real);
    RoundInteger(m + n);
  }

  lemma ForintSum(n: string, v: string, g: string, net: int, vat: int)
    requires Val(n) == net as real && Val(v) == vat as real
    requires g == FormatHUF(Val(n) + Val(v))
    ensures Val(n) + Val(v) == Val(g)
  {
    WholeForints(net, vat);
  }

  /** And so do the three whole-forint strings. */
  lemma HUFReconciles(net: real, vat: real)
    ensures var (n, v, g) := ReconciledHUF(net, vat);
            && Val(n) == Round(net) as real
            && Val(v) == Round(vat) as real
            && Val(n) + Val(v) == Val(g)
  {
    var (n, v, g) := ReconciledHUF(net, vat);
    ForintValue(net);
    ForintValue(vat);
    ForintSum(n, v, g, Round(net), Round(vat));
  }

  // ---------- integers have one spelling ----------

  lemma SameIntegersIff(m: int, n: int)
    ensures IntString(m) == IntString(n) <==> m == n
  {
    ParseIntString(m);
    ParseIntString(n);
  }

  /** Forints, and amounts in a currency without minor units, print alike exactly when they round alike: no minus zero. */
  lemma RoundAlikeIff(x: real, y: real, code: string)
    ensures FormatHUF(x) == FormatHUF(y) <==> Round(x) == Round(y)
    ensures ZeroDecimal(code) ==> (FormatAmount(x, code) == FormatAmount(y, code) <==> Round(x) == Round(y))
  {
    SameIntegersIff(Round(x), Round(y));
  }
}
