/**
 Lines, rate rows and totals of an invoice against those of its sign-flipped
 clone, each converted at its own rate: what is negated, and what is left over.
 */
module Reversals {
  import opened Wrappers
  import opened Documents
  import opened Decimals
  import opened Currency
  import opened Invoices
  import opened Mapping
  import opened Conservation

  // ---------- what can be negated ----------

  /** Go's int64 minimum is the one amount whose negation is itself. */
  predicate NegatableTaxes(taxes: seq<Option<Tax>>) {
    forall i :: 0 <= i < |taxes| ==> taxes[i].Some? ==> taxes[i].value.amount != INT64_MIN
  }

  predicate NegatableLine(line: InvoiceLine) {
    line.amount != INT64_MIN && NegatableTaxes(line.taxes)
  }

  predicate Negatable(data: seq<Option<InvoiceLine>>) {
    forall i :: 0 <= i < |data| ==> data[i].Some? ==> NegatableLine(data[i].value)
  }

  lemma FlippedAmount(m: Int64, code: string)
    ensures AmountFromMinor(Negated(m), code) <= -AmountFromMinor(m, code)
    ensures AmountFromMinor(Negated(m), code) == -AmountFromMinor(m, code) <==> m != INT64_MIN
  {
  }

  lemma FlippedTaxAppend(taxes: seq<Option<Tax>>, code: string)
    requires taxes != [] && taxes[|taxes| - 1].Some?
    ensures var front, tax := taxes[..|taxes| - 1], taxes[|taxes| - 1].value;
            && FlippedTaxes(taxes) == FlippedTaxes(front) + [Some(FlippedTax(tax))]
            && VatOf(FlippedTaxes(taxes), code) == VatOf(FlippedTaxes(front), code) + AmountFromMinor(Negated(tax.amount), code)
            && AnyInclusive(FlippedTaxes(taxes)) == (AnyInclusive(FlippedTaxes(front)) || tax.behavior == Inclusive)
  {
    var front, tax := taxes[..|taxes| - 1], taxes[|taxes| - 1].value;
    assert FlippedTaxes(taxes) == FlippedTaxes(front) + [Some(FlippedTax(tax))];
    assert (FlippedTaxes(front) + [Some(FlippedTax(tax))])[..|FlippedTaxes(front)|] == FlippedTaxes(front);
  }

  lemma NegatableAppend(taxes: seq<Option<Tax>>)
    requires taxes != []
    ensures var last := taxes[|taxes| - 1];
            NegatableTaxes(taxes) <==>
            NegatableTaxes(taxes[..|taxes| - 1]) && (last.Some? ==> last.value.amount != INT64_MIN)
  {
    assert taxes == taxes[..|taxes| - 1] + [taxes[|taxes| - 1]];
  }

  lemma {:induction false} FlippedVat(taxes: seq<Option<Tax>>, code: string)
    ensures AnyInclusive(FlippedTaxes(taxes)) == AnyInclusive(taxes)
    ensures VatOf(FlippedTaxes(taxes), code) <= -VatOf(taxes, code)
    ensures VatOf(FlippedTaxes(taxes), code) == -VatOf(taxes, code) <==> NegatableTaxes(taxes)
  {
    if taxes != [] {
      var n := |taxes| - 1;
      FlippedVat(taxes[..n], code);
      NegatableAppend(taxes);
      if taxes[n].Some? {
        FlippedTaxAppend(taxes, code);
        FlippedAmount(taxes[n].value.amount, code);
      } else {
        assert FlippedTaxes(taxes) == FlippedTaxes(taxes[..n]);
      }
    }
  }

  lemma FlippedRatio(net: real, vat: real)
    ensures RatePct(-net, -vat) == RatePct(net, vat)
  {
    if net != 0.0 {
      var a, b := (-vat) / (-net), vat / net;
      assert a * net == vat && b * net == vat;
      assert (a - b) * net == 0.0;
    }
  }

  /** Net and VAT of a flipped line are the negated ones exactly when the line holds no int64 minimum. */
  lemma FlippedItem(line: InvoiceLine, code: string, rate: real, stornoRate: real)
    ensures var a, b := ItemOf(line, code, rate), ItemOf(FlippedLine(line), code, stornoRate);
            && (b.net == -a.net && b.vat == -a.vat <==> NegatableLine(line))
            && (NegatableLine(line) ==> b.key == a.key)
  {
    FlippedVat(line.taxes, code);
    FlippedAmount(line.amount, code);
    var a, b := ItemOf(line, code, rate), ItemOf(FlippedLine(line), code, stornoRate);
    if NegatableLine(line) {
      FlippedRatio(a.net, a.vat);
    }
  }

  // ---------- one printed amount against its reversal ----------

  function SumsAt(net: real, vat: real, rate: real): Sums {
    Sums(net, vat, ToHUF(net, rate), ToHUF(vat, rate))
  }

  /** What an exact net and VAT come to when printed: themselves in invoice currency, rounded at the rate in forints. */
  function Shown(net: real, vat: real, rate: real, column: Column, side: Side): real {
    match (column, side)
    case (NetColumn, InvoiceSide) => net
    case (VatColumn, InvoiceSide) => vat
    case (GrossColumn, InvoiceSide) => net + vat
    case (NetColumn, ForintSide) => Round(ToHUF(net, rate)) as real
    case (VatColumn, ForintSide) => Round(ToHUF(vat, rate)) as real
    case (GrossColumn, ForintSide) => Round(ToHUF(net, rate)) as real + Round(ToHUF(vat, rate)) as real
  }

  ghost predicate Shows(a: Amounts, net: real, vat: real, rate: real) {
    forall column, side :: Val(Cell(a, column, side)) == Shown(net, vat, rate, column, side)
  }

  lemma ForintCell(sums: Sums, code: string, column: Column)
    ensures Val(Cell(AmountsOf(sums, code), column, ForintSide)) ==
            match column
            case NetColumn => Round(sums.netHUF) as real
            case VatColumn => Round(sums.vatHUF) as real
            case GrossColumn => Round(sums.netHUF) as real + Round(sums.vatHUF) as real
  {
    HUFReconciles(sums.netHUF, sums.vatHUF);
  }

  lemma AmountsShow(net: real, vat: real, rate: real, code: string)
    requires Whole(net, code) && Whole(vat, code)
    ensures Shows(AmountsOf(SumsAt(net, vat, rate), code), net, vat, rate)
  {
    forall column, side
      ensures Val(Cell(AmountsOf(SumsAt(net, vat, rate), code), column, side)) == Shown(net, vat, rate, column, side)
    {
      if side == InvoiceSide {
        WholeAmountsPrint(SumsAt(net, vat, rate), code, column);
      } else {
        ForintCell(SumsAt(net, vat, rate), code, column);
      }
    }
  }

  /** b prints the negated net and VAT of a, each converted at its own rate. */
  ghost predicate Reverses(a: Amounts, b: Amounts, rate: real, stornoRate: real) {
    exists net, vat, netBack, vatBack ::
      Shows(a, net, vat, rate) && Shows(b, netBack, vatBack, stornoRate) && netBack == -net && vatBack == -vat
  }

  ghost predicate Opposite(a: Amounts, b: Amounts, side: Side) {
    forall column :: Val(Cell(b, column, side)) == -Val(Cell(a, column, side))
  }

  /** What a forint cell and its reversal leave behind, as a bound on the invoice-currency amount. */
  ghost predicate ResidueBounded(a: Amounts, b: Amounts) {
    forall column :: Abs(Val(Cell(a, column, ForintSide)) + Val(Cell(b, column, ForintSide))) <=
                     Abs(Val(Cell(a, column, InvoiceSide))) / 2_000_000.0 + Allowance(2, column)
  }

  lemma WholeNegates(x: real, code: string)
    requires Whole(x, code)
    ensures Whole(-x, code)
  {
    var m: int :| x == AmountFromMinor(m, code);
    assert -x == AmountFromMinor(-m, code);
  }

  lemma AmountsReverse(net: real, vat: real, netBack: real, vatBack: real, rate: real, stornoRate: real, code: string)
    requires Whole(net, code) && Whole(vat, code) && netBack == -net && vatBack == -vat
    ensures Reverses(AmountsOf(SumsAt(net, vat, rate), code), AmountsOf(SumsAt(netBack, vatBack, stornoRate), code),
                     rate, stornoRate)
  {
    WholeNegates(net, code);
    WholeNegates(vat, code);
    AmountsShow(net, vat, rate, code);
    AmountsShow(netBack, vatBack, stornoRate, code);
  }

  lemma ToHUFNegates(x: real, rate: real)
    ensures ToHUF(-x, rate) == -ToHUF(x, rate)
  {
  }

  lemma RoundedNegates(x: real, back: real, rate: real)
    requires back == -x
    ensures Round(ToHUF(back, rate)) == -Round(ToHUF(x, rate))
  {
    ToHUFNegates(x, rate);
    RoundLaws(ToHUF(x, rate));
  }

  lemma ShownNegates(net: real, vat: real, netBack: real, vatBack: real, rate: real, column: Column, side: Side)
    requires netBack == -net && vatBack == -vat
    ensures Shown(netBack, vatBack, rate, column, side) == -Shown(net, vat, rate, column, side)
  {
    RoundedNegates(net, netBack, rate);
    RoundedNegates(vat, vatBack, rate);
  }

  lemma CellNegates(a: Amounts, b: Amounts, net: real, vat: real, netBack: real, vatBack: real,
                    rate: real, stornoRate: real, column: Column, side: Side)
    requires Shows(a, net, vat, rate) && Shows(b, netBack, vatBack, stornoRate)
    requires netBack == -net && vatBack == -vat && (side == InvoiceSide || rate == stornoRate)
    ensures Val(Cell(b, column, side)) == -Val(Cell(a, column, side))
  {
    ShownNegates(net, vat, netBack, vatBack, rate, column, side);
    assert Val(Cell(a, column, side)) == Shown(net, vat, rate, column, side);
    assert Val(Cell(b, column, side)) == Shown(netBack, vatBack, stornoRate, column, side);
  }

  lemma ReversalCancels(a: Amounts, b: Amounts, rate: real, stornoRate: real)
    requires Reverses(a, b, rate, stornoRate)
    ensures Opposite(a, b, InvoiceSide)
    ensures rate == stornoRate ==> Opposite(a, b, ForintSide)
  {
    var net, vat, netBack, vatBack :|
      Shows(a, net, vat, rate) && Shows(b, netBack, vatBack, stornoRate) && netBack == -net && vatBack == -vat;
    forall column, side | side == InvoiceSide || rate == stornoRate
      ensures Val(Cell(b, column, side)) == -Val(Cell(a, column, side))
    {
      CellNegates(a, b, net, vat, netBack, vatBack, rate, stornoRate, column, side);
    }
  }

  /** Converting at two rates that differ by at most half a millionth. */
  lemma RateGap(x: real, rate: real, stornoRate: real)
    requires Abs(rate - stornoRate) <= 1.0 / 2_000_000.0
    ensures Abs(ToHUF(x, rate) + ToHUF(-x, stornoRate)) <= Abs(x) / 2_000_000.0
  {
    var gap := rate - stornoRate;
    assert ToHUF(x, rate) + ToHUF(-x, stornoRate) == x * gap;
    ScaledGap(Abs(x), gap);
    assert Abs(x) * gap == if x < 0.0 then -(x * gap) else x * gap;
  }

  lemma ScaledGap(x: real, gap: real)
    requires x >= 0.0 && Abs(gap) <= 1.0 / 2_000_000.0
    ensures Abs(x * gap) <= x / 2_000_000.0
  {
    var limit := 1.0 / 2_000_000.0;
    assert x * (limit - gap) >= 0.0;
    assert x * (limit + gap) >= 0.0;
    assert x * (limit - gap) == x * limit - x * gap;
    assert x * (limit + gap) == x * limit + x * gap;
  }

  lemma ToHUFAdds(x: real, y: real, rate: real)
    ensures ToHUF(x + y, rate) == ToHUF(x, rate) + ToHUF(y, rate)
  {
  }

  /** Two roundings move a sum by at most one. */
  lemma RoundedPair(a: real, b: real)
    ensures Abs(Round(a) as real + Round(b) as real) <= Abs(a + b) + 1.0
  {
    RoundLaws(a);
    RoundLaws(b);
  }

  lemma RoundedQuad(a: real, b: real, c: real, d: real)
    ensures Abs(Round(a) as real + Round(c) as real + (Round(b) as real + Round(d) as real)) <= Abs(a + c + (b + d)) + 2.0
  {
    RoundLaws(a);
    RoundLaws(b);
    RoundLaws(c);
    RoundLaws(d);
  }

  lemma GrossGap(net: real, vat: real, rate: real, stornoRate: real)
    requires Abs(rate - stornoRate) <= 1.0 / 2_000_000.0
    ensures Abs(ToHUF(net, rate) + ToHUF(vat, rate) + (ToHUF(-net, stornoRate) + ToHUF(-vat, stornoRate))) <=
            Abs(net + vat) / 2_000_000.0
  {
    RateGap(net + vat, rate, stornoRate);
    ToHUFAdds(net, vat, rate);
    ToHUFAdds(-net, -vat, stornoRate);
    assert -(net + vat) == -net + -vat;
  }

  lemma RoundedResidue(x: real, back: real, rate: real, stornoRate: real)
    requires back == -x && Abs(rate - stornoRate) <= 1.0 / 2_000_000.0
    ensures Abs(Round(ToHUF(x, rate)) as real + Round(ToHUF(back, stornoRate)) as real) <= Abs(x) / 2_000_000.0 + 1.0
  {
    RateGap(x, rate, stornoRate);
    RoundedPair(ToHUF(x, rate), ToHUF(back, stornoRate));
  }

  lemma GrossResidue(net: real, vat: real, netBack: real, vatBack: real, rate: real, stornoRate: real)
    requires netBack == -net && vatBack == -vat && Abs(rate - stornoRate) <= 1.0 / 2_000_000.0
    ensures Abs(Round(ToHUF(net, rate)) as real + Round(ToHUF(vat, rate)) as real +
                (Round(ToHUF(netBack, stornoRate)) as real + Round(ToHUF(vatBack, stornoRate)) as real)) <=
            Abs(net + vat) / 2_000_000.0 + 2.0
  {
    GrossGap(net, vat, rate, stornoRate);
    RoundedQuad(ToHUF(net, rate), ToHUF(netBack, stornoRate), ToHUF(vat, rate), ToHUF(vatBack, stornoRate));
  }

  lemma ShownResidue(net: real, vat: real, netBack: real, vatBack: real, rate: real, stornoRate: real, column: Column)
    requires netBack == -net && vatBack == -vat && Abs(rate - stornoRate) <= 1.0 / 2_000_000.0
    ensures Abs(Shown(net, vat, rate, column, ForintSide) + Shown(netBack, vatBack, stornoRate, column, ForintSide)) <=
            Abs(Shown(net, vat, rate, column, InvoiceSide)) / 2_000_000.0 + Allowance(2, column)
  {
    match column
    case NetColumn => RoundedResidue(net, netBack, rate, stornoRate);
    case VatColumn => RoundedResidue(vat, vatBack, rate, stornoRate);
    case GrossColumn => GrossResidue(net, vat, netBack, vatBack, rate, stornoRate);
  }

  lemma CellResidue(a: Amounts, b: Amounts, net: real, vat: real, netBack: real, vatBack: real,
                    rate: real, stornoRate: real, column: Column)
    requires Shows(a, net, vat, rate) && Shows(b, netBack, vatBack, stornoRate)
    requires netBack == -net && vatBack == -vat && Abs(rate - stornoRate) <= 1.0 / 2_000_000.0
    ensures Abs(Val(Cell(a, column, ForintSide)) + Val(Cell(b, column, ForintSide))) <=
            Abs(Val(Cell(a, column, InvoiceSide))) / 2_000_000.0 + Allowance(2, column)
  {
    var x, y := Shown(net, vat, rate, column, ForintSide), Shown(netBack, vatBack, stornoRate, column, ForintSide);
    var z := Shown(net, vat, rate, column, InvoiceSide);
    ShownResidue(net, vat, netBack, vatBack, rate, stornoRate, column);
    CellsShow(a, b, net, vat, netBack, vatBack, rate, stornoRate, column, x, y, z);
  }

  lemma CellsShow(a: Amounts, b: Amounts, net: real, vat: real, netBack: real, vatBack: real,
                  rate: real, stornoRate: real, column: Column, x: real, y: real, z: real)
    requires Shows(a, net, vat, rate) && Shows(b, netBack, vatBack, stornoRate)
    requires x == Shown(net, vat, rate, column, ForintSide) && y == Shown(netBack, vatBack, stornoRate, column, ForintSide)
    requires z == Shown(net, vat, rate, column, InvoiceSide)
    ensures Val(Cell(a, column, ForintSide)) == x && Val(Cell(b, column, ForintSide)) == y
    ensures Val(Cell(a, column, InvoiceSide)) == z
  {
  }

  lemma ReversalResidue(a: Amounts, b: Amounts, rate: real, stornoRate: real)
    requires Reverses(a, b, rate, stornoRate) && Abs(rate - stornoRate) <= 1.0 / 2_000_000.0
    ensures ResidueBounded(a, b)
  {
    var net, vat, netBack, vatBack :|
      Shows(a, net, vat, rate) && Shows(b, netBack, vatBack, stornoRate) && netBack == -net && vatBack == -vat;
    forall column
      ensures Abs(Val(Cell(a, column, ForintSide)) + Val(Cell(b, column, ForintSide))) <=
              Abs(Val(Cell(a, column, InvoiceSide))) / 2_000_000.0 + Allowance(2, column)
    {
      CellResidue(a, b, net, vat, netBack, vatBack, rate, stornoRate, column);
    }
  }

  // ---------- lines ----------

  function Price(line: Line, side: Side): string {
    if side == InvoiceSide then line.unitPrice else line.unitPriceHUF
  }

  ghost predicate PriceNegated(a: Line, b: Line, side: Side) {
    Val(Price(b, side)) == -Val(Price(a, side))
  }

  /** b reverses a line a: same rate, same quantity, negated unit price, reversed amounts. */
  ghost predicate LineReverses(a: Line, b: Line, rate: real, stornoRate: real) {
    && b.vatPercentage == a.vatPercentage
    && b.quantity == a.quantity
    && (forall side :: side == InvoiceSide || rate == stornoRate ==> PriceNegated(a, b, side))
    && ForintPrices(a, b, rate, stornoRate)
    && Reverses(a.amounts, b.amounts, rate, stornoRate)
  }

  /** The forint unit price is the net, converted at the rate, over the quantity, rounded. */
  predicate ShowsForintPrice(line: Line, net: real, rate: real) {
    line.quantity >= 1 && Val(line.unitPriceHUF) == Round(ToHUF(net, rate) / line.quantity as real) as real
  }

  ghost predicate ForintPrices(a: Line, b: Line, rate: real, stornoRate: real) {
    exists net :: PrintsNet(a, net) && ShowsForintPrice(a, net, rate) && ShowsForintPrice(b, -net, stornoRate)
  }

  predicate PrintsNet(line: Line, net: real) {
    Val(line.amounts.net) == net
  }

  /** What a forint unit price and its reversal leave behind, as a bound on the invoice-currency price. */
  predicate PriceResidueBounded(a: Line, b: Line) {
    a.quantity >= 1 &&
    Abs(Val(a.unitPriceHUF) + Val(b.unitPriceHUF)) <= Abs(Val(a.amounts.net) / a.quantity as real) / 2_000_000.0 + 1.0
  }

  lemma LineShowsPrice(line: InvoiceLine, idx: nat, code: string, rate: real, op: Operation, n: int)
    ensures ShowsForintPrice(LineOf(line, idx, code, rate, op, n), ItemOf(line, code, rate).net, rate)
  {
    ForintValue(ItemOf(line, code, rate).netHUF / MaxInt64(1, line.quantity) as real);
  }

  lemma LinePrintsNet(line: InvoiceLine, idx: nat, code: string, rate: real, op: Operation, n: int)
    ensures PrintsNet(LineOf(line, idx, code, rate, op, n), ItemOf(line, code, rate).net)
  {
    var item := ItemOf(line, code, rate);
    ItemIsWhole(line, code, rate);
    AmountsOfLine(line, idx, code, rate, op, n);
    WholeAmountsPrint(SumsAt(item.net, item.vat, rate), code, NetColumn);
  }

  lemma QuotientBound(a: real, b: real, x: real, limit: real, q: real)
    requires q >= 1.0 && limit > 0.0 && Abs(a + b) <= Abs(x) / limit
    ensures Abs(a / q + b / q) <= Abs(x / q) / limit
  {
    var s, y := (a + b) / q, x / q;
    assert s == a / q + b / q;
    assert s * q == a + b && y * q == x;
    assert Abs(s) * q == Abs(a + b) by { assert (-s) * q == -(a + b); }
    assert (Abs(y) / limit) * q == Abs(x) / limit by { AbsQuotient(x, y, limit, q); }
    ScaleCompare(Abs(y) / limit, Abs(s), q);
  }

  lemma AbsQuotient(x: real, y: real, limit: real, q: real)
    requires q > 0.0 && limit > 0.0 && y * q == x
    ensures (Abs(y) / limit) * q == Abs(x) / limit
  {
    var u, v := Abs(y) / limit, Abs(x) / limit;
    assert u * limit == Abs(y) && v * limit == Abs(x);
    assert Abs(y) * q == Abs(x) by { assert (-y) * q == -x; assert y >= 0.0 ==> y * q >= 0.0; assert y < 0.0 ==> y * q < 0.0; }
    assert (u * limit) * q == (u * q) * limit;
    SameQuotient(u * q, v, limit);
  }

  lemma RoundedPriceGap(net: real, q: real, rate: real, stornoRate: real)
    requires q >= 1.0 && Abs(rate - stornoRate) <= 1.0 / 2_000_000.0
    ensures Abs(Round(ToHUF(net, rate) / q) as real + Round(ToHUF(-net, stornoRate) / q) as real) <=
            Abs(net / q) / 2_000_000.0 + 1.0
  {
    RateGap(net, rate, stornoRate);
    QuotientBound(ToHUF(net, rate), ToHUF(-net, stornoRate), net, 2_000_000.0, q);
    RoundedPair(ToHUF(net, rate) / q, ToHUF(-net, stornoRate) / q);
  }

  lemma PriceResidue(a: Line, b: Line, rate: real, stornoRate: real)
    requires LineReverses(a, b, rate, stornoRate) && Abs(rate - stornoRate) <= 1.0 / 2_000_000.0
    ensures PriceResidueBounded(a, b)
  {
    var net :| PrintsNet(a, net) && ShowsForintPrice(a, net, rate) && ShowsForintPrice(b, -net, stornoRate);
    RoundedPriceGap(net, a.quantity as real, rate, stornoRate);
  }

  lemma RoundToNegates(x: real, back: real, k: nat)
    requires back == -x
    ensures RoundTo(back, k) == -RoundTo(x, k)
  {
    ShiftUpLaws(x, 0.0, k);
    RoundLaws(ShiftUp(x, k));
    ShiftDownLaws(Round(ShiftUp(x, k)) as real, 0.0, k);
  }

  lemma QuotientNegates(x: real, back: real, q: int)
    requires q > 0 && back == -x
    ensures back / q as real == -(x / q as real)
  {
  }

  lemma UnitPriceNegates(x: real, back: real, q: int, code: string)
    requires q > 0 && back == -x
    ensures Val(FormatAmount(back / q as real, code)) == -Val(FormatAmount(x / q as real, code))
  {
    QuotientNegates(x, back, q);
    FormatNegates(x / q as real, back / q as real, code);
  }

  lemma FormatNegates(y: real, z: real, code: string)
    requires z == -y
    ensures Val(FormatAmount(z, code)) == -Val(FormatAmount(y, code))
  {
    var u := PrintsAs(y, code);
    var v := PrintsAs(z, code);
    RoundToNegates(y, z, Precision(code));
  }

  lemma PrintsAs(x: real, code: string) returns (v: real)
    ensures v == Val(FormatAmount(x, code)) == RoundTo(x, Precision(code))
  {
    v := Val(FormatAmount(x, code));
    AmountValue(x, code);
  }

  lemma UnitPriceHUFNegates(x: real, back: real, q: int)
    requires q > 0 && back == -x
    ensures Val(FormatHUF(back / q as real)) == -Val(FormatHUF(x / q as real))
  {
    QuotientNegates(x, back, q);
    ForintNegates(x / q as real, back / q as real);
  }

  lemma ForintNegates(y: real, z: real)
    requires z == -y
    ensures Val(FormatHUF(z)) == -Val(FormatHUF(y))
  {
    ForintValue(y);
    ForintValue(z);
    RoundLaws(y);
  }

  lemma AmountsOfLine(line: InvoiceLine, idx: nat, code: string, rate: real, op: Operation, n: int)
    ensures var item := ItemOf(line, code, rate);
            LineOf(line, idx, code, rate, op, n).amounts == AmountsOf(SumsAt(item.net, item.vat, rate), code)
  {
  }

  lemma ReversedLineAmounts(line: InvoiceLine, idx: nat, stornoIdx: nat, code: string, rate: real, stornoRate: real,
                            op: Operation, n: int, stornoOp: Operation, m: int)
    requires NegatableLine(line)
    ensures Reverses(LineOf(line, idx, code, rate, op, n).amounts,
                     LineOf(FlippedLine(line), stornoIdx, code, stornoRate, stornoOp, m).amounts, rate, stornoRate)
  {
    FlippedItem(line, code, rate, stornoRate);
    ItemIsWhole(line, code, rate);
    AmountsOfLine(line, idx, code, rate, op, n);
    AmountsOfLine(FlippedLine(line), stornoIdx, code, stornoRate, stornoOp, m);
    var a, b := ItemOf(line, code, rate), ItemOf(FlippedLine(line), code, stornoRate);
    AmountsReverse(a.net, a.vat, b.net, b.vat, rate, stornoRate, code);
  }

  lemma ReversedPrice(line: InvoiceLine, idx: nat, stornoIdx: nat, code: string, rate: real, stornoRate: real,
                      op: Operation, n: int, stornoOp: Operation, m: int, side: Side)
    requires NegatableLine(line) && (side == InvoiceSide || rate == stornoRate)
    ensures PriceNegated(LineOf(line, idx, code, rate, op, n),
                         LineOf(FlippedLine(line), stornoIdx, code, stornoRate, stornoOp, m), side)
  {
    var net, netHUF := LinePrices(line, idx, code, rate, op, n);
    var back, backHUF := LinePrices(FlippedLine(line), stornoIdx, code, stornoRate, stornoOp, m);
    FlippedItem(line, code, rate, stornoRate);
    if side == InvoiceSide {
      UnitPriceNegates(net, back, MaxInt64(1, line.quantity), code);
    } else {
      ForintsNegate(net, back, netHUF, backHUF, rate);
      UnitPriceHUFNegates(netHUF, backHUF, MaxInt64(1, line.quantity));
    }
  }

  lemma LinePrices(line: InvoiceLine, idx: nat, code: string, rate: real, op: Operation, n: int)
    returns (net: real, netHUF: real)
    ensures net == ItemOf(line, code, rate).net && netHUF == ToHUF(net, rate)
    ensures var l, q := LineOf(line, idx, code, rate, op, n), MaxInt64(1, line.quantity) as real;
            l.unitPrice == FormatAmount(net / q, code) && l.unitPriceHUF == FormatHUF(netHUF / q)
  {
    net, netHUF := ItemOf(line, code, rate).net, ItemOf(line, code, rate).netHUF;
  }

  lemma ForintsNegate(net: real, back: real, netHUF: real, backHUF: real, rate: real)
    requires back == -net && netHUF == ToHUF(net, rate) && backHUF == ToHUF(back, rate)
    ensures backHUF == -netHUF
  {
    ToHUFNegates(net, rate);
  }

  lemma ReversedForintPrices(line: InvoiceLine, idx: nat, stornoIdx: nat, code: string, rate: real, stornoRate: real,
                             op: Operation, n: int, stornoOp: Operation, m: int)
    requires NegatableLine(line)
    ensures ForintPrices(LineOf(line, idx, code, rate, op, n),
                         LineOf(FlippedLine(line), stornoIdx, code, stornoRate, stornoOp, m), rate, stornoRate)
  {
    var net := FlippedNet(line, code, rate, stornoRate);
    LinePrintsNet(line, idx, code, rate, op, n);
    LineShowsPrice(line, idx, code, rate, op, n);
    LineShowsPrice(FlippedLine(line), stornoIdx, code, stornoRate, stornoOp, m);
    PairForintPrices(LineOf(line, idx, code, rate, op, n),
                     LineOf(FlippedLine(line), stornoIdx, code, stornoRate, stornoOp, m), net, rate, stornoRate);
  }

  lemma FlippedNet(line: InvoiceLine, code: string, rate: real, stornoRate: real) returns (net: real)
    requires NegatableLine(line)
    ensures net == ItemOf(line, code, rate).net && -net == ItemOf(FlippedLine(line), code, stornoRate).net
  {
    FlippedItem(line, code, rate, stornoRate);
    net := ItemOf(line, code, rate).net;
  }

  lemma PairForintPrices(a: Line, b: Line, net: real, rate: real, stornoRate: real)
    requires PrintsNet(a, net) && ShowsForintPrice(a, net, rate) && ShowsForintPrice(b, -net, stornoRate)
    ensures ForintPrices(a, b, rate, stornoRate)
  {
  }

  lemma ReversedLine(line: InvoiceLine, idx: nat, stornoIdx: nat, code: string, rate: real, stornoRate: real,
                     op: Operation, n: int, stornoOp: Operation, m: int)
    requires NegatableLine(line)
    ensures LineReverses(LineOf(line, idx, code, rate, op, n),
                         LineOf(FlippedLine(line), stornoIdx, code, stornoRate, stornoOp, m), rate, stornoRate)
  {
    FlippedItem(line, code, rate, stornoRate);
    ReversedForintPrices(line, idx, stornoIdx, code, rate, stornoRate, op, n, stornoOp, m);
    ReversedLineAmounts(line, idx, stornoIdx, code, rate, stornoRate, op, n, stornoOp, m);
    forall side | side == InvoiceSide || rate == stornoRate
      ensures PriceNegated(LineOf(line, idx, code, rate, op, n),
                           LineOf(FlippedLine(line), stornoIdx, code, stornoRate, stornoOp, m), side)
    {
      ReversedPrice(line, idx, stornoIdx, code, rate, stornoRate, op, n, stornoOp, m, side);
    }
  }

  /** The positions of the entries that are not null. */
  function Sources(data: seq<Option<InvoiceLine>>): (r: seq<nat>)
    ensures forall k :: 0 <= k < |r| ==> r[k] < |data| && data[r[k]].Some?
  {
    if data == [] then []
    else
      var last := |data| - 1;
      Sources(data[..last]) + if data[last].None? then [] else [last]
  }

  /** The k-th emitted line is made of the k-th entry that is not null. */
  lemma {:induction false} LineAt(data: seq<Option<InvoiceLine>>, code: string, rate: real, op: Operation, n: int, k: nat)
    requires k < |Sources(data)|
    ensures |LinesOf(data, code, rate, op, n)| == |Sources(data)|
    ensures var i := Sources(data)[k];
            LinesOf(data, code, rate, op, n)[k] == LineOf(data[i].value, i, code, rate, op, n)
    decreases |data|
  {
    var last := |data| - 1;
    SourceCount(data, code, rate, op, n);
    SourceCount(data[..last], code, rate, op, n);
    if k < |Sources(data[..last])| {
      LineAt(data[..last], code, rate, op, n, k);
    }
  }

  lemma {:induction false} SourceCount(data: seq<Option<InvoiceLine>>, code: string, rate: real, op: Operation, n: int)
    ensures |LinesOf(data, code, rate, op, n)| == |Sources(data)|
    ensures |ItemsOf(data, code, rate)| == |Sources(data)|
  {
    if data != [] {
      SourceCount(data[..|data| - 1], code, rate, op, n);
    }
  }

  /** So is the k-th line of the clone, which has no null entries left. */
  lemma {:induction false} FlippedAt(data: seq<Option<InvoiceLine>>, k: nat)
    requires k < |Sources(data)|
    ensures |FlippedLines(data)| == |Sources(data)|
    ensures FlippedLines(data)[k] == Some(FlippedLine(data[Sources(data)[k]].value))
    decreases |data|
  {
    var last := |data| - 1;
    FlippedCount(data);
    FlippedCount(data[..last]);
    if k < |Sources(data[..last])| {
      FlippedAt(data[..last], k);
    }
  }

  lemma {:induction false} FlippedCount(data: seq<Option<InvoiceLine>>)
    ensures |FlippedLines(data)| == |Sources(data)|
    ensures forall k :: 0 <= k < |FlippedLines(data)| ==> FlippedLines(data)[k].Some?
  {
    if data != [] {
      FlippedCount(data[..|data| - 1]);
    }
  }

  lemma {:induction false} NoNulls(data: seq<Option<InvoiceLine>>)
    requires forall i :: 0 <= i < |data| ==> data[i].Some?
    ensures |Sources(data)| == |data| && forall k :: 0 <= k < |data| ==> Sources(data)[k] == k
  {
    if data != [] {
      NoNulls(data[..|data| - 1]);
    }
  }

  lemma StornoLineCount(data: seq<Option<InvoiceLine>>, code: string, rate: real, stornoRate: real,
                        op: Operation, n: int, m: int)
    ensures |LinesOf(FlippedLines(data), code, stornoRate, StornoOp, m)| == |LinesOf(data, code, rate, op, n)|
    ensures |ItemsOf(FlippedLines(data), code, stornoRate)| == |ItemsOf(data, code, rate)| == |FlippedLines(data)|
  {
    FlippedCount(data);
    NoNulls(FlippedLines(data));
    SourceCount(data, code, rate, op, n);
    SourceCount(FlippedLines(data), code, stornoRate, StornoOp, m);
  }

  /** The k-th lines of both documents come from one entry of the invoice. */
  lemma SourceLines(data: seq<Option<InvoiceLine>>, code: string, rate: real, stornoRate: real,
                    op: Operation, n: int, m: int, i: nat, k: nat)
    requires k < |Sources(data)| && Sources(data)[k] == i
    ensures k < |LinesOf(data, code, rate, op, n)| == |LinesOf(FlippedLines(data), code, stornoRate, StornoOp, m)|
    ensures LinesOf(data, code, rate, op, n)[k] == LineOf(data[i].value, i, code, rate, op, n)
    ensures LinesOf(FlippedLines(data), code, stornoRate, StornoOp, m)[k] ==
            LineOf(FlippedLine(data[i].value), k, code, stornoRate, StornoOp, m)
  {
    StornoLineCount(data, code, rate, stornoRate, op, n, m);
    SourceCount(data, code, rate, op, n);
    FlippedCount(data);
    NoNulls(FlippedLines(data));
    FlippedAt(data, k);
    LineAt(data, code, rate, op, n, k);
    LineAt(FlippedLines(data), code, stornoRate, StornoOp, m, k);
  }

  /** The storno's k-th line reverses the original's k-th line. */
  lemma ReversedAt(data: seq<Option<InvoiceLine>>, code: string, rate: real, stornoRate: real,
                   op: Operation, n: int, m: int, k: nat)
    requires Negatable(data) && k < |Sources(data)|
    ensures k < |LinesOf(data, code, rate, op, n)| == |LinesOf(FlippedLines(data), code, stornoRate, StornoOp, m)|
    ensures LineReverses(LinesOf(data, code, rate, op, n)[k],
                         LinesOf(FlippedLines(data), code, stornoRate, StornoOp, m)[k], rate, stornoRate)
  {
    var i := Sources(data)[k];
    SourceLines(data, code, rate, stornoRate, op, n, m, i, k);
    ReversedLine(data[i].value, i, k, code, rate, stornoRate, op, n, StornoOp, m);
  }

  // ---------- rows and totals ----------

  ghost predicate Mirrors(items: seq<Item>, storno: seq<Item>, rate: real, stornoRate: real, code: string) {
    && |storno| == |items|
    && forall k :: 0 <= k < |items| ==> MirrorsItem(items[k], storno[k], rate, stornoRate, code)
  }

  ghost predicate MirrorsItem(a: Item, b: Item, rate: real, stornoRate: real, code: string) {
    && b.key == a.key && b.net == -a.net && b.vat == -a.vat
    && a.netHUF == ToHUF(a.net, rate) && a.vatHUF == ToHUF(a.vat, rate)
    && b.netHUF == ToHUF(b.net, stornoRate) && b.vatHUF == ToHUF(b.vat, stornoRate)
    && WholeItem(a, code)
  }

  lemma MirroredItem(line: InvoiceLine, code: string, rate: real, stornoRate: real)
    requires NegatableLine(line)
    ensures MirrorsItem(ItemOf(line, code, rate), ItemOf(FlippedLine(line), code, stornoRate), rate, stornoRate, code)
  {
    FlippedItem(line, code, rate, stornoRate);
    ItemIsWhole(line, code, rate);
  }

  /** The last item and its mirror image. */
  lemma LastMirrored(data: seq<Option<InvoiceLine>>, code: string, rate: real, stornoRate: real)
    returns (a: Item, b: Item)
    requires data != [] && data[|data| - 1].Some? && NegatableLine(data[|data| - 1].value)
    ensures var front := data[..|data| - 1];
            && ItemsOf(data, code, rate) == ItemsOf(front, code, rate) + [a]
            && ItemsOf(FlippedLines(data), code, stornoRate) == ItemsOf(FlippedLines(front), code, stornoRate) + [b]
    ensures MirrorsItem(a, b, rate, stornoRate, code)
  {
    var line, front := data[|data| - 1].value, FlippedLines(data[..|data| - 1]);
    a, b := ItemOf(line, code, rate), ItemOf(FlippedLine(line), code, stornoRate);
    assert (front + [Some(FlippedLine(line))])[..|front|] == front;
    MirroredItem(line, code, rate, stornoRate);
  }

  lemma {:induction false} MirroredItems(data: seq<Option<InvoiceLine>>, code: string, rate: real, stornoRate: real)
    requires Negatable(data)
    ensures Mirrors(ItemsOf(data, code, rate), ItemsOf(FlippedLines(data), code, stornoRate), rate, stornoRate, code)
  {
    if data != [] {
      var last := |data| - 1;
      MirroredItems(data[..last], code, rate, stornoRate);
      if data[last].Some? {
        var a, b := LastMirrored(data, code, rate, stornoRate);
      } else {
        assert FlippedLines(data) == FlippedLines(data[..last]);
      }
    }
  }

  lemma {:induction false} MirroredUnder(items: seq<Item>, storno: seq<Item>, rate: real, stornoRate: real,
                                         code: string, key: string)
    requires Mirrors(items, storno, rate, stornoRate, code)
    ensures Mirrors(Under(items, key), Under(storno, key), rate, stornoRate, code)
    decreases |items|
  {
    if items != [] {
      var n := |items| - 1;
      MirroredUnder(items[..n], storno[..n], rate, stornoRate, code, key);
      assert MirrorsItem(items[n], storno[n], rate, stornoRate, code);
    }
  }

  lemma MirroredKeys(items: seq<Item>, storno: seq<Item>, rate: real, stornoRate: real, code: string)
    requires Mirrors(items, storno, rate, stornoRate, code)
    ensures Keys(items) == Keys(storno)
  {
    forall key | key in Keys(items)
      ensures key in Keys(storno)
    {
      var i :| 0 <= i < |items| && items[i].key == key;
      assert MirrorsItem(items[i], storno[i], rate, stornoRate, code);
      assert storno[i].key == key;
    }
    forall key | key in Keys(storno)
      ensures key in Keys(items)
    {
      var i :| 0 <= i < |storno| && storno[i].key == key;
      assert MirrorsItem(items[i], storno[i], rate, stornoRate, code);
      assert items[i].key == key;
    }
  }

  ghost predicate AtRate(items: seq<Item>, rate: real) {
    forall k :: 0 <= k < |items| ==>
      items[k].netHUF == ToHUF(items[k].net, rate) && items[k].vatHUF == ToHUF(items[k].vat, rate)
  }

  /** Converting every line at one rate converts their sum at that rate. */
  lemma {:induction false} SumIsAtRate(items: seq<Item>, rate: real)
    requires AtRate(items, rate)
    ensures TotalSums(items) == SumsAt(Total(items, NetFC), Total(items, VatFC), rate)
    decreases |items|
  {
    if items != [] {
      var n := |items| - 1;
      SumIsAtRate(items[..n], rate);
      ToHUFAdds(Total(items[..n], NetFC), items[n].net, rate);
      ToHUFAdds(Total(items[..n], VatFC), items[n].vat, rate);
    }
  }

  lemma {:induction false} NegatedTotals(items: seq<Item>, storno: seq<Item>, rate: real, stornoRate: real, code: string)
    requires Mirrors(items, storno, rate, stornoRate, code)
    ensures Total(storno, NetFC) == -Total(items, NetFC) && Total(storno, VatFC) == -Total(items, VatFC)
    decreases |items|
  {
    if items != [] {
      var n := |items| - 1;
      NegatedTotals(items[..n], storno[..n], rate, stornoRate, code);
      assert MirrorsItem(items[n], storno[n], rate, stornoRate, code);
    }
  }

  lemma MirroredTotals(items: seq<Item>, storno: seq<Item>, rate: real, stornoRate: real, code: string)
    requires Mirrors(items, storno, rate, stornoRate, code)
    ensures var net, vat := Total(items, NetFC), Total(items, VatFC);
            var netBack, vatBack := Total(storno, NetFC), Total(storno, VatFC);
            && Whole(net, code) && Whole(vat, code) && netBack == -net && vatBack == -vat
            && TotalSums(items) == SumsAt(net, vat, rate) && TotalSums(storno) == SumsAt(netBack, vatBack, stornoRate)
  {
    forall k | 0 <= k < |items|
      ensures MirrorsItem(items[k], storno[k], rate, stornoRate, code)
    {
    }
    TotalsAreWhole(items, code);
    NegatedTotals(items, storno, rate, stornoRate, code);
    SumIsAtRate(items, rate);
    SumIsAtRate(storno, stornoRate);
  }

  lemma MirroredSums(items: seq<Item>, storno: seq<Item>, rate: real, stornoRate: real, code: string)
    requires Mirrors(items, storno, rate, stornoRate, code)
    ensures Reverses(AmountsOf(TotalSums(items), code), AmountsOf(TotalSums(storno), code),
                     rate, stornoRate)
  {
    MirroredTotals(items, storno, rate, stornoRate, code);
    AmountsReverse(Total(items, NetFC), Total(items, VatFC), Total(storno, NetFC), Total(storno, VatFC),
                   rate, stornoRate, code);
  }

  /** Same rates in the same order, every row reversed, totals reversed. */
  ghost predicate SummaryReverses(a: Summary, b: Summary, rate: real, stornoRate: real) {
    && |b.rows| == |a.rows|
    && (forall i :: 0 <= i < |a.rows| ==>
          && b.rows[i].vatPercentage == a.rows[i].vatPercentage
          && Reverses(a.rows[i].amounts, b.rows[i].amounts, rate, stornoRate))
    && Reverses(a.totals, b.totals, rate, stornoRate)
  }

  lemma ReversedSummary(a: Summary, items: seq<Item>, b: Summary, storno: seq<Item>, code: string,
                        rate: real, stornoRate: real)
    requires IsSummary(a, items, code) && IsSummary(b, storno, code)
    requires Mirrors(items, storno, rate, stornoRate, code)
    ensures SummaryReverses(a, b, rate, stornoRate)
  {
    var keys := SummaryKeys(a, items, code);
    var stornoKeys := SummaryKeys(b, storno, code);
    MirroredKeys(items, storno, rate, stornoRate, code);
    AscendingUnique(keys, stornoKeys);
    forall i | 0 <= i < |a.rows|
      ensures Reverses(a.rows[i].amounts, b.rows[i].amounts, rate, stornoRate)
    {
      MirroredUnder(items, storno, rate, stornoRate, code, keys[i]);
      MirroredSums(Under(items, keys[i]), Under(storno, keys[i]), rate, stornoRate, code);
    }
    MirroredSums(items, storno, rate, stornoRate, code);
  }
}
