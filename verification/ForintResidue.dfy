/**
 Forints that a storno does not cancel. The clone is converted at the rate its
 original prints, which has six decimals; at a longer rate the two conversions
 differ, and an invoice with a large enough total shows it.
 */
module ForintResidue {
  import opened Wrappers
  import opened Documents
  import opened Decimals
  import opened Currency
  import opened Invoices
  import opened Mapping
  import opened Mapper
  import opened Conservation
  import opened Reversals
  import opened StornoLaws
  import opened Determinism
  import opened Rates

  // ---------- an amount on which two rates differ ----------

  lemma LargeMultiple(gap: real) returns (units: int)
    requires gap != 0.0
    ensures ToHUF(units as real, gap) > 1.0
  {
    Inverse(gap);
    if gap > 0.0 {
      units := (1.0 / gap).Floor + 1;
      Beyond(1.0 / gap, units as real, gap);
    } else {
      units := (1.0 / gap).Floor - 1;
      Beyond(-(1.0 / gap), -(units as real), -gap);
      assert ToHUF(-(units as real), -gap) == ToHUF(units as real, gap);
    }
  }

  lemma Inverse(gap: real)
    requires gap != 0.0
    ensures (1.0 / gap) * gap == 1.0
  {
  }

  lemma Beyond(reach: real, x: real, gap: real)
    requires gap > 0.0 && reach * gap == 1.0 && x > reach
    ensures ToHUF(x, gap) > 1.0
  {
    assert (x - reach) * gap > 0.0;
    assert (x - reach) * gap == ToHUF(x, gap) - reach * gap;
  }

  lemma GapShows(x: real, y: real, rate: real, stornoRate: real, gap: real)
    requires y == -x && gap == rate - stornoRate && ToHUF(x, gap) > 1.0
    ensures Round(ToHUF(y, stornoRate)) != -Round(ToHUF(x, rate))
  {
    var p, q := ToHUF(x, rate), ToHUF(y, stornoRate);
    assert p + q == ToHUF(x, gap);
    RoundsApart(p, q);
  }

  lemma RoundsApart(p: real, q: real)
    requires p + q > 1.0
    ensures Round(q) != -Round(p)
  {
  }

  // ---------- an invoice that adds up to it ----------

  /** One line of one currency unit, or of minus one. */
  function UnitLine(code: string, down: bool): InvoiceLine {
    InvoiceLine("", if down then -CurrencyMinorScale(code) else CurrencyMinorScale(code), 1, [])
  }

  /** Lines that add up to a whole number of currency units. */
  function UnitLines(code: string, units: int): seq<Option<InvoiceLine>> {
    seq(if units < 0 then -units else units, _ => Some(UnitLine(code, units < 0)))
  }

  lemma UnitItem(code: string, down: bool, rate: real)
    ensures ItemOf(UnitLine(code, down), code, rate).net == if down then -1.0 else 1.0
  {
  }

  lemma {:induction false} UnitsAddUp(data: seq<Option<InvoiceLine>>, code: string, down: bool, rate: real)
    requires forall i :: 0 <= i < |data| ==> data[i] == Some(UnitLine(code, down))
    ensures Negatable(data)
    ensures Total(ItemsOf(data, code, rate), NetFC) == if down then -(|data| as real) else |data| as real
  {
    if data != [] {
      var front := data[..|data| - 1];
      UnitsAddUp(front, code, down, rate);
      UnitItem(code, down, rate);
      TotalAppend(ItemsOf(front, code, rate), ItemOf(UnitLine(code, down), code, rate), NetFC);
    }
  }

  // ---------- the totals of its document and of its storno ----------

  /** The printed forint net of lines converted one by one is their sum, converted. */
  lemma NetTotal(summary: Summary, items: seq<Item>, code: string, rate: real)
    requires IsSummary(summary, items, code) && AtRate(items, rate)
    ensures summary.totals.netHUF == FormatHUF(ToHUF(Total(items, NetFC), rate))
  {
    var keys := SummaryKeys(summary, items, code);
    SumIsAtRate(items, rate);
  }

  lemma BothAtTheirRates(data: seq<Option<InvoiceLine>>, code: string, rate: real, stornoRate: real)
    requires Negatable(data)
    ensures var items, flipped := ItemsOf(data, code, rate), ItemsOf(FlippedLines(data), code, stornoRate);
            && AtRate(items, rate) && AtRate(flipped, stornoRate)
            && Total(flipped, NetFC) == -Total(items, NetFC)
  {
    var items, flipped := ItemsOf(data, code, rate), ItemsOf(FlippedLines(data), code, stornoRate);
    MirroredItems(data, code, rate, stornoRate);
    NegatedTotals(items, flipped, rate, stornoRate, code);
    forall k | 0 <= k < |items|
      ensures MirrorsItem(items[k], flipped[k], rate, stornoRate, code)
    {
    }
  }

  /** The sum of an invoice's exact nets. */
  function NetOf(inv: Invoice, opts: MapOptions): real
    requires Refusal(inv, opts).None?
  {
    Total(ItemsOf(inv.lines.value.data, DocCode(inv), RateOf(inv, opts).value), NetFC)
  }

  /** The forint net total of an invoice and that of its storno: one exact net, converted at two rates. */
  lemma ForintTotals(orig: InvoiceData, inv: Invoice, opts: MapOptions, storno: InvoiceData, now: int)
    returns (net: real, negated: real)
    requires IsReversal(orig, inv, opts, storno, now) && Negatable(inv.lines.value.data)
    ensures net == NetOf(inv, opts) && negated == -net
    ensures orig.summary.totals.netHUF == FormatHUF(ToHUF(net, RateOf(inv, opts).value))
    ensures storno.summary.totals.netHUF == FormatHUF(ToHUF(negated, StornoRate(inv, opts)))
  {
    ReversalMapping(orig, inv, opts, storno, now);
    var data, code := inv.lines.value.data, DocCode(inv);
    var rate, stornoRate := RateOf(inv, opts).value, StornoRate(inv, opts);
    var items, flipped := ItemsOf(data, code, rate), ItemsOf(FlippedLines(data), code, stornoRate);
    BothAtTheirRates(data, code, rate, stornoRate);
    NetTotal(orig.summary, items, code, rate);
    NetTotal(storno.summary, flipped, code, stornoRate);
    net, negated := Total(items, NetFC), Total(flipped, NetFC);
  }

  lemma TotalsNotOpposite(orig: Amounts, storno: Amounts, net: real, negated: real, rate: real, stornoRate: real,
                          gap: real)
    requires orig.netHUF == FormatHUF(ToHUF(net, rate)) && storno.netHUF == FormatHUF(ToHUF(negated, stornoRate))
    requires negated == -net && gap == rate - stornoRate && ToHUF(net, gap) > 1.0
    ensures Val(Cell(storno, NetColumn, ForintSide)) != -Val(Cell(orig, NetColumn, ForintSide))
  {
    GapShows(net, negated, rate, stornoRate, gap);
    ForintValue(ToHUF(net, rate));
    ForintValue(ToHUF(negated, stornoRate));
  }

  lemma UnlikeTotals(orig: InvoiceData, storno: InvoiceData)
    requires Val(Cell(storno.summary.totals, NetColumn, ForintSide)) !=
             -Val(Cell(orig.summary.totals, NetColumn, ForintSide))
    ensures !Cancels(orig, storno, ForintSide)
  {
    assert !Opposite(orig.summary.totals, storno.summary.totals, ForintSide);
  }

  /** A net on which the two rates differ by more than a forint is not cancelled. */
  lemma GapIsNotCancelled(orig: InvoiceData, inv: Invoice, opts: MapOptions, storno: InvoiceData, now: int,
                          net: real, gap: real)
    requires IsReversal(orig, inv, opts, storno, now) && Negatable(inv.lines.value.data)
    requires net == NetOf(inv, opts) && gap == RateOf(inv, opts).value - StornoRate(inv, opts)
    requires ToHUF(net, gap) > 1.0
    ensures !Cancels(orig, storno, ForintSide)
  {
    var total, negated := ForintTotals(orig, inv, opts, storno, now);
    TotalsNotOpposite(orig.summary.totals, storno.summary.totals, total, negated, RateOf(inv, opts).value,
                      StornoRate(inv, opts), gap);
    UnlikeTotals(orig, storno);
  }

  /**
   Every invoice in a currency that is accepted at a rate, with no amount that
   overflows when negated, is cancelled in forints by its storno.
   */
  ghost predicate ForintsAlwaysCancel(currency: string, rate: real) {
    forall orig, inv, opts, storno, now ::
      (&& IsReversal(orig, inv, opts, storno, now) && Negatable(inv.lines.value.data)
       && inv.currency == currency && RateOf(inv, opts) == Some(rate)) ==>
        Cancels(orig, storno, ForintSide)
  }

  /** An accepted invoice whose net the two conversions tell apart by more than a forint. */
  lemma TellingInvoice(currency: string, text: string, rate: real) returns (inv: Invoice, net: real, gap: real)
    requires currency != "" && !Lossless(rate)
    requires RateOf(InvoiceIn(currency, []), SomeOptions(text)) == Some(rate)
    ensures inv.currency == currency && RateOf(inv, SomeOptions(text)) == Some(rate)
    ensures Refusal(inv, SomeOptions(text)).None? && Negatable(inv.lines.value.data)
    ensures net == NetOf(inv, SomeOptions(text)) && gap == rate - StornoRate(inv, SomeOptions(text))
    ensures ToHUF(net, gap) > 1.0
  {
    OneIsLossless();
    RoundedRate(rate);
    gap := rate - RoundTo(rate, 6);
    var units := LargeMultiple(gap);
    assert units != 0;
    net := units as real;
    var data := UnitLines(ToUpper(currency), units);
    inv := InvoiceIn(currency, data);
    InvoiceMaps(currency, data, text);
    UnitsAddUp(data, ToUpper(currency), units < 0, rate);
  }

  lemma OneIsLossless()
    ensures Lossless(1.0)
  {
    assert 1.0 == Millionths(1_000_000);
  }

  /** At a rate with more than six decimals, an accepted invoice whose storno leaves forints behind. */
  lemma LongRateFails(currency: string, text: string, rate: real)
    returns (inv: Invoice, orig: InvoiceData, storno: InvoiceData)
    requires currency != "" && !Lossless(rate)
    requires RateOf(InvoiceIn(currency, []), SomeOptions(text)) == Some(rate)
    ensures IsReversal(orig, inv, SomeOptions(text), storno, 1) && Negatable(inv.lines.value.data)
    ensures inv.currency == currency && RateOf(inv, SomeOptions(text)) == Some(rate)
    ensures !Cancels(orig, storno, ForintSide)
  {
    var net, gap;
    inv, net, gap := TellingInvoice(currency, text, rate);
    orig, storno := ReversalExists(inv, SomeOptions(text), 1);
    GapIsNotCancelled(orig, inv, SomeOptions(text), storno, 1, net, gap);
  }

  /** So at a given rate every storno cancels in forints exactly when the rate has at most six decimals. */
  lemma ForintsAlwaysCancelIff(currency: string, text: string, rate: real)
    requires currency != "" && RateOf(InvoiceIn(currency, []), SomeOptions(text)) == Some(rate)
    ensures ForintsAlwaysCancel(currency, rate) <==> Lossless(rate)
  {
    if Lossless(rate) {
      forall orig, inv, opts, storno, now |
        && IsReversal(orig, inv, opts, storno, now) && Negatable(inv.lines.value.data)
        && inv.currency == currency && RateOf(inv, opts) == Some(rate)
        ensures Cancels(orig, storno, ForintSide)
      {
        StornoCancelsForints(orig, inv, opts, storno, now);
      }
    } else {
      var inv, orig, storno := LongRateFails(currency, text, rate);
    }
  }

  // ---------- one line is enough ----------

  const LONG_RATE: string := "400.0000005"

  function SevenPlaces(n: int): real {
    n as real / 10_000_000.0
  }

  lemma NumberSnoc(digits: string, c: char)
    requires AllDigits(digits) && IsDigit(c)
    ensures AllDigits(digits + [c]) && Number(digits + [c]) == 10 * Number(digits) + DigitValue(c)
  {
    assert (digits + [c])[..|digits|] == digits;
  }

  lemma NatStringSnoc(n: nat, d: nat)
    requires n > 0 && d < 10
    ensures NatString(10 * n + d) == NatString(n) + [DigitChar(d)]
  {
  }

  lemma FourHundred()
    ensures AllDigits("400") && Number("400") == 400
  {
    NumberSnoc("", '4');
    assert "" + ['4'] == "4";
    NumberSnoc("4", '0');
    assert "4" + ['0'] == "40";
    NumberSnoc("40", '0');
    assert "40" + ['0'] == "400";
  }

  lemma TrailingFive()
    ensures AllDigits("0000005") && Number("0000005") == 5
  {
    NumberSnoc("", '5');
    assert "" + ['5'] == "5";
    NumberOfZeros(6, "5");
    assert Zeros(6) + "5" == "0000005";
  }

  lemma PointMoved(x: int)
    ensures ShiftDown(x as real, 7) == SevenPlaces(x) && Shifted(x, 7) == 10_000_000 * x
  {
    SixPlaces(x as real);
    assert Shifted(x, 1) == 10 * x;
    assert Shifted(x, 2) == 100 * x;
    assert Shifted(x, 3) == 1_000 * x;
    assert Shifted(x, 4) == 10_000 * x;
    assert Shifted(x, 5) == 100_000 * x;
    assert Shifted(x, 6) == 1_000_000 * x;
  }

  /** A rate written with seven decimals. */
  lemma SevenDecimals(whole: string, frac: string, q: nat, r: nat)
    requires AllDigits(whole) && AllDigits(frac) && |whole| > 0 && |frac| == 7
    requires Number(whole) == q && Number(frac) == r
    ensures ParseDecimal(whole + ("." + frac)) == Some(SevenPlaces(10_000_000 * q + r))
  {
    var x := 10_000_000 * q + r;
    PointMoved(q);
    PointMoved(x);
    ParseNumbers(whole, frac, q, r);
    assert (whole + ("." + frac))[0] == whole[0] && whole[0] in whole;
  }

  lemma LongRateParses()
    ensures ParseDecimal(LONG_RATE) == Some(SevenPlaces(4_000_000_005))
  {
    FourHundred();
    TrailingFive();
    SevenDecimals("400", "0000005", 400, 5);
    assert "400" + ("." + "0000005") == LONG_RATE;
  }

  lemma LongRatePrinted()
    ensures RoundTo(SevenPlaces(4_000_000_005), 6) == Millionths(400_000_001)
  {
    var rate := SevenPlaces(4_000_000_005);
    assert ShiftUp(rate, 6) == 400_000_000.5;
    assert Round(400_000_000.5) == 400_000_001;
    SixPlaces(400_000_001.0);
  }

  lemma CentNet(line: InvoiceLine, code: string, rate: real)
    requires line.taxes == [] && !ZeroDecimal(code)
    ensures ItemOf(line, code, rate).net == line.amount as real / 100.0
  {
    assert VatOf(line.taxes, code) == 0.0 && !AnyInclusive(line.taxes);
    assert CurrencyMinorScale(code) == 100;
  }

  /** The single line of a net in whole cents. */
  lemma OneNet(line: InvoiceLine, code: string, rate: real)
    requires line.taxes == [] && !ZeroDecimal(code)
    ensures Total(ItemsOf([Some(line)], code, rate), NetFC) == line.amount as real / 100.0
  {
    var item := ItemOf(line, code, rate);
    CentNet(line, code, rate);
    assert [Some(line)][..0] == [] && [item][..0] == [];
    assert ItemsOf([Some(line)], code, rate) == [item];
    assert Total([item], NetFC) == item.net;
  }

  /** The digits of a number in front of the digits that follow them. */
  lemma {:induction false} Extended(n: nat, rest: string, m: nat)
    requires n > 0 && AllDigits(rest) && m == Shifted(n, |rest|) + Number(rest)
    ensures NatString(m) == NatString(n) + rest
    decreases |rest|
  {
    if rest == [] {
      assert NatString(n) + rest == NatString(n);
    } else {
      var front, d := rest[..|rest| - 1], DigitValue(rest[|rest| - 1]);
      var before := Shifted(n, |front|) + Number(front);
      Extended(n, front, before);
      NatStringSnoc(before, d);
      assert rest == front + [DigitChar(d)];
    }
  }

  lemma TwelveHundredMillion(n: nat, d: nat)
    requires d < 10 && n == 1_200_000_000 + d
    ensures NatString(n) == ['1', '2', '0', '0', '0', '0', '0', '0', '0', DigitChar(d)]
  {
    var twelve: nat := 12;
    NatStringSnoc(1, 2);
    assert NatString(1) == ['1'];
    var rest := Zeros(7) + [DigitChar(d)];
    LastDigit(d);
    assert Shifted(twelve, 8) == 1_200_000_000;
    Extended(twelve, rest, n);
    assert Zeros(7) == ['0', '0', '0', '0', '0', '0', '0'];
  }

  lemma LastDigit(d: nat)
    requires d < 10
    ensures |Zeros(7) + [DigitChar(d)]| == 8 && Number(Zeros(7) + [DigitChar(d)]) == d
  {
    NumberSnoc("", DigitChar(d));
    assert "" + [DigitChar(d)] == [DigitChar(d)];
    NumberOfZeros(7, [DigitChar(d)]);
  }

  lemma OriginalForints(net: real, rate: real)
    requires net == 3_000_000.0 && rate == SevenPlaces(4_000_000_005)
    ensures FormatHUF(ToHUF(net, rate)) == "1200000002"
  {
    assert ToHUF(net, rate) == 1_200_000_001.5;
    var n: nat := Round(ToHUF(net, rate));
    TwelveHundredMillion(n, 2);
  }

  lemma StornoForints(net: real, rate: real)
    requires net == -3_000_000.0 && rate == Millionths(400_000_001)
    ensures FormatHUF(ToHUF(net, rate)) == "-1200000003"
  {
    assert ToHUF(net, rate) == -1_200_000_003.0;
    var n: nat := -Round(ToHUF(net, rate));
    TwelveHundredMillion(n, 3);
  }

  const LARGE_LINE: InvoiceLine := InvoiceLine("Item", 300_000_000, 1, [])

  lemma LargeRates()
    ensures var inv, opts := EuroInvoice([Some(LARGE_LINE)]), SomeOptions(LONG_RATE);
            && Refusal(inv, opts).None? && Negatable([Some(LARGE_LINE)])
            && RateOf(inv, opts) == Some(SevenPlaces(4_000_000_005))
            && StornoRate(inv, opts) == Millionths(400_000_001)
  {
    EurosUpper();
    LongRateParses();
    LongRatePrinted();
    assert ToUpper("eur")[0] != "HUF"[0];
    InvoiceMaps("eur", [Some(LARGE_LINE)], LONG_RATE);
  }

  lemma LargeInvoice()
    ensures var inv, opts := EuroInvoice([Some(LARGE_LINE)]), SomeOptions(LONG_RATE);
            && Refusal(inv, opts).None? && NetOf(inv, opts) == 3_000_000.0 && Negatable([Some(LARGE_LINE)])
            && RateOf(inv, opts) == Some(SevenPlaces(4_000_000_005))
            && StornoRate(inv, opts) == Millionths(400_000_001)
  {
    LargeRates();
    EurosUpper();
    EuroHasCents();
    OneNet(LARGE_LINE, "EUR", RateOf(EuroInvoice([Some(LARGE_LINE)]), SomeOptions(LONG_RATE)).value);
  }

  /** 3,000,000.00 euros at 400.0000005: forints 1,200,000,002 on the invoice and -1,200,000,003 on its storno. */
  lemma OneLineLeavesAForint() returns (orig: InvoiceData, storno: InvoiceData)
    ensures IsReversal(orig, EuroInvoice([Some(LARGE_LINE)]), SomeOptions(LONG_RATE), storno, 1)
    ensures orig.summary.totals.netHUF == "1200000002" && storno.summary.totals.netHUF == "-1200000003"
  {
    var inv, opts := EuroInvoice([Some(LARGE_LINE)]), SomeOptions(LONG_RATE);
    LargeInvoice();
    orig, storno := ReversalExists(inv, opts, 1);
    var net, negated := ForintTotals(orig, inv, opts, storno, 1);
    OriginalForints(net, SevenPlaces(4_000_000_005));
    StornoForints(negated, Millionths(400_000_001));
  }
}
