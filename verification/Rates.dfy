/** When the rate a summary row is filed under is also the rate of the row's own sums. */
module Rates {
  import opened Wrappers
  import opened Documents
  import opened Decimals
  import opened Currency
  import opened Invoices
  import opened Mapping
  import opened Mapper
  import opened Conservation
  import opened Determinism

  function Ratio(item: Item): real {
    RatePct(item.net, item.vat)
  }

  /** The two ratios, and the ratio of the sums between them, when both bases are positive. */
  lemma Mediant(n1: real, v1: real, n2: real, v2: real)
    requires n1 > 0.0 && n2 > 0.0 && v1 / n1 <= v2 / n2
    ensures v1 / n1 <= (v1 + v2) / (n1 + n2) <= v2 / n2
  {
    var a, b, c := v1 / n1, v2 / n2, (v1 + v2) / (n1 + n2);
    assert a * n1 == v1 && b * n2 == v2 && c * (n1 + n2) == v1 + v2;
    MediantBetween(a, b, c, n1, n2);
  }

  lemma MediantBetween(a: real, b: real, c: real, n1: real, n2: real)
    requires n1 > 0.0 && n2 > 0.0 && a <= b && c * (n1 + n2) == a * n1 + b * n2
    ensures a <= c <= b
  {
    assert (c - a) * (n1 + n2) == (b - a) * n2;
    assert (b - c) * (n1 + n2) == (b - a) * n1;
    assert (b - a) * n2 >= 0.0 && (b - a) * n1 >= 0.0;
    ScaleCompare(c - a, 0.0, n1 + n2);
    ScaleCompare(b - c, 0.0, n1 + n2);
  }

  /** Adding one line printed at some rate to sums printed at that rate leaves the printed rate as it was. */
  lemma PositiveStep(n1: real, v1: real, n2: real, v2: real, key: string)
    requires n1 > 0.0 && n2 > 0.0
    requires FloatString(v1 / n1, 2) == key && FloatString(v2 / n2, 2) == key
    ensures FloatString((v1 + v2) / (n1 + n2), 2) == key
  {
    if v1 / n1 <= v2 / n2 {
      Mediant(n1, v1, n2, v2);
      PrintsConvex(v1 / n1, (v1 + v2) / (n1 + n2), v2 / n2, 2);
    } else {
      Mediant(n2, v2, n1, v1);
      PrintsConvex(v2 / n2, (v2 + v1) / (n2 + n1), v1 / n1, 2);
    }
  }

  lemma NegatedRatio(n: real, v: real)
    requires n != 0.0
    ensures (-v) / (-n) == v / n
  {
    var a, b := (-v) / (-n), v / n;
    assert a * n == v && b * n == v;
    assert (a - b) * n == 0.0;
  }

  /** The same step for sums and lines whose nets have one common sign. */
  lemma SignedStep(n1: real, v1: real, n2: real, v2: real, key: string)
    requires (n1 > 0.0 && n2 > 0.0) || (n1 < 0.0 && n2 < 0.0)
    requires FloatString(v1 / n1, 2) == key && FloatString(v2 / n2, 2) == key
    ensures FloatString((v1 + v2) / (n1 + n2), 2) == key
  {
    if n1 > 0.0 {
      PositiveStep(n1, v1, n2, v2, key);
    } else {
      NegatedRatio(n1, v1);
      NegatedRatio(n2, v2);
      NegatedRatio(n1 + n2, v1 + v2);
      PositiveStep(-n1, -v1, -n2, -v2, key);
      assert -v1 + -v2 == -(v1 + v2) && -n1 + -n2 == -(n1 + n2);
    }
  }

  /** Nets of one sign; a line without net carries no VAT either. */
  ghost predicate OneSign(items: seq<Item>) {
    && (forall item :: item in items ==> item.net == 0.0 ==> item.vat == 0.0)
    && ((forall item :: item in items ==> item.net >= 0.0) || (forall item :: item in items ==> item.net <= 0.0))
  }

  /** Sums of lines of one sign have that sign, and are zero only when there is nothing to sum. */
  lemma {:induction false} SumKeepsSign(items: seq<Item>)
    requires OneSign(items)
    ensures (forall item :: item in items ==> item.net >= 0.0) ==> Total(items, NetFC) >= 0.0
    ensures (forall item :: item in items ==> item.net <= 0.0) ==> Total(items, NetFC) <= 0.0
    ensures Total(items, NetFC) == 0.0 ==> Total(items, VatFC) == 0.0
    ensures Total(items, NetFC) == 0.0 ==> forall item :: item in items ==> item.net == 0.0
  {
    if items != [] {
      var front, last := items[..|items| - 1], items[|items| - 1];
      assert items == front + [last];
      assert OneSign(front);
      assert last in items;
      SumKeepsSign(front);
    }
  }

  /** Two nets of one sign, neither of them zero under a VAT that is not. */
  predicate Compatible(n1: real, v1: real, n2: real, v2: real) {
    && ((n1 >= 0.0 && n2 >= 0.0) || (n1 <= 0.0 && n2 <= 0.0))
    && (n1 == 0.0 ==> v1 == 0.0) && (n2 == 0.0 ==> v2 == 0.0)
  }

  /** Sums and one more line, either of which may come to nothing. */
  lemma JoinedStep(n1: real, v1: real, n2: real, v2: real, key: string)
    requires Compatible(n1, v1, n2, v2)
    requires n1 != 0.0 ==> FloatString(RatePct(n1, v1), 2) == key
    requires FloatString(RatePct(n2, v2), 2) == key
    ensures FloatString(RatePct(n1 + n2, v1 + v2), 2) == key
  {
    if n1 != 0.0 && n2 != 0.0 {
      SignedStep(n1, v1, n2, v2, key);
    } else if n1 == 0.0 {
      assert n1 + n2 == n2 && v1 + v2 == v2;
    } else {
      assert n1 + n2 == n1 && v1 + v2 == v1;
    }
  }

  /** A property of a net and a VAT that adding a line with the property keeps. */
  ghost predicate Additive(holds: (real, real) -> bool) {
    forall n1, v1, n2, v2 :: Compatible(n1, v1, n2, v2) && (n1 != 0.0 ==> holds(n1, v1)) && holds(n2, v2) ==>
                               holds(n1 + n2, v1 + v2)
  }

  lemma FrontOfOneSign(items: seq<Item>)
    requires items != [] && OneSign(items)
    ensures OneSign(items[..|items| - 1])
    ensures var n, last := Total(items[..|items| - 1], NetFC), items[|items| - 1];
            Compatible(n, Total(items[..|items| - 1], VatFC), last.net, last.vat)
  {
    var front, last := items[..|items| - 1], items[|items| - 1];
    assert items == front + [last];
    assert last in items;
    assert OneSign(front);
    SumKeepsSign(front);
  }

  lemma {:induction false} SumHolds(items: seq<Item>, holds: (real, real) -> bool)
    requires items != [] && OneSign(items) && Additive(holds)
    requires forall item :: item in items ==> holds(item.net, item.vat)
    ensures holds(Total(items, NetFC), Total(items, VatFC))
  {
    var front, last := items[..|items| - 1], items[|items| - 1];
    assert last in items;
    FrontOfOneSign(items);
    if front != [] {
      SumHolds(front, holds);
    }
    assert Compatible(Total(front, NetFC), Total(front, VatFC), last.net, last.vat);
  }

  lemma PrintingIsAdditive(key: string)
    ensures Additive((n, v) => FloatString(RatePct(n, v), 2) == key)
  {
    forall n1, v1, n2, v2 |
      Compatible(n1, v1, n2, v2) && (n1 != 0.0 ==> FloatString(RatePct(n1, v1), 2) == key) &&
      FloatString(RatePct(n2, v2), 2) == key
      ensures FloatString(RatePct(n1 + n2, v1 + v2), 2) == key
    {
      JoinedStep(n1, v1, n2, v2, key);
    }
  }

  lemma SumPrintsItsKey(items: seq<Item>, key: string)
    requires items != [] && OneSign(items)
    requires forall item :: item in items ==> FloatString(Ratio(item), 2) == key
    ensures FloatString(RatePct(Total(items, NetFC), Total(items, VatFC)), 2) == key
  {
    PrintingIsAdditive(key);
    SumHolds(items, (n, v) => FloatString(RatePct(n, v), 2) == key);
  }

  lemma {:induction false} ItemKeys(data: seq<Option<InvoiceLine>>, code: string, rate: real)
    ensures forall item :: item in ItemsOf(data, code, rate) ==> item.key == FloatString(Ratio(item), 2)
  {
    if data != [] {
      ItemKeys(data[..|data| - 1], code, rate);
    }
  }

  /**
   In every mapped document, a summary row's vatPercentage is also the two-decimal
   rendering of the row's own VAT divided by its own net, provided the lines filed
   under it have nets of one sign.
   */
  lemma RowRateIsItsOwn(doc: InvoiceData, inv: Invoice, opts: MapOptions, i: nat)
    requires Refusal(inv, opts).None? && IsDocument(doc, inv, opts) && i < |doc.summary.rows|
    requires OneSign(Under(DocItems(inv, opts), doc.summary.rows[i].vatPercentage))
    ensures var row := doc.summary.rows[i];
            row.vatPercentage == FloatString(RatePct(Val(row.amounts.net), Val(row.amounts.vat)), 2)
  {
    var key := doc.summary.rows[i].vatPercentage;
    RowPrintsItsSums(doc, inv, opts, i);
    BucketPrintsItsKey(inv.lines.value.data, DocCode(inv), RateOf(inv, opts).value, key);
  }

  /** A row prints the exact sums of the lines filed under it, of which there is at least one. */
  lemma RowPrintsItsSums(doc: InvoiceData, inv: Invoice, opts: MapOptions, i: nat)
    requires Refusal(inv, opts).None? && IsDocument(doc, inv, opts) && i < |doc.summary.rows|
    ensures var row := doc.summary.rows[i];
            var bucket := Under(DocItems(inv, opts), row.vatPercentage);
            && row.vatPercentage in Keys(DocItems(inv, opts))
            && Val(row.amounts.net) == Total(bucket, NetFC) && Val(row.amounts.vat) == Total(bucket, VatFC)
  {
    DocumentItems(doc, inv, opts);
    var items, code := DocItems(inv, opts), DocCode(inv);
    var keys := SummaryKeys(doc.summary, items, code);
    assert keys[i] in Members(keys);
    ItemsAreWhole(inv.lines.value.data, code, RateOf(inv, opts).value);
    RowsPrintExactly(keys, items, code, NetColumn);
    RowsPrintExactly(keys, items, code, VatColumn);
    assert RowValues(doc.summary.rows, NetColumn, InvoiceSide)[i] == RowParts(keys, items, NetColumn, InvoiceSide)[i];
    assert RowValues(doc.summary.rows, VatColumn, InvoiceSide)[i] == RowParts(keys, items, VatColumn, InvoiceSide)[i];
  }

  lemma BucketPrintsItsKey(data: seq<Option<InvoiceLine>>, code: string, rate: real, key: string)
    requires key in Keys(ItemsOf(data, code, rate)) && OneSign(Under(ItemsOf(data, code, rate), key))
    ensures var bucket := Under(ItemsOf(data, code, rate), key);
            FloatString(RatePct(Total(bucket, NetFC), Total(bucket, VatFC)), 2) == key
  {
    var items := ItemsOf(data, code, rate);
    NothingUnder(items, key);
    UnderIsSelection(items, key);
    ItemKeys(data, code, rate);
    SumPrintsItsKey(Under(items, key), key);
  }

  // ---------- nets of both signs ----------

  function PlainLine(amount: Int64, tax: Int64): Option<InvoiceLine> {
    Some(InvoiceLine("", amount, 1, [Some(Tax(tax, amount, Exclusive))]))
  }

  lemma Hundredfold(x: real)
    ensures ShiftUp(x, 2) == 100.0 * x
  {
    assert ShiftUp(x, 1) == 10.0 * x;
  }

  /** 100.00 at 27.40 VAT and -99.00 at -26.24 VAT. */
  const MIXED_LINES: seq<Option<InvoiceLine>> := [PlainLine(10000, 2740), PlainLine(-9900, -2624)]

  /** Both print 0.27, and together they are 1.16 VAT on a net of 1.00. */
  lemma MixedItems(code: string, rate: real)
    requires !ZeroDecimal(code)
    ensures var items := ItemsOf(MIXED_LINES, code, rate);
            && |items| == 2 && items[0].key == items[1].key
            && FloatString(RatePct(Total(items, NetFC), Total(items, VatFC)), 2) != items[0].key
  {
    var x, y := PlainLine(10000, 2740).value, PlainLine(-9900, -2624).value;
    CentLine(10000, 2740, code, rate);
    CentLine(-9900, -2624, code, rate);
    TwoItems(x, y, code, rate);
    PrintedRates();
  }

  lemma OneBucket(items: seq<Item>, key: string)
    requires |items| == 2 && items[0].key == items[1].key && key in Keys(items)
    ensures key == items[0].key && Under(items, key) == items
  {
    assert items[..1] == [items[0]] && items[..1][..0] == [];
    assert Under(items[..1], key) == [items[0]];
    assert items == [items[0]] + [items[1]];
  }

  lemma MixedRow(doc: InvoiceData, inv: Invoice, opts: MapOptions, i: nat)
    requires Refusal(inv, opts).None? && IsDocument(doc, inv, opts) && i < |doc.summary.rows|
    requires inv.lines.value.data == MIXED_LINES && !ZeroDecimal(DocCode(inv))
    ensures var row := doc.summary.rows[i];
            row.vatPercentage != FloatString(RatePct(Val(row.amounts.net), Val(row.amounts.vat)), 2)
  {
    RowPrintsItsSums(doc, inv, opts, i);
    MixedItems(DocCode(inv), RateOf(inv, opts).value);
    OneBucket(DocItems(inv, opts), doc.summary.rows[i].vatPercentage);
  }

  /**
   With nets of both signs the two can differ: an accepted invoice, at any whole
   exchange rate, whose document has a row filed under another rate than its own.
   */
  lemma MixedSignsShiftTheRate(rate: nat) returns (doc: InvoiceData)
    ensures var inv, opts := EuroInvoice(MIXED_LINES), SomeOptions(IntString(rate));
            Refusal(inv, opts).None? && IsDocument(doc, inv, opts)
    ensures doc.summary.rows != []
    ensures forall i :: 0 <= i < |doc.summary.rows| ==>
              var row := doc.summary.rows[i];
              row.vatPercentage != FloatString(RatePct(Val(row.amounts.net), Val(row.amounts.vat)), 2)
  {
    var inv, opts := EuroInvoice(MIXED_LINES), SomeOptions(IntString(rate));
    EuroInvoiceMaps(MIXED_LINES, rate);
    doc := DocumentExists(inv, opts);
    DocumentHasRow(doc, inv, opts);
    EuroHasCents();
    forall i | 0 <= i < |doc.summary.rows|
      ensures var row := doc.summary.rows[i];
              row.vatPercentage != FloatString(RatePct(Val(row.amounts.net), Val(row.amounts.vat)), 2)
    {
      MixedRow(doc, inv, opts, i);
    }
  }

  lemma EuroHasCents()
    ensures !ZeroDecimal(ToUpper("eur"))
  {
    EurosUpper();
    assert ToLower("EUR")[0] == 'e';
  }

  lemma DocumentHasRow(doc: InvoiceData, inv: Invoice, opts: MapOptions)
    requires Refusal(inv, opts).None? && IsDocument(doc, inv, opts)
    ensures doc.summary.rows != []
  {
    SummaryHasRow(doc.summary, DocItems(inv, opts), DocCode(inv));
  }

  lemma SummaryHasRow(summary: Summary, items: seq<Item>, code: string)
    requires IsSummary(summary, items, code) && items != []
    ensures summary.rows != []
  {
    var keys := SummaryKeys(summary, items, code);
    assert items[0].key in Members(keys);
  }

  lemma TwoItems(x: InvoiceLine, y: InvoiceLine, code: string, rate: real)
    ensures var items := ItemsOf([Some(x), Some(y)], code, rate);
            var a, b := ItemOf(x, code, rate), ItemOf(y, code, rate);
            && items == [a, b]
            && Total(items, NetFC) == a.net + b.net && Total(items, VatFC) == a.vat + b.vat
  {
    var a, b := ItemOf(x, code, rate), ItemOf(y, code, rate);
    assert [Some(x), Some(y)][..1] == [Some(x)] && [Some(x)][..0] == [];
    assert ItemsOf([Some(x)], code, rate) == [a];
    assert [a] + [b] == [a, b] && [] + [a] == [a];
    TotalAppend([a], b, NetFC);
    TotalAppend([a], b, VatFC);
    TotalAppend([], a, NetFC);
    TotalAppend([], a, VatFC);
  }

  lemma CentLine(amount: Int64, tax: Int64, code: string, rate: real)
    requires !ZeroDecimal(code)
    ensures var item := ItemOf(PlainLine(amount, tax).value, code, rate);
            && item.net == amount as real / 100.0 && item.vat == tax as real / 100.0
            && item.key == FloatString(RatePct(amount as real / 100.0, tax as real / 100.0), 2)
  {
    var taxes := PlainLine(amount, tax).value.taxes;
    assert taxes[..0] == [];
    assert CurrencyMinorScale(code) == 100;
    assert VatOf(taxes, code) == tax as real / 100.0;
    assert !AnyInclusive(taxes);
  }

  lemma PrintedRates()
    ensures FloatString(27.4 / 100.0, 2) == FloatString(-26.24 / -99.0, 2) != FloatString(1.16 / 1.0, 2)
  {
    var a, b, c := 27.4 / 100.0, -26.24 / -99.0, 1.16 / 1.0;
    assert 0.265 <= b < 0.275;
    Hundredfold(a);
    Hundredfold(b);
    Hundredfold(c);
    SamePrintIff(a, b, 2);
    SamePrintIff(a, c, 2);
  }
}
