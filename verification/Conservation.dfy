/**
 What a mapped document conserves: net + VAT = gross at every level, equal sums
 across lines, rate rows and invoice, and independence from the order of lines.
 Everything is stated on the values of the emitted strings.
 */
module Conservation {
  import opened Wrappers
  import opened Documents
  import opened Decimals
  import opened Currency
  import opened Invoices
  import opened Mapping
  import opened Mapper

  // ---------- columns of printed amounts ----------

  datatype Column = NetColumn | VatColumn | GrossColumn

  /** Every amount is printed twice: in invoice currency and in forints. */
  datatype Side = InvoiceSide | ForintSide

  function Cell(a: Amounts, column: Column, side: Side): string {
    match (column, side)
    case (NetColumn, InvoiceSide) => a.net
    case (VatColumn, InvoiceSide) => a.vat
    case (GrossColumn, InvoiceSide) => a.gross
    case (NetColumn, ForintSide) => a.netHUF
    case (VatColumn, ForintSide) => a.vatHUF
    case (GrossColumn, ForintSide) => a.grossHUF
  }

  /** The exact amount behind a cell, before printing. */
  function Amount(sums: Sums, column: Column, side: Side): real {
    match (column, side)
    case (NetColumn, InvoiceSide) => sums.netFC
    case (VatColumn, InvoiceSide) => sums.vatFC
    case (GrossColumn, InvoiceSide) => sums.netFC + sums.vatFC
    case (NetColumn, ForintSide) => sums.netHUF
    case (VatColumn, ForintSide) => sums.vatHUF
    case (GrossColumn, ForintSide) => sums.netHUF + sums.vatHUF
  }

  function SumOf(values: seq<real>): real {
    if values == [] then 0.0 else SumOf(values[..|values| - 1]) + values[|values| - 1]
  }

  /** What the lines of a document print in one column. */
  function LineValues(lines: seq<Line>, column: Column, side: Side): seq<real> {
    seq(|lines|, i requires 0 <= i < |lines| => Val(Cell(lines[i].amounts, column, side)))
  }

  /** What the rate rows of a document print in one column. */
  function RowValues(rows: seq<SummaryRow>, column: Column, side: Side): seq<real> {
    seq(|rows|, i requires 0 <= i < |rows| => Val(Cell(rows[i].amounts, column, side)))
  }

  // ---------- net + VAT = gross ----------

  /** The six printed strings all denote numbers, and add up in both currencies. */
  predicate AddsUp(a: Amounts) {
    && ParseDecimal(a.net).Some? && ParseDecimal(a.vat).Some? && ParseDecimal(a.gross).Some?
    && ParseDecimal(a.netHUF).Some? && ParseDecimal(a.vatHUF).Some? && ParseDecimal(a.grossHUF).Some?
    && Val(a.net) + Val(a.vat) == Val(a.gross)
    && Val(a.netHUF) + Val(a.vatHUF) == Val(a.grossHUF)
  }

  lemma PrintedAmountsAddUp(sums: Sums, code: string)
    ensures AddsUp(AmountsOf(sums, code))
  {
    AmountsReconcile(sums.netFC, sums.vatFC, code);
    HUFReconciles(sums.netHUF, sums.vatHUF);
    PrintedAmountsParse(sums, code);
  }

  lemma PrintedAmountsParse(sums: Sums, code: string)
    ensures var a := AmountsOf(sums, code);
            && ParseDecimal(a.net).Some? && ParseDecimal(a.vat).Some? && ParseDecimal(a.gross).Some?
            && ParseDecimal(a.netHUF).Some? && ParseDecimal(a.vatHUF).Some? && ParseDecimal(a.grossHUF).Some?
  {
    AmountsParse(sums.netFC, sums.vatFC, code);
    ForintsParse(sums.netHUF, sums.vatHUF);
  }

  lemma AmountParses(x: real, code: string)
    ensures ParseDecimal(FormatAmount(x, code)).Some?
  {
    FormatAmountValue(x, code);
  }

  lemma AmountsParse(net: real, vat: real, code: string)
    ensures var (n, v, g) := ReconciledAmount(net, vat, code);
            ParseDecimal(n).Some? && ParseDecimal(v).Some? && ParseDecimal(g).Some?
  {
    var (n, v, g) := ReconciledAmount(net, vat, code);
    AmountParses(net, code);
    AmountParses(vat, code);
    AmountParses(Val(n) + Val(v), code);
  }

  lemma ForintParses(x: real)
    ensures ParseDecimal(FormatHUF(x)).Some?
  {
    FormatHUFValue(x);
  }

  lemma ForintsParse(net: real, vat: real)
    ensures var (n, v, g) := ReconciledHUF(net, vat);
            ParseDecimal(n).Some? && ParseDecimal(v).Some? && ParseDecimal(g).Some?
  {
    var (n, v, g) := ReconciledHUF(net, vat);
    ForintParses(net);
    ForintParses(vat);
    ForintParses(Val(n) + Val(v));
  }

  lemma {:induction false} LinesAddUp(data: seq<Option<InvoiceLine>>, code: string, rate: real, op: Operation, n: int)
    ensures forall line :: line in LinesOf(data, code, rate, op, n) ==> AddsUp(line.amounts)
  {
    if data != [] {
      var last := |data| - 1;
      LinesAddUp(data[..last], code, rate, op, n);
      if data[last].Some? {
        var item := ItemOf(data[last].value, code, rate);
        PrintedAmountsAddUp(Sums(item.net, item.vat, item.netHUF, item.vatHUF), code);
      }
    }
  }

  /** In every document the mapper emits, every line, every rate row and the invoice add up. */
  lemma DocumentAddsUp(doc: InvoiceData, inv: Invoice, opts: MapOptions)
    requires Refusal(inv, opts).None? && IsDocument(doc, inv, opts)
    ensures forall line :: line in doc.lines ==> AddsUp(line.amounts)
    ensures forall row :: row in doc.summary.rows ==> AddsUp(row.amounts)
    ensures AddsUp(doc.summary.totals)
  {
    var code := ToUpper(inv.currency);
    var rate := RateOf(inv, opts).value;
    var data := inv.lines.value.data;
    LinesAddUp(data, code, rate, OperationOf(opts.operation).value, OriginalCount(inv, opts));
    SummaryAddsUp(doc.summary, ItemsOf(data, code, rate), code);
  }

  lemma SummaryAddsUp(summary: Summary, items: seq<Item>, code: string)
    requires IsSummary(summary, items, code)
    ensures forall row :: row in summary.rows ==> AddsUp(row.amounts)
    ensures AddsUp(summary.totals)
  {
    forall sums
      ensures AddsUp(AmountsOf(sums, code))
    {
      PrintedAmountsAddUp(sums, code);
    }
  }

  // ---------- the buckets partition the lines ----------

  function SumOver(keys: seq<string>, items: seq<Item>, field: Field): real {
    if keys == [] then 0.0
    else SumOver(keys[..|keys| - 1], items, field) + Total(Under(items, keys[|keys| - 1]), field)
  }

  lemma {:induction false} SumOverAppend(keys: seq<string>, items: seq<Item>, item: Item, field: Field)
    requires Ascending(keys)
    ensures SumOver(keys, items + [item], field) ==
            SumOver(keys, items, field) + if item.key in keys then Get(item, field) else 0.0
    decreases |keys|
  {
    if keys != [] {
      var front, last := keys[..|keys| - 1], keys[|keys| - 1];
      assert keys == front + [last];
      SumOverAppend(front, items, item, field);
      UnderAppend(items, item, last);
      TotalAppend(Under(items, last), item, field);
      assert Under(items, last) + [] == Under(items, last);
      LastIsNew(keys);
    }
  }

  lemma LastIsNew(keys: seq<string>)
    requires keys != [] && Ascending(keys)
    ensures keys[|keys| - 1] !in keys[..|keys| - 1]
  {
    StringLessTotal(keys[|keys| - 1], keys[|keys| - 1]);
  }

  /** Whatever the rates, the bucket sums add up to the total of the lines. */
  lemma {:induction false} BucketsSumToTotal(keys: seq<string>, items: seq<Item>, field: Field)
    requires Ascending(keys) && Keys(items) <= Members(keys)
    ensures SumOver(keys, items, field) == Total(items, field)
    decreases |items|
  {
    if items == [] {
      EmptyBuckets(keys, field);
    } else {
      var front, last := items[..|items| - 1], items[|items| - 1];
      assert items == front + [last];
      KeysAppend(front, last);
      BucketsSumToTotal(keys, front, field);
      SumOverAppend(keys, front, last, field);
      assert last.key in Members(keys);
    }
  }

  lemma {:induction false} EmptyBuckets(keys: seq<string>, field: Field)
    ensures SumOver(keys, [], field) == 0.0
  {
    if keys != [] {
      EmptyBuckets(keys[..|keys| - 1], field);
    }
  }

  lemma {:induction false} LineKeys(data: seq<Option<InvoiceLine>>, code: string, rate: real, op: Operation, n: int, k: nat)
    requires k < |LinesOf(data, code, rate, op, n)|
    ensures |ItemsOf(data, code, rate)| == |LinesOf(data, code, rate, op, n)|
    ensures var item := ItemsOf(data, code, rate)[k];
            && LinesOf(data, code, rate, op, n)[k].vatPercentage == item.key
            && LinesOf(data, code, rate, op, n)[k].amounts ==
               AmountsOf(Sums(item.net, item.vat, item.netHUF, item.vatHUF), code)
    decreases |data|
  {
    var last := |data| - 1;
    SameEmptiness(data, code, rate, op, n);
    SameEmptiness(data[..last], code, rate, op, n);
    if k < |LinesOf(data[..last], code, rate, op, n)| {
      LineKeys(data[..last], code, rate, op, n, k);
    }
  }

  /** The lines of a document, and the items behind them, in the same order. */
  ghost predicate Behind(lines: seq<Line>, items: seq<Item>, code: string) {
    && |lines| == |items|
    && forall k :: 0 <= k < |items| ==>
         && lines[k].vatPercentage == items[k].key
         && lines[k].amounts == AmountsOf(Sums(items[k].net, items[k].vat, items[k].netHUF, items[k].vatHUF), code)
  }

  /** Rows are ascending by printed rate, the rates are exactly those of the lines, and each row is its lines' sum. */
  ghost predicate RowsPartition(rows: seq<SummaryRow>, lines: seq<Line>, items: seq<Item>, code: string) {
    && (forall i, j :: 0 <= i < j < |rows| ==> StringLess(rows[i].vatPercentage, rows[j].vatPercentage))
    && (forall k :: 0 <= k < |lines| ==> HasRow(rows, lines[k].vatPercentage))
    && (forall i :: 0 <= i < |rows| ==> HasLine(lines, rows[i].vatPercentage))
    && (forall i :: 0 <= i < |rows| ==>
          rows[i].amounts == AmountsOf(TotalSums(Under(items, rows[i].vatPercentage)), code))
  }

  ghost predicate HasRow(rows: seq<SummaryRow>, rate: string) {
    exists i :: 0 <= i < |rows| && rows[i].vatPercentage == rate
  }

  ghost predicate HasLine(lines: seq<Line>, rate: string) {
    exists k :: 0 <= k < |lines| && lines[k].vatPercentage == rate
  }

  function DocCode(inv: Invoice): string {
    ToUpper(inv.currency)
  }

  /** The exact items behind a document. */
  function DocItems(inv: Invoice, opts: MapOptions): seq<Item>
    requires Refusal(inv, opts).None?
  {
    ItemsOf(inv.lines.value.data, ToUpper(inv.currency), RateOf(inv, opts).value)
  }

  lemma DocumentItems(doc: InvoiceData, inv: Invoice, opts: MapOptions)
    requires Refusal(inv, opts).None? && IsDocument(doc, inv, opts)
    ensures Behind(doc.lines, DocItems(inv, opts), DocCode(inv))
    ensures IsSummary(doc.summary, DocItems(inv, opts), DocCode(inv))
  {
    var data := inv.lines.value.data;
    var op := OperationOf(opts.operation).value;
    var n := OriginalCount(inv, opts);
    SameEmptiness(data, DocCode(inv), RateOf(inv, opts).value, op, n);
    forall k | 0 <= k < |doc.lines|
      ensures var item := DocItems(inv, opts)[k];
              && doc.lines[k].vatPercentage == item.key
              && doc.lines[k].amounts == AmountsOf(Sums(item.net, item.vat, item.netHUF, item.vatHUF), DocCode(inv))
    {
      LineKeys(data, DocCode(inv), RateOf(inv, opts).value, op, n, k);
    }
  }

  lemma ListedRowsPartition(rows: seq<SummaryRow>, keys: seq<string>, lines: seq<Line>, items: seq<Item>, code: string)
    requires Behind(lines, items, code)
    requires Ascending(keys) && Members(keys) == Keys(items) && rows == RowsOf(items, keys, code)
    ensures RowsPartition(rows, lines, items, code)
  {
    forall k | 0 <= k < |lines|
      ensures HasRow(rows, lines[k].vatPercentage)
    {
      assert items[k].key in Members(keys);
      var i :| 0 <= i < |keys| && keys[i] == items[k].key;
      assert rows[i].vatPercentage == lines[k].vatPercentage;
    }
    forall i | 0 <= i < |rows|
      ensures HasLine(lines, rows[i].vatPercentage)
    {
      assert keys[i] in Members(keys);
      var k :| 0 <= k < |items| && items[k].key == keys[i];
      assert rows[i].vatPercentage == lines[k].vatPercentage;
    }
  }

  /**
   The rows of a document are listed in strictly ascending order of their printed
   rate; every line's printed rate names exactly one row; and each row prints the
   exact sum of the lines under its rate.
   */
  lemma RowsPartitionLines(doc: InvoiceData, inv: Invoice, opts: MapOptions)
    requires Refusal(inv, opts).None? && IsDocument(doc, inv, opts)
    ensures RowsPartition(doc.summary.rows, doc.lines, DocItems(inv, opts), DocCode(inv))
  {
    DocumentItems(doc, inv, opts);
    var items := DocItems(inv, opts);
    var code := DocCode(inv);
    var keys :| && Ascending(keys) && Members(keys) == Keys(items)
                && doc.summary == Summary(RowsOf(items, keys, code), AmountsOf(TotalSums(items), code));
    ListedRowsPartition(doc.summary.rows, keys, doc.lines, items, code);
  }

  // ---------- in invoice currency nothing is rounded away ----------

  /** A whole number of minor units. */
  ghost predicate Whole(x: real, code: string) {
    exists minor: int :: x == AmountFromMinor(minor, code)
  }

  lemma WholeSum(x: real, y: real, code: string)
    requires Whole(x, code) && Whole(y, code)
    ensures Whole(x + y, code) && Whole(x - y, code)
  {
    var m: int :| x == AmountFromMinor(m, code);
    var n: int :| y == AmountFromMinor(n, code);
    assert x + y == AmountFromMinor(m + n, code);
    assert x - y == AmountFromMinor(m - n, code);
  }

  lemma WholePrints(x: real, code: string)
    requires Whole(x, code)
    ensures Val(FormatAmount(x, code)) == x
  {
    var m: int :| x == AmountFromMinor(m, code);
    MinorUnitsPrintExactly(m, code);
  }

  lemma {:induction false} VatIsWhole(taxes: seq<Option<Tax>>, code: string)
    ensures Whole(VatOf(taxes, code), code)
  {
    assert AmountFromMinor(0, code) == 0.0;
    if taxes != [] {
      var last := taxes[|taxes| - 1];
      VatIsWhole(taxes[..|taxes| - 1], code);
      if last.Some? {
        assert Whole(AmountFromMinor(last.value.amount, code), code);
        WholeSum(VatOf(taxes[..|taxes| - 1], code), AmountFromMinor(last.value.amount, code), code);
      }
    }
  }

  ghost predicate WholeItem(item: Item, code: string) {
    Whole(item.net, code) && Whole(item.vat, code)
  }

  lemma ItemIsWhole(line: InvoiceLine, code: string, rate: real)
    ensures WholeItem(ItemOf(line, code, rate), code)
  {
    VatIsWhole(line.taxes, code);
    assert Whole(AmountFromMinor(line.amount, code), code);
    WholeSum(AmountFromMinor(line.amount, code), VatOf(line.taxes, code), code);
  }

  lemma {:induction false} ItemsAreWhole(data: seq<Option<InvoiceLine>>, code: string, rate: real)
    ensures forall item :: item in ItemsOf(data, code, rate) ==> WholeItem(item, code)
  {
    if data != [] {
      ItemsAreWhole(data[..|data| - 1], code, rate);
      if data[|data| - 1].Some? {
        ItemIsWhole(data[|data| - 1].value, code, rate);
      }
    }
  }

  lemma {:induction false} TotalsAreWhole(items: seq<Item>, code: string)
    requires forall item :: item in items ==> WholeItem(item, code)
    ensures Whole(Total(items, NetFC), code) && Whole(Total(items, VatFC), code)
  {
    assert AmountFromMinor(0, code) == 0.0;
    if items != [] {
      var front, last := items[..|items| - 1], items[|items| - 1];
      TotalsAreWhole(front, code);
      assert last in items;
      WholeSum(Total(front, NetFC), last.net, code);
      WholeSum(Total(front, VatFC), last.vat, code);
    }
  }

  lemma {:induction false} UnderIsSelection(items: seq<Item>, key: string)
    ensures forall item :: item in Under(items, key) <==> item in items && item.key == key
  {
    if items != [] {
      var front := items[..|items| - 1];
      UnderIsSelection(front, key);
      assert items == front + [items[|items| - 1]];
    }
  }

  /** Amounts in whole minor units print as themselves, gross included. */
  lemma WholeAmountsPrint(sums: Sums, code: string, column: Column)
    requires Whole(sums.netFC, code) && Whole(sums.vatFC, code)
    ensures Val(Cell(AmountsOf(sums, code), column, InvoiceSide)) == Amount(sums, column, InvoiceSide)
  {
    WholePrints(sums.netFC, code);
    WholePrints(sums.vatFC, code);
    AmountsReconcile(sums.netFC, sums.vatFC, code);
  }

  function SumsOf(item: Item): Sums {
    Sums(item.net, item.vat, item.netHUF, item.vatHUF)
  }

  /** The exact amounts behind the lines. */
  function LineParts(items: seq<Item>, column: Column, side: Side): seq<real> {
    seq(|items|, i requires 0 <= i < |items| => Amount(SumsOf(items[i]), column, side))
  }

  /** The exact amounts behind the rate rows. */
  function RowParts(keys: seq<string>, items: seq<Item>, column: Column, side: Side): seq<real> {
    seq(|keys|, i requires 0 <= i < |keys| => Amount(TotalSums(Under(items, keys[i])), column, side))
  }

  lemma {:induction false} LinePartsSum(items: seq<Item>, column: Column, side: Side)
    ensures SumOf(LineParts(items, column, side)) == Amount(TotalSums(items), column, side)
  {
    if items != [] {
      var n := |items| - 1;
      LinePartsSum(items[..n], column, side);
      assert LineParts(items, column, side)[..n] == LineParts(items[..n], column, side);
    }
  }

  function SumsOver(keys: seq<string>, items: seq<Item>): Sums {
    Sums(SumOver(keys, items, NetFC), SumOver(keys, items, VatFC),
         SumOver(keys, items, NetHUF), SumOver(keys, items, VatHUF))
  }

  lemma {:induction false} RowPartsSum(keys: seq<string>, items: seq<Item>, column: Column, side: Side)
    ensures SumOf(RowParts(keys, items, column, side)) == Amount(SumsOver(keys, items), column, side)
    decreases |keys|
  {
    if keys != [] {
      var n := |keys| - 1;
      RowPartsSum(keys[..n], items, column, side);
      assert RowParts(keys, items, column, side)[..n] == RowParts(keys[..n], items, column, side);
    }
  }

  /** Exactly, lines and rate rows have one and the same sum: the total. */
  lemma PartsSumToTotal(keys: seq<string>, items: seq<Item>, column: Column, side: Side)
    requires Ascending(keys) && Keys(items) <= Members(keys)
    ensures SumOf(LineParts(items, column, side)) == Amount(TotalSums(items), column, side)
    ensures SumOf(RowParts(keys, items, column, side)) == Amount(TotalSums(items), column, side)
  {
    LinePartsSum(items, column, side);
    RowPartsSum(keys, items, column, side);
    BucketsSumToTotal(keys, items, NetFC);
    BucketsSumToTotal(keys, items, VatFC);
    BucketsSumToTotal(keys, items, NetHUF);
    BucketsSumToTotal(keys, items, VatHUF);
  }

  lemma LinesPrintExactly(lines: seq<Line>, items: seq<Item>, code: string, column: Column)
    requires Behind(lines, items, code) && forall item :: item in items ==> WholeItem(item, code)
    ensures LineValues(lines, column, InvoiceSide) == LineParts(items, column, InvoiceSide)
  {
    forall k | 0 <= k < |lines|
      ensures Val(Cell(lines[k].amounts, column, InvoiceSide)) == Amount(SumsOf(items[k]), column, InvoiceSide)
    {
      assert items[k] in items;
      WholeAmountsPrint(SumsOf(items[k]), code, column);
    }
  }

  lemma RowsPrintExactly(keys: seq<string>, items: seq<Item>, code: string, column: Column)
    requires forall item :: item in items ==> WholeItem(item, code)
    ensures RowValues(RowsOf(items, keys, code), column, InvoiceSide) == RowParts(keys, items, column, InvoiceSide)
  {
    var rows := RowsOf(items, keys, code);
    forall i | 0 <= i < |keys|
      ensures Val(Cell(rows[i].amounts, column, InvoiceSide)) ==
              Amount(TotalSums(Under(items, keys[i])), column, InvoiceSide)
    {
      UnderIsSelection(items, keys[i]);
      TotalsAreWhole(Under(items, keys[i]), code);
      WholeAmountsPrint(TotalSums(Under(items, keys[i])), code, column);
    }
  }

  /**
   In invoice currency the printed lines, the printed rate rows and the printed
   totals of a document have one and the same net sum, VAT sum and gross sum.
   */
  lemma InvoiceCurrencyConserved(doc: InvoiceData, inv: Invoice, opts: MapOptions, column: Column)
    requires Refusal(inv, opts).None? && IsDocument(doc, inv, opts)
    ensures SumOf(LineValues(doc.lines, column, InvoiceSide)) == Val(Cell(doc.summary.totals, column, InvoiceSide))
    ensures SumOf(RowValues(doc.summary.rows, column, InvoiceSide)) == Val(Cell(doc.summary.totals, column, InvoiceSide))
  {
    DocumentItems(doc, inv, opts);
    var items, code := DocItems(inv, opts), DocCode(inv);
    ItemsAreWhole(inv.lines.value.data, code, RateOf(inv, opts).value);
    var keys := SummaryKeys(doc.summary, items, code);
    PartsSumToTotal(keys, items, column, InvoiceSide);
    LinesPrintExactly(doc.lines, items, code, column);
    RowsPrintExactly(keys, items, code, column);
    TotalsAreWhole(items, code);
    WholeAmountsPrint(TotalSums(items), code, column);
  }

  /** The ascending list of rates a summary is laid out by. */
  lemma SummaryKeys(summary: Summary, items: seq<Item>, code: string) returns (keys: seq<string>)
    requires IsSummary(summary, items, code)
    ensures Ascending(keys) && Members(keys) == Keys(items)
    ensures summary == Summary(RowsOf(items, keys, code), AmountsOf(TotalSums(items), code))
  {
    keys :| && Ascending(keys) && Members(keys) == Keys(items)
            && summary == Summary(RowsOf(items, keys, code), AmountsOf(TotalSums(items), code));
  }

  /** A line's gross is Stripe's amount when any of its taxes is inclusive, and amount plus taxes otherwise. */
  lemma LineGrossIsStripes(line: InvoiceLine, idx: nat, code: string, rate: real, op: Operation, n: int)
    ensures var amount := AmountFromMinor(line.amount, code);
            Val(LineOf(line, idx, code, rate, op, n).amounts.gross) ==
            if AnyInclusive(line.taxes) then amount else amount + VatOf(line.taxes, code)
  {
    ItemIsWhole(line, code, rate);
    WholeAmountsPrint(SumsOf(ItemOf(line, code, rate)), code, GrossColumn);
  }

  // ---------- unit prices ----------

  function Distance(x: real, y: real): real {
    Abs(x - y)
  }

  /** Half of the last printed digit. */
  function HalfUnit(code: string): real {
    if ZeroDecimal(code) then 0.5 else 0.005
  }

  lemma PrintedNearby(x: real, code: string)
    ensures Distance(Val(FormatAmount(x, code)), x) <= HalfUnit(code)
    ensures Distance(Val(FormatHUF(x)), x) <= 0.5
  {
    AmountValue(x, code);
    ForintValue(x);
    RoundLaws(x);
    if !ZeroDecimal(code) {
      CentsNearby(x);
    }
  }

  lemma TwoPlaces(x: real)
    ensures ShiftDown(x, 2) == x / 100.0
  {
    assert ShiftDown(x, 1) == x / 10.0;
  }

  lemma CentsNearby(x: real)
    ensures Distance(RoundTo(x, 2), x) <= 0.005
  {
    var y, n := 100.0 * x, Round(100.0 * x);
    assert ShiftUp(x, 1) == 10.0 * x && ShiftUp(x, 2) == y;
    TwoPlaces(n as real);
    RoundLaws(y);
  }

  /** The printed unit price is the line's net over its quantity, counted as at least one, to the last printed digit. */
  lemma UnitPriceIsNetOverQuantity(line: InvoiceLine, idx: nat, code: string, rate: real, op: Operation, n: int)
    ensures var l := LineOf(line, idx, code, rate, op, n);
            && l.quantity >= 1 && (line.quantity >= 1 ==> l.quantity == line.quantity)
            && Distance(Val(l.unitPrice), Val(l.amounts.net) / l.quantity as real) <= HalfUnit(code)
            && Distance(Val(l.unitPriceHUF), ToHUF(Val(l.amounts.net), rate) / l.quantity as real) <= 0.5
  {
    var item := ItemOf(line, code, rate);
    var quantity := MaxInt64(1, line.quantity);
    ItemIsWhole(line, code, rate);
    WholeAmountsPrint(SumsOf(item), code, NetColumn);
    PrintedNearby(item.net / quantity as real, code);
    PrintedNearby(item.netHUF / quantity as real, code);
  }

  // ---------- in forints each part rounds by at most a half ----------

  /** n times the rounding of one printed amount: half a forint for net and VAT, one for gross. */
  function Allowance(n: nat, column: Column): real {
    if column == GrossColumn then n as real else n as real / 2.0
  }

  lemma HUFCell(sums: Sums, code: string, column: Column)
    ensures Distance(Val(Cell(AmountsOf(sums, code), column, ForintSide)), Amount(sums, column, ForintSide)) <=
            Allowance(1, column)
  {
    HUFReconciles(sums.netHUF, sums.vatHUF);
    RoundLaws(sums.netHUF);
    RoundLaws(sums.vatHUF);
  }

  lemma {:induction false} SumsStayNear(xs: seq<real>, ys: seq<real>, column: Column)
    requires |xs| == |ys| && forall k :: 0 <= k < |xs| ==> Distance(xs[k], ys[k]) <= Allowance(1, column)
    ensures Distance(SumOf(xs), SumOf(ys)) <= Allowance(|xs|, column)
    decreases |xs|
  {
    if xs != [] {
      var n := |xs| - 1;
      SumsStayNear(xs[..n], ys[..n], column);
      assert Distance(xs[n], ys[n]) <= Allowance(1, column);
    }
  }

  lemma LinesNearParts(lines: seq<Line>, items: seq<Item>, code: string, column: Column)
    requires Behind(lines, items, code)
    ensures Distance(SumOf(LineValues(lines, column, ForintSide)), SumOf(LineParts(items, column, ForintSide))) <=
            Allowance(|lines|, column)
  {
    forall k | 0 <= k < |lines|
      ensures Distance(LineValues(lines, column, ForintSide)[k], LineParts(items, column, ForintSide)[k]) <=
              Allowance(1, column)
    {
      HUFCell(SumsOf(items[k]), code, column);
    }
    SumsStayNear(LineValues(lines, column, ForintSide), LineParts(items, column, ForintSide), column);
  }

  lemma RowsNearParts(keys: seq<string>, items: seq<Item>, code: string, column: Column)
    ensures Distance(SumOf(RowValues(RowsOf(items, keys, code), column, ForintSide)),
                     SumOf(RowParts(keys, items, column, ForintSide))) <= Allowance(|keys|, column)
  {
    var rows := RowsOf(items, keys, code);
    forall i | 0 <= i < |keys|
      ensures Distance(RowValues(rows, column, ForintSide)[i], RowParts(keys, items, column, ForintSide)[i]) <=
              Allowance(1, column)
    {
      HUFCell(TotalSums(Under(items, keys[i])), code, column);
    }
    SumsStayNear(RowValues(rows, column, ForintSide), RowParts(keys, items, column, ForintSide), column);
  }

  /**
   In forints the printed parts, n lines or n rows, differ from the printed total
   by at most (n + 1) / 2 for net and VAT and by at most n + 1 for gross.
   */
  lemma ForintsNearlyConserved(doc: InvoiceData, inv: Invoice, opts: MapOptions, column: Column)
    requires Refusal(inv, opts).None? && IsDocument(doc, inv, opts)
    ensures Distance(SumOf(LineValues(doc.lines, column, ForintSide)), Val(Cell(doc.summary.totals, column, ForintSide)))
            <= Allowance(|doc.lines| + 1, column)
    ensures Distance(SumOf(RowValues(doc.summary.rows, column, ForintSide)),
                     Val(Cell(doc.summary.totals, column, ForintSide)))
            <= Allowance(|doc.summary.rows| + 1, column)
  {
    DocumentItems(doc, inv, opts);
    var items, code := DocItems(inv, opts), DocCode(inv);
    var keys := SummaryKeys(doc.summary, items, code);
    ForintPartsNear(doc.lines, keys, items, code, column);
  }

  lemma ForintPartsNear(lines: seq<Line>, keys: seq<string>, items: seq<Item>, code: string, column: Column)
    requires Behind(lines, items, code) && Ascending(keys) && Keys(items) <= Members(keys)
    ensures var total := Val(Cell(AmountsOf(TotalSums(items), code), column, ForintSide));
            && Distance(SumOf(LineValues(lines, column, ForintSide)), total) <= Allowance(|lines| + 1, column)
            && Distance(SumOf(RowValues(RowsOf(items, keys, code), column, ForintSide)), total) <=
               Allowance(|keys| + 1, column)
  {
    PartsSumToTotal(keys, items, column, ForintSide);
    LinesNearParts(lines, items, code, column);
    RowsNearParts(keys, items, code, column);
    HUFCell(TotalSums(items), code, column);
  }
}
