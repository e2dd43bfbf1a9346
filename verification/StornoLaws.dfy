/**
 A STORNO against its original: the documents mapped from an invoice and from its
 sign-flipped clone, when the clone is converted at the rate the original prints.
 */
module StornoLaws {
  import opened Wrappers
  import opened Documents
  import opened Decimals
  import opened Currency
  import opened Invoices
  import opened Mapping
  import opened Mapper
  import opened Conservation
  import opened Reversals

  // ---------- the rate a storno takes over ----------

  function Millionths(n: int): real {
    n as real / 1_000_000.0
  }

  /** A rate with at most six decimals. */
  ghost predicate Lossless(rate: real) {
    exists n: int :: rate == Millionths(n)
  }

  lemma SixPlaces(x: real)
    ensures ShiftDown(x, 6) == x / 1_000_000.0
  {
    assert ShiftDown(x, 1) == x / 10.0;
    assert ShiftDown(x, 2) == x / 100.0;
    assert ShiftDown(x, 3) == x / 1_000.0;
    assert ShiftDown(x, 4) == x / 10_000.0;
    assert ShiftDown(x, 5) == x / 100_000.0;
  }

  lemma RoundedRate(rate: real)
    ensures RoundTo(rate, 6) == rate <==> Lossless(rate)
    ensures Abs(rate - RoundTo(rate, 6)) <= 1.0 / 2_000_000.0
  {
    var t := ShiftUp(rate, 6);
    ShiftsCancel(rate, 6);
    RoundLaws(t);
    SixPlaces(t);
    SixPlaces(Round(t) as real);
    assert RoundTo(rate, 6) == Millionths(Round(t));
    if Lossless(rate) {
      var n: int :| rate == Millionths(n);
      SixPlaces(n as real);
      ShiftsCancel(n as real, 6);
      RoundInteger(n);
    }
  }

  /** Re-reading the printed rate gives the rate back exactly when it has at most six decimals. */
  lemma PrintedRateIsLosslessIff(rate: real)
    ensures ParseDecimal(FloatString(rate, 6)) == Some(rate) <==> Lossless(rate)
  {
    ParseFloatString(rate, 6);
    RoundedRate(rate);
  }

  // ---------- the storno of a mapped invoice ----------

  /** The options a void is mapped with: same supplier, the original's number and line count, and a rate. */
  function StornoOptions(inv: Invoice, opts: MapOptions, rate: string): MapOptions {
    MapOptions(opts.supplierTaxNumber, opts.supplierStreet, "STORNO", inv.number, 0, rate,
               if inv.lines.Some? then |inv.lines.value.data| else 0)
  }

  /** The rate a storno converts with when it takes over the printed rate of its original. */
  function StornoRate(inv: Invoice, opts: MapOptions): real
    requires Refusal(inv, opts).None?
  {
    if ToUpper(inv.currency) == "HUF" then 1.0 else RoundTo(RateOf(inv, opts).value, 6)
  }

  /** orig is the document of an invoice, and storno that of its clone, mapped with the rate orig prints. */
  ghost predicate IsReversal(orig: InvoiceData, inv: Invoice, opts: MapOptions, storno: InvoiceData, now: int) {
    && now > 0
    && Refusal(inv, opts).None? && IsDocument(orig, inv, opts)
    && Refusal(Storno(inv, now), StornoOptions(inv, opts, orig.exchangeRate)).None?
    && IsDocument(storno, Storno(inv, now), StornoOptions(inv, opts, orig.exchangeRate))
  }

  /** The void of an invoice that could be reported can be reported, at the printed rate of the original. */
  lemma StornoIsMappable(inv: Invoice, opts: MapOptions, now: int)
    requires Refusal(inv, opts).None? && now > 0
    ensures var printed := FloatString(RateOf(inv, opts).value, 6);
            && Refusal(Storno(inv, now), StornoOptions(inv, opts, printed)).None?
            && RateOf(Storno(inv, now), StornoOptions(inv, opts, printed)) == Some(StornoRate(inv, opts))
  {
    var rate := RateOf(inv, opts).value;
    ParseFloatString(rate, 6);
    SignShows(rate, 6);
    assert StornoOptions(inv, opts, FloatString(rate, 6)).exchangeRateToHUF != "";
    StornoLineCount(inv.lines.value.data, ToUpper(inv.currency), rate, StornoRate(inv, opts), Create, 0, 0);
    StornoChecksPass(inv, opts, now, FloatString(rate, 6));
  }

  lemma StornoChecksPass(inv: Invoice, opts: MapOptions, now: int, printed: string)
    requires Refusal(inv, opts).None? && now > 0
    requires ParseDecimal(printed) == Some(RoundTo(RateOf(inv, opts).value, 6)) && printed != ""
    requires |ItemsOf(FlippedLines(inv.lines.value.data), ToUpper(inv.currency), StornoRate(inv, opts))| ==
             |ItemsOf(inv.lines.value.data, ToUpper(inv.currency), RateOf(inv, opts).value)| ==
             |FlippedLines(inv.lines.value.data)|
    ensures Refusal(Storno(inv, now), StornoOptions(inv, opts, printed)).None?
    ensures RateOf(Storno(inv, now), StornoOptions(inv, opts, printed)) == Some(StornoRate(inv, opts))
  {
    var storno, sopts := Storno(inv, now), StornoOptions(inv, opts, printed);
    StornoOptionsPass(inv, opts, printed);
    StornoInvoicePasses(inv, now, StornoRate(inv, opts));
    assert RateOf(storno, sopts) == Some(StornoRate(inv, opts));
  }

  lemma StornoOptionsPass(inv: Invoice, opts: MapOptions, printed: string)
    requires Refusal(inv, opts).None?
    ensures var sopts := StornoOptions(inv, opts, printed); OptionsError(sopts).None? && SupplierError(sopts).None?
  {
  }

  lemma StornoInvoicePasses(inv: Invoice, now: int, stornoRate: real)
    requires InvoiceError(inv).None? && now > 0
    requires |ItemsOf(FlippedLines(inv.lines.value.data), ToUpper(inv.currency), stornoRate)| ==
             |FlippedLines(inv.lines.value.data)| > 0
    ensures InvoiceError(Storno(inv, now)).None?
  {
  }

  // ---------- the storno document against its original ----------

  ghost predicate DocumentReverses(orig: InvoiceData, storno: InvoiceData, rate: real, stornoRate: real) {
    && |storno.lines| == |orig.lines|
    && (forall k :: 0 <= k < |orig.lines| ==> LineReverses(orig.lines[k], storno.lines[k], rate, stornoRate))
    && SummaryReverses(orig.summary, storno.summary, rate, stornoRate)
  }

  /** What a reversal shares with its original's mapping: the lines it is made from and the rate it converts at. */
  lemma ReversalMapping(orig: InvoiceData, inv: Invoice, opts: MapOptions, storno: InvoiceData, now: int)
    requires IsReversal(orig, inv, opts, storno, now)
    ensures var data, code := inv.lines.value.data, DocCode(inv);
            && orig.lines == LinesOf(data, code, RateOf(inv, opts).value, OperationOf(opts.operation).value,
                                     OriginalCount(inv, opts))
            && storno.lines == LinesOf(FlippedLines(data), code, StornoRate(inv, opts), StornoOp, |data|)
            && IsSummary(orig.summary, ItemsOf(data, code, RateOf(inv, opts).value), code)
            && IsSummary(storno.summary, ItemsOf(FlippedLines(data), code, StornoRate(inv, opts)), code)
  {
    StornoIsMappable(inv, opts, now);
  }

  lemma StornoReverses(orig: InvoiceData, inv: Invoice, opts: MapOptions, storno: InvoiceData, now: int)
    requires IsReversal(orig, inv, opts, storno, now) && Negatable(inv.lines.value.data)
    ensures DocumentReverses(orig, storno, RateOf(inv, opts).value, StornoRate(inv, opts))
  {
    ReversalMapping(orig, inv, opts, storno, now);
    var data, code := inv.lines.value.data, DocCode(inv);
    var rate, stornoRate := RateOf(inv, opts).value, StornoRate(inv, opts);
    var op, n := OperationOf(opts.operation).value, OriginalCount(inv, opts);
    StornoLineCount(data, code, rate, stornoRate, op, n, |data|);
    SourceCount(data, code, rate, op, n);
    forall k | 0 <= k < |orig.lines|
      ensures LineReverses(orig.lines[k], storno.lines[k], rate, stornoRate)
    {
      ReversedAt(data, code, rate, stornoRate, op, n, |data|, k);
    }
    MirroredItems(data, code, rate, stornoRate);
    ReversedSummary(orig.summary, ItemsOf(data, code, rate),
                    storno.summary, ItemsOf(FlippedLines(data), code, stornoRate), code, rate, stornoRate);
  }

  /** Same lines at the same rates, every unit price and every amount of lines, rows and totals negated. */
  ghost predicate Cancels(orig: InvoiceData, storno: InvoiceData, side: Side) {
    && |storno.lines| == |orig.lines|
    && (forall k :: 0 <= k < |orig.lines| ==>
          && storno.lines[k].vatPercentage == orig.lines[k].vatPercentage
          && storno.lines[k].quantity == orig.lines[k].quantity
          && PriceNegated(orig.lines[k], storno.lines[k], side)
          && Opposite(orig.lines[k].amounts, storno.lines[k].amounts, side))
    && |storno.summary.rows| == |orig.summary.rows|
    && (forall i :: 0 <= i < |orig.summary.rows| ==>
          && storno.summary.rows[i].vatPercentage == orig.summary.rows[i].vatPercentage
          && Opposite(orig.summary.rows[i].amounts, storno.summary.rows[i].amounts, side))
    && Opposite(orig.summary.totals, storno.summary.totals, side)
  }

  lemma ReversalsCancel(orig: InvoiceData, storno: InvoiceData, rate: real, stornoRate: real, side: Side)
    requires DocumentReverses(orig, storno, rate, stornoRate) && (side == InvoiceSide || rate == stornoRate)
    ensures Cancels(orig, storno, side)
  {
    forall k | 0 <= k < |orig.lines|
      ensures Opposite(orig.lines[k].amounts, storno.lines[k].amounts, side)
      ensures PriceNegated(orig.lines[k], storno.lines[k], side)
      ensures storno.lines[k].vatPercentage == orig.lines[k].vatPercentage
      ensures storno.lines[k].quantity == orig.lines[k].quantity
    {
      assert LineReverses(orig.lines[k], storno.lines[k], rate, stornoRate);
      ReversalCancels(orig.lines[k].amounts, storno.lines[k].amounts, rate, stornoRate);
    }
    forall i | 0 <= i < |orig.summary.rows|
      ensures Opposite(orig.summary.rows[i].amounts, storno.summary.rows[i].amounts, side)
    {
      ReversalCancels(orig.summary.rows[i].amounts, storno.summary.rows[i].amounts, rate, stornoRate);
    }
    ReversalCancels(orig.summary.totals, storno.summary.totals, rate, stornoRate);
  }

  lemma {:induction false} SourceIndex(data: seq<Option<InvoiceLine>>, i: nat) returns (k: nat)
    requires i < |data| && data[i].Some?
    ensures k < |Sources(data)| && Sources(data)[k] == i
  {
    var last := |data| - 1;
    if i == last {
      k := |Sources(data)| - 1;
    } else {
      k := SourceIndex(data[..last], i);
    }
  }

  /** Two opposite lines show that nothing overflowed when the line was negated. */
  lemma OppositeMeansNegatable(line: InvoiceLine, idx: nat, stornoIdx: nat, code: string, rate: real, stornoRate: real,
                               op: Operation, n: int, stornoOp: Operation, m: int)
    requires Opposite(LineOf(line, idx, code, rate, op, n).amounts,
                      LineOf(FlippedLine(line), stornoIdx, code, stornoRate, stornoOp, m).amounts, InvoiceSide)
    ensures NegatableLine(line)
  {
    var a, b := ItemOf(line, code, rate), ItemOf(FlippedLine(line), code, stornoRate);
    AmountsOfLine(line, idx, code, rate, op, n);
    AmountsOfLine(FlippedLine(line), stornoIdx, code, stornoRate, stornoOp, m);
    ItemIsWhole(line, code, rate);
    ItemIsWhole(FlippedLine(line), code, stornoRate);
    WholeAmountsPrint(SumsAt(a.net, a.vat, rate), code, NetColumn);
    WholeAmountsPrint(SumsAt(a.net, a.vat, rate), code, VatColumn);
    WholeAmountsPrint(SumsAt(b.net, b.vat, stornoRate), code, NetColumn);
    WholeAmountsPrint(SumsAt(b.net, b.vat, stornoRate), code, VatColumn);
    FlippedItem(line, code, rate, stornoRate);
  }

  lemma CancellingIsNegatable(orig: InvoiceData, inv: Invoice, opts: MapOptions, storno: InvoiceData, now: int)
    requires IsReversal(orig, inv, opts, storno, now) && Cancels(orig, storno, InvoiceSide)
    ensures Negatable(inv.lines.value.data)
  {
    ReversalMapping(orig, inv, opts, storno, now);
    var data, code := inv.lines.value.data, DocCode(inv);
    var rate, stornoRate := RateOf(inv, opts).value, StornoRate(inv, opts);
    var op, n := OperationOf(opts.operation).value, OriginalCount(inv, opts);
    forall i | 0 <= i < |data| && data[i].Some?
      ensures NegatableLine(data[i].value)
    {
      var k := SourceIndex(data, i);
      SourceLines(data, code, rate, stornoRate, op, n, |data|, i, k);
      assert Opposite(orig.lines[k].amounts, storno.lines[k].amounts, InvoiceSide);
      OppositeMeansNegatable(data[i].value, i, k, code, rate, stornoRate, op, n, StornoOp, |data|);
    }
  }

  /**
   In invoice currency the storno of any mapped invoice cancels it, line by line,
   rate row by rate row and in total, exactly when no amount is the int64 minimum.
   */
  lemma StornoCancelsIff(orig: InvoiceData, inv: Invoice, opts: MapOptions, storno: InvoiceData, now: int)
    requires IsReversal(orig, inv, opts, storno, now)
    ensures Cancels(orig, storno, InvoiceSide) <==> Negatable(inv.lines.value.data)
  {
    if Negatable(inv.lines.value.data) {
      StornoReverses(orig, inv, opts, storno, now);
      ReversalsCancel(orig, storno, RateOf(inv, opts).value, StornoRate(inv, opts), InvoiceSide);
    }
    if Cancels(orig, storno, InvoiceSide) {
      CancellingIsNegatable(orig, inv, opts, storno, now);
    }
  }

  /** In forints it cancels too when the rate has at most six decimals, as it has for an invoice in forints. */
  lemma StornoCancelsForints(orig: InvoiceData, inv: Invoice, opts: MapOptions, storno: InvoiceData, now: int)
    requires IsReversal(orig, inv, opts, storno, now) && Negatable(inv.lines.value.data)
    requires Lossless(RateOf(inv, opts).value)
    ensures Cancels(orig, storno, ForintSide)
  {
    StornoReverses(orig, inv, opts, storno, now);
    RoundedRate(RateOf(inv, opts).value);
    ReversalsCancel(orig, storno, RateOf(inv, opts).value, StornoRate(inv, opts), ForintSide);
  }

  /**
   With a longer rate, what stays of any line, row or total x after the storno is
   at most |x| / 2,000,000 plus one forint for net, VAT and unit price, two for gross.
   */
  lemma StornoResidue(orig: InvoiceData, inv: Invoice, opts: MapOptions, storno: InvoiceData, now: int)
    requires IsReversal(orig, inv, opts, storno, now) && Negatable(inv.lines.value.data)
    ensures |storno.lines| == |orig.lines| && |storno.summary.rows| == |orig.summary.rows|
    ensures forall k :: 0 <= k < |orig.lines| ==>
              ResidueBounded(orig.lines[k].amounts, storno.lines[k].amounts) &&
              PriceResidueBounded(orig.lines[k], storno.lines[k])
    ensures forall i :: 0 <= i < |orig.summary.rows| ==>
              ResidueBounded(orig.summary.rows[i].amounts, storno.summary.rows[i].amounts)
    ensures ResidueBounded(orig.summary.totals, storno.summary.totals)
  {
    var rate, stornoRate := RateOf(inv, opts).value, StornoRate(inv, opts);
    StornoReverses(orig, inv, opts, storno, now);
    RoundedRate(rate);
    forall k | 0 <= k < |orig.lines|
      ensures ResidueBounded(orig.lines[k].amounts, storno.lines[k].amounts)
      ensures PriceResidueBounded(orig.lines[k], storno.lines[k])
    {
      assert LineReverses(orig.lines[k], storno.lines[k], rate, stornoRate);
      PriceResidue(orig.lines[k], storno.lines[k], rate, stornoRate);
      ReversalResidue(orig.lines[k].amounts, storno.lines[k].amounts, rate, stornoRate);
    }
    forall i | 0 <= i < |orig.summary.rows|
      ensures ResidueBounded(orig.summary.rows[i].amounts, storno.summary.rows[i].amounts)
    {
      ReversalResidue(orig.summary.rows[i].amounts, storno.summary.rows[i].amounts, rate, stornoRate);
    }
    ReversalResidue(orig.summary.totals, storno.summary.totals, rate, stornoRate);
  }

  predicate TakesPlace(line: Line, k: nat, n: nat) {
    line.number == k + 1 && line.chainPosition == Some(n + k + 1)
  }

  /** Lines numbered from one that take the chain positions right after the first n. */
  ghost predicate Extend(lines: seq<Line>, n: nat) {
    forall k :: 0 <= k < |lines| ==> TakesPlace(lines[k], k, n)
  }

  /**
   The storno's lines take the chain positions right after the original's n
   entries: exactly n+1..2n when none of them is null.
   */
  lemma StornoExtendsChain(orig: InvoiceData, inv: Invoice, opts: MapOptions, storno: InvoiceData, now: int)
    requires IsReversal(orig, inv, opts, storno, now)
    ensures Extend(storno.lines, |inv.lines.value.data|)
  {
    var data, code, stornoRate := StornoSource(orig, inv, opts, storno, now);
    FlippedCount(data);
    LinesExtend(FlippedLines(data), code, stornoRate, |data|);
  }

  lemma LinePlace(line: InvoiceLine, idx: nat, code: string, rate: real, n: nat)
    ensures TakesPlace(LineOf(line, idx, code, rate, StornoOp, n), idx, n)
  {
  }

  lemma PlaceAt(data: seq<Option<InvoiceLine>>, code: string, rate: real, n: nat, k: nat)
    requires forall i :: 0 <= i < |data| ==> data[i].Some?
    requires k < |data|
    ensures |LinesOf(data, code, rate, StornoOp, n)| == |data|
    ensures TakesPlace(LinesOf(data, code, rate, StornoOp, n)[k], k, n)
  {
    NoNulls(data);
    LineAt(data, code, rate, StornoOp, n, k);
    LinePlace(data[k].value, k, code, rate, n);
  }

  lemma LinesExtend(data: seq<Option<InvoiceLine>>, code: string, rate: real, n: nat)
    requires forall i :: 0 <= i < |data| ==> data[i].Some?
    ensures Extend(LinesOf(data, code, rate, StornoOp, n), n)
  {
    NoNulls(data);
    SourceCount(data, code, rate, StornoOp, n);
    forall k | 0 <= k < |data|
      ensures TakesPlace(LinesOf(data, code, rate, StornoOp, n)[k], k, n)
    {
      PlaceAt(data, code, rate, n, k);
    }
  }

  lemma StornoSource(orig: InvoiceData, inv: Invoice, opts: MapOptions, storno: InvoiceData, now: int)
    returns (data: seq<Option<InvoiceLine>>, code: string, stornoRate: real)
    requires IsReversal(orig, inv, opts, storno, now)
    ensures data == inv.lines.value.data
    ensures storno.lines == LinesOf(FlippedLines(data), code, stornoRate, StornoOp, |data|)
  {
    data, code, stornoRate := inv.lines.value.data, DocCode(inv), StornoRate(inv, opts);
    ReversalMapping(orig, inv, opts, storno, now);
  }

  /** The storno has a line for each line of the original, which is one for each entry that is not null. */
  lemma StornoKeepsLines(orig: InvoiceData, inv: Invoice, opts: MapOptions, storno: InvoiceData, now: int)
    requires IsReversal(orig, inv, opts, storno, now)
    ensures |storno.lines| == |orig.lines| == |Sources(inv.lines.value.data)| <= |inv.lines.value.data|
    ensures (forall i :: 0 <= i < |inv.lines.value.data| ==> inv.lines.value.data[i].Some?) ==>
              |storno.lines| == |inv.lines.value.data|
  {
    ReversalMapping(orig, inv, opts, storno, now);
    ChainCount(inv.lines.value.data, DocCode(inv), RateOf(inv, opts).value, StornoRate(inv, opts),
               OperationOf(opts.operation).value, OriginalCount(inv, opts));
  }

  lemma ChainCount(data: seq<Option<InvoiceLine>>, code: string, rate: real, stornoRate: real, op: Operation, m: int)
    ensures |LinesOf(FlippedLines(data), code, stornoRate, StornoOp, |data|)| == |LinesOf(data, code, rate, op, m)| ==
            |Sources(data)| <= |data|
    ensures (forall i :: 0 <= i < |data| ==> data[i].Some?) ==> |Sources(data)| == |data|
  {
    StornoLineCount(data, code, rate, stornoRate, op, m, |data|);
    SourceCount(data, code, rate, op, m);
    SourcesFit(data);
    if forall i :: 0 <= i < |data| ==> data[i].Some? {
      NoNulls(data);
    }
  }

  /** The storno is a new document that refers to its original by number, as its first modification. */
  lemma StornoRefersBack(orig: InvoiceData, inv: Invoice, opts: MapOptions, storno: InvoiceData, now: int)
    requires IsReversal(orig, inv, opts, storno, now)
    ensures storno.reference == Some(Reference(orig.number, 1))
    ensures storno.number == orig.number + "-STORNO" && storno.number != orig.number
    ensures storno.issuedAt == now && storno.supplier == orig.supplier && storno.currency == orig.currency
  {
    StornoIsMappable(inv, opts, now);
  }

  lemma {:induction false} SourcesFit(data: seq<Option<InvoiceLine>>)
    ensures |Sources(data)| <= |data|
  {
    if data != [] {
      SourcesFit(data[..|data| - 1]);
    }
  }
}
