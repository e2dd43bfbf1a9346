/**
 What an emitted document shows, field by field, in terms of the invoice and the
 options it was mapped from.
 */
module Emitted {
  import opened Wrappers
  import opened Documents
  import opened Decimals
  import opened Currency
  import opened Invoices
  import opened TaxIds
  import opened Mapping
  import opened Mapper
  import opened Conservation
  import opened Reversals

  predicate Modifies(opts: MapOptions) {
    opts.operation == "MODIFY" || opts.operation == "STORNO"
  }

  // ---------- the head ----------

  /** The issue date is the finalization, else the effective date, else the creation: the first that is positive. */
  lemma IssuedFirst(doc: InvoiceData, inv: Invoice, opts: MapOptions)
    requires Refusal(inv, opts).None? && IsDocument(doc, inv, opts)
    ensures doc.issuedAt > 0
    ensures inv.finalizedAt.Some? && inv.finalizedAt.value > 0 ==> doc.issuedAt == inv.finalizedAt.value
    ensures inv.finalizedAt.None? || inv.finalizedAt.value <= 0 ==>
              doc.issuedAt == if inv.effectiveAt > 0 then inv.effectiveAt else inv.created
  {
  }

  /** Number and currency are the invoice's, the latter in upper case; the supplier's parts are the digits of its number. */
  lemma HeadShown(doc: InvoiceData, inv: Invoice, opts: MapOptions)
    requires Refusal(inv, opts).None? && IsDocument(doc, inv, opts)
    ensures doc.number == inv.number && |doc.currency| == |inv.currency|
    ensures forall i :: 0 <= i < |doc.currency| ==>
              if 'a' <= inv.currency[i] <= 'z' then doc.currency[i] as int == inv.currency[i] as int - 32
              else doc.currency[i] == inv.currency[i]
    ensures doc.supplier.taxpayerId + doc.supplier.vatCode + doc.supplier.countyCode ==
            DigitsOf(Core(opts.supplierTaxNumber))
  {
    PartsAreTheDigits(opts.supplierTaxNumber);
  }

  /** The rate shown is the one the amounts were converted with, to six decimals; one for forints. */
  lemma RateShown(doc: InvoiceData, inv: Invoice, opts: MapOptions)
    requires Refusal(inv, opts).None? && IsDocument(doc, inv, opts)
    ensures Forint(inv.currency) ==> Val(doc.exchangeRate) == 1.0
    ensures !Forint(inv.currency) ==> Val(doc.exchangeRate) == RoundTo(Val(opts.exchangeRateToHUF), 6)
  {
    ForintIff(inv.currency);
    ParseFloatString(RateOf(inv, opts).value, 6);
    if Forint(inv.currency) {
      RoundedOne();
    }
  }

  lemma RoundedOne()
    ensures RoundTo(1.0, 6) == 1.0
  {
    ShiftsCancel(1.0, 6);
    ShiftedLaws(1, 0, 6);
    RoundInteger(Shifted(1, 6));
  }

  /** A modification or storno refers to its original, as the given modification or else the first; nothing else does. */
  lemma ReferenceShown(doc: InvoiceData, inv: Invoice, opts: MapOptions)
    requires Refusal(inv, opts).None? && IsDocument(doc, inv, opts)
    ensures doc.reference.Some? <==> Modifies(opts)
    ensures Modifies(opts) ==>
              && doc.reference.value.originalInvoiceNumber == opts.originalInvoiceNumber != ""
              && doc.reference.value.modificationIndex >= 1
              && (opts.modificationIndex >= 1 ==> doc.reference.value.modificationIndex == opts.modificationIndex)
              && (opts.modificationIndex < 1 ==> doc.reference.value.modificationIndex == 1)
  {
  }

  // ---------- the lines ----------

  /** How many lines the chain had before this document. */
  function LinesBefore(inv: Invoice, opts: MapOptions): int
    requires inv.lines.Some?
  {
    if opts.originalLineCount >= 1 then opts.originalLineCount else |inv.lines.value.data|
  }

  /** The line shows its entry's place, text and quantity, and its place in the chain if it modifies one. */
  predicate ShowsEntry(line: Line, entry: InvoiceLine, i: nat, opts: MapOptions, before: int) {
    && line.number == i + 1
    && line.description == (if entry.description != "" then entry.description else "Item " + IntString(i + 1))
    && line.quantity == (if entry.quantity >= 1 then entry.quantity else 1)
    && line.chainPosition == (if Modifies(opts) then Some(before + i + 1) else None)
  }

  /** The k-th line shows the k-th entry that is not null, and there are no others. */
  lemma LinesShowEntries(doc: InvoiceData, inv: Invoice, opts: MapOptions)
    requires Refusal(inv, opts).None? && IsDocument(doc, inv, opts)
    ensures var data := inv.lines.value.data;
            && |doc.lines| == |Sources(data)|
            && forall k :: 0 <= k < |doc.lines| ==>
                 && Sources(data)[k] < |data| && data[Sources(data)[k]].Some?
                 && ShowsEntry(doc.lines[k], data[Sources(data)[k]].value, Sources(data)[k], opts, LinesBefore(inv, opts))
  {
    var data, code, rate := inv.lines.value.data, DocCode(inv), RateOf(inv, opts).value;
    var op, n := OperationOf(opts.operation).value, OriginalCount(inv, opts);
    SourceCount(data, code, rate, op, n);
    forall k | 0 <= k < |doc.lines|
      ensures Sources(data)[k] < |data| && data[Sources(data)[k]].Some?
      ensures ShowsEntry(doc.lines[k], data[Sources(data)[k]].value, Sources(data)[k], opts, LinesBefore(inv, opts))
    {
      LineAt(data, code, rate, op, n, k);
      EntryShown(data[Sources(data)[k]].value, Sources(data)[k], code, rate, opts, n);
    }
  }

  lemma EntryShown(entry: InvoiceLine, i: nat, code: string, rate: real, opts: MapOptions, n: int)
    requires OperationOf(opts.operation).Some?
    ensures ShowsEntry(LineOf(entry, i, code, rate, OperationOf(opts.operation).value, n), entry, i, opts, n)
  {
  }

  /** The entries that are not null, in order. */
  lemma {:induction false} SourcesAreEntries(data: seq<Option<InvoiceLine>>)
    ensures forall k :: 0 <= k < |Sources(data)| ==> Sources(data)[k] < |data| && data[Sources(data)[k]].Some?
    ensures forall j, k :: 0 <= j < k < |Sources(data)| ==> Sources(data)[j] < Sources(data)[k]
    ensures forall i :: 0 <= i < |data| && data[i].Some? ==> i in Sources(data)
  {
    if data != [] {
      var front := data[..|data| - 1];
      SourcesAreEntries(front);
      assert forall i :: 0 <= i < |front| ==> front[i] == data[i];
    }
  }

  // ---------- the amounts of a line ----------

  /** VAT is the sum of all tax amounts, of whatever behaviour and sign. */
  lemma {:induction false} VatAddsUp(a: seq<Option<Tax>>, b: seq<Option<Tax>>, code: string)
    ensures VatOf([], code) == 0.0
    ensures forall tax :: VatOf([Some(tax)], code) == AmountFromMinor(tax.amount, code) && VatOf([None], code) == 0.0
    ensures VatOf(a + b, code) == VatOf(a, code) + VatOf(b, code)
    decreases |b|
  {
    forall tax
      ensures VatOf([Some(tax)], code) == AmountFromMinor(tax.amount, code)
    {
      assert [Some(tax)][..0] == [];
    }
    if b == [] {
      assert a + b == a;
    } else {
      var last := |b| - 1;
      assert (a + b)[..|a| + last] == a + b[..last];
      VatAddsUp(a, b[..last], code);
    }
  }

  lemma {:induction false} InclusiveIff(taxes: seq<Option<Tax>>)
    ensures AnyInclusive(taxes) <==>
            exists i :: 0 <= i < |taxes| && taxes[i].Some? && taxes[i].value.behavior == Inclusive
  {
    if taxes != [] {
      var front := taxes[..|taxes| - 1];
      InclusiveIff(front);
      assert taxes == front + [taxes[|taxes| - 1]];
    }
  }

  /** Minor units are cents, or whole units in the currencies that have none. */
  lemma MinorUnits(minor: int, code: string)
    ensures AmountFromMinor(minor, code) == if ZeroDecimal(code) then minor as real else minor as real / 100.0
  {
  }

  /** A line's VAT rate is its VAT over its net to two decimals, and zero without a net. */
  lemma RateOfLine(line: InvoiceLine, idx: nat, code: string, rate: real, op: Operation, n: int)
    ensures var l := LineOf(line, idx, code, rate, op, n);
            var net, vat := Val(l.amounts.net), Val(l.amounts.vat);
            Val(l.vatPercentage) == if net == 0.0 then 0.0 else RoundTo(vat / net, 2)
  {
    var item := ItemOf(line, code, rate);
    ItemIsWhole(line, code, rate);
    AmountsOfLine(line, idx, code, rate, op, n);
    AmountsShow(item.net, item.vat, rate, code);
    assert Val(Cell(LineOf(line, idx, code, rate, op, n).amounts, NetColumn, InvoiceSide)) == item.net;
    assert Val(Cell(LineOf(line, idx, code, rate, op, n).amounts, VatColumn, InvoiceSide)) == item.vat;
    ParseFloatString(RatePct(item.net, item.vat), 2);
    RoundedZero();
  }

  lemma RoundedZero()
    ensures RoundTo(0.0, 2) == 0.0
  {
    ShiftsCancel(0.0, 2);
    ShiftUpLaws(0.0, 0.0, 2);
    ShiftDownLaws(0.0, 0.0, 2);
  }

  lemma LineShows(line: InvoiceLine, idx: nat, code: string, rate: real, op: Operation, n: int)
    returns (a: Amounts, net: real, vat: real)
    ensures a == LineOf(line, idx, code, rate, op, n).amounts && Shows(a, net, vat, rate)
  {
    var item := ItemOf(line, code, rate);
    a, net, vat := LineOf(line, idx, code, rate, op, n).amounts, item.net, item.vat;
    ItemIsWhole(line, code, rate);
    AmountsOfLine(line, idx, code, rate, op, n);
    AmountsShow(net, vat, rate, code);
  }

  /** Its forints are its net and its VAT, each converted at the rate and rounded, and gross is their sum. */
  lemma ForintsOfLine(line: InvoiceLine, idx: nat, code: string, rate: real, op: Operation, n: int)
    returns (a: Amounts, net: real, vat: real)
    ensures a == LineOf(line, idx, code, rate, op, n).amounts && Val(a.net) == net && Val(a.vat) == vat
    ensures Val(a.netHUF) == Round(net * rate) as real && Val(a.vatHUF) == Round(vat * rate) as real
    ensures Val(a.grossHUF) == Val(a.netHUF) + Val(a.vatHUF)
  {
    a, net, vat := LineShows(line, idx, code, rate, op, n);
    ForintCells(a, net, vat, rate, net * rate, vat * rate);
  }

  lemma ForintCells(a: Amounts, net: real, vat: real, rate: real, netHUF: real, vatHUF: real)
    requires Shows(a, net, vat, rate) && netHUF == ToHUF(net, rate) && vatHUF == ToHUF(vat, rate)
    ensures Val(a.net) == net && Val(a.vat) == vat
    ensures Val(a.netHUF) == Round(netHUF) as real && Val(a.vatHUF) == Round(vatHUF) as real
    ensures Val(a.grossHUF) == Val(a.netHUF) + Val(a.vatHUF)
  {
    CellShown(a, net, vat, rate, NetColumn, InvoiceSide);
    CellShown(a, net, vat, rate, VatColumn, InvoiceSide);
    CellShown(a, net, vat, rate, NetColumn, ForintSide);
    CellShown(a, net, vat, rate, VatColumn, ForintSide);
    CellShown(a, net, vat, rate, GrossColumn, ForintSide);
  }

  lemma CellShown(a: Amounts, net: real, vat: real, rate: real, column: Column, side: Side)
    requires Shows(a, net, vat, rate)
    ensures Val(Cell(a, column, side)) == Shown(net, vat, rate, column, side)
  {
  }

  // ---------- the order of the rows ----------

  /** Rates are ordered as strings, byte by byte, a prefix before its continuations. */
  lemma {:induction false} ByteOrder(a: string, b: string)
    ensures StringLess(a, b) <==> exists k: nat :: DecidesAt(a, b, k)
  {
    if a != [] && b != [] && a[0] == b[0] {
      ByteOrder(a[1..], b[1..]);
      if StringLess(a[1..], b[1..]) {
        var k: nat :| DecidesAt(a[1..], b[1..], k);
        assert DecidesAt(a, b, k + 1);
      }
      if exists k: nat :: DecidesAt(a, b, k) {
        var k: nat :| DecidesAt(a, b, k);
        assert DecidesAt(a[1..], b[1..], k - 1);
      }
    } else if StringLess(a, b) {
      assert DecidesAt(a, b, 0);
    }
  }

  /** The strings agree before position k, and a ends there or has the smaller character. */
  predicate DecidesAt(a: string, b: string, k: nat) {
    && k <= |a| && k < |b| && (k == |a| || a[k] < b[k])
    && forall i :: 0 <= i < k ==> a[i] == b[i]
  }

  // ---------- the clone ----------

  /** The clone is the invoice under a new number, finalized now, with its lines flipped and nothing else changed. */
  lemma CloneFields(inv: Invoice, now: int)
    ensures var clone := Storno(inv, now);
            && clone.number == inv.number + "-STORNO" && clone.finalizedAt == Some(now)
            && clone.currency == inv.currency && clone.effectiveAt == inv.effectiveAt && clone.created == inv.created
            && (clone.lines.Some? <==> inv.lines.Some?)
            && (inv.lines.Some? ==> clone.lines.value.hasMore == inv.lines.value.hasMore)
            && (inv.lines.Some? && Negatable(inv.lines.value.data) ==>
                  FlipsAll(inv.lines.value.data, clone.lines.value.data))
  {
    if inv.lines.Some? {
      var data := inv.lines.value.data;
      FlippedCount(data);
      forall k | 0 <= k < |Sources(data)|
        ensures FlippedLines(data)[k] == Some(FlippedLine(data[Sources(data)[k]].value))
      {
        FlippedAt(data, k);
      }
    }
  }

  /** The k-th flipped entry reverses the k-th entry that is not null. */
  ghost predicate FlipsAll(data: seq<Option<InvoiceLine>>, flipped: seq<Option<InvoiceLine>>) {
    && |flipped| == |Sources(data)|
    && forall k :: 0 <= k < |flipped| ==>
         flipped[k].Some? && Flips(data[Sources(data)[k]].value, flipped[k].value)
  }

  predicate Flips(line: InvoiceLine, flipped: InvoiceLine) {
    && flipped.description == line.description && flipped.quantity == line.quantity
    && flipped.amount as int == -(line.amount as int) && flipped.taxes == FlippedTaxes(line.taxes)
  }

  lemma OneTaxFlipped(tax: Tax)
    ensures FlippedTaxes([]) == [] && FlippedTaxes([None]) == []
    ensures var flipped := FlippedTaxes([Some(tax)]);
            |flipped| == 1 && flipped[0].Some? && Opposes(flipped[0].value, tax)
  {
    assert [Some(tax)][..0] == [];
  }

  /** So are its taxes, one by one and in order, without the null ones. */
  lemma {:induction false} TaxesFlipInOrder(a: seq<Option<Tax>>, b: seq<Option<Tax>>)
    ensures FlippedTaxes(a + b) == FlippedTaxes(a) + FlippedTaxes(b)
    decreases |b|
  {
    if b == [] {
      assert a + b == a;
      assert FlippedTaxes(a) + FlippedTaxes([]) == FlippedTaxes(a);
    } else {
      var last := |b| - 1;
      var tail := if b[last].None? then [] else [Some(FlippedTax(b[last].value))];
      assert (a + b)[..|a| + last] == a + b[..last];
      TaxesFlipInOrder(a, b[..last]);
      assert FlippedTaxes(a) + FlippedTaxes(b[..last]) + tail == FlippedTaxes(a) + (FlippedTaxes(b[..last]) + tail);
    }
  }

  /** The same tax with both amounts negated, as far as int64 allows. */
  predicate Opposes(a: Tax, b: Tax) {
    && a.behavior == b.behavior
    && (b.amount != INT64_MIN ==> a.amount == -b.amount)
    && (b.taxableAmount != INT64_MIN ==> a.taxableAmount == -b.taxableAmount)
  }
}
