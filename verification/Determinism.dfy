/**
 The mapper promises the same output for the same input. Its specification is a
 relation, since the bucket map is walked in any order; every invoice that is not
 refused is related to one document and no other. A concrete invoice and its
 storno show that there are such invoices.
 */
module Determinism {
  import opened Wrappers
  import opened Documents
  import opened Decimals
  import opened Currency
  import opened Invoices
  import opened TaxIds
  import opened Mapping
  import opened Mapper
  import opened Permutation
  import opened StornoLaws

  /** Where a new key goes in an ascending list. */
  function Place(keys: seq<string>, key: string): (i: nat)
    ensures i <= |keys|
    ensures forall j :: 0 <= j < i ==> StringLess(keys[j], key)
    ensures i < |keys| ==> !StringLess(keys[i], key)
  {
    if keys == [] || !StringLess(keys[0], key) then 0 else 1 + Place(keys[1..], key)
  }

  /** Any lines have an ascending listing of their rates. */
  lemma {:induction false} ListRates(items: seq<Item>) returns (keys: seq<string>)
    ensures Ascending(keys) && Members(keys) == Keys(items)
  {
    if items == [] {
      keys := [];
    } else {
      var front, last := items[..|items| - 1], items[|items| - 1];
      assert items == front + [last];
      KeysAppend(front, last);
      keys := ListRates(front);
      MembersAreElements(keys);
      if last.key !in keys {
        var i := Place(keys, last.key);
        InsertedAscending(keys, last.key, i);
        keys := keys[..i] + [last.key] + keys[i..];
      }
    }
  }

  lemma SummaryExists(items: seq<Item>, code: string) returns (summary: Summary)
    ensures IsSummary(summary, items, code)
  {
    var keys := ListRates(items);
    summary := Summary(RowsOf(items, keys, code), AmountsOf(TotalSums(items), code));
  }

  /** Every invoice that is not refused has a document. */
  lemma DocumentExists(inv: Invoice, opts: MapOptions) returns (doc: InvoiceData)
    requires Refusal(inv, opts).None?
    ensures IsDocument(doc, inv, opts)
  {
    var code, rate := ToUpper(inv.currency), RateOf(inv, opts).value;
    var data, op := inv.lines.value.data, OperationOf(opts.operation).value;
    var summary := SummaryExists(ItemsOf(data, code, rate), code);
    doc := InvoiceData(inv.number, IssueDate(inv).value, TaxNumberOf(opts.supplierTaxNumber).value, code,
                       FloatString(rate, 6), LinesOf(data, code, rate, op, OriginalCount(inv, opts)), summary,
                       ReferenceOf(opts, op));
  }

  /** And no other: whatever order the buckets are walked in, the same document comes out. */
  lemma DocumentIsUnique(doc: InvoiceData, other: InvoiceData, inv: Invoice, opts: MapOptions)
    requires Refusal(inv, opts).None? && IsDocument(doc, inv, opts) && IsDocument(other, inv, opts)
    ensures doc == other
  {
    var code, rate := ToUpper(inv.currency), RateOf(inv, opts).value;
    var items := ItemsOf(inv.lines.value.data, code, rate);
    SummaryOfBag(doc.summary, items, other.summary, items, code);
  }

  /** Every invoice that is not refused has a document and a storno document that reverses it. */
  lemma ReversalExists(inv: Invoice, opts: MapOptions, now: int) returns (orig: InvoiceData, storno: InvoiceData)
    requires Refusal(inv, opts).None? && now > 0
    ensures IsReversal(orig, inv, opts, storno, now)
  {
    orig := DocumentExists(inv, opts);
    StornoIsMappable(inv, opts, now);
    storno := DocumentExists(Storno(inv, now), StornoOptions(inv, opts, orig.exchangeRate));
  }

  // ---------- one of them ----------

  const SUPPLIER_NUMBER: string := "12345678242"

  function SomeOptions(rate: string): MapOptions {
    MapOptions(SUPPLIER_NUMBER, "x", "CREATE", "", 0, rate, 0)
  }

  /** An invoice in the given currency over the given lines. */
  function InvoiceIn(currency: string, data: seq<Option<InvoiceLine>>): Invoice {
    Invoice("A-1", currency, Some(1), 0, 0, Some(LineList(false, data)))
  }

  function EuroInvoice(data: seq<Option<InvoiceLine>>): Invoice {
    InvoiceIn("eur", data)
  }

  lemma SupplierIsValid(rate: string)
    ensures SupplierError(SomeOptions(rate)).None?
  {
    assert AllDigits(SUPPLIER_NUMBER);
    ElevenDigits(SUPPLIER_NUMBER);
    assert TrimSpace("x") == "x";
  }

  lemma EurosUpper()
    ensures ToUpper("eur") == "EUR"
  {
    assert ToUpper("eur")[0] == 'E' && ToUpper("eur")[1] == 'U' && ToUpper("eur")[2] == 'R';
  }

  /** With any readable rate, an invoice in any currency over lines that do not end in a null entry is accepted. */
  lemma InvoiceMaps(currency: string, data: seq<Option<InvoiceLine>>, text: string)
    requires currency != "" && data != [] && data[|data| - 1].Some?
    requires RateOf(InvoiceIn(currency, data), SomeOptions(text)).Some?
    ensures Refusal(InvoiceIn(currency, data), SomeOptions(text)).None?
  {
    SupplierIsValid(text);
  }

  /** With any whole exchange rate, an invoice in euros over any lines that do not end in a null entry is accepted. */
  lemma EuroInvoiceMaps(data: seq<Option<InvoiceLine>>, rate: nat)
    requires data != [] && data[|data| - 1].Some?
    ensures Refusal(EuroInvoice(data), SomeOptions(IntString(rate))).None?
    ensures RateOf(EuroInvoice(data), SomeOptions(IntString(rate))) == Some(rate as real)
  {
    EurosUpper();
    ParseIntString(rate);
    InvoiceMaps("eur", data, IntString(rate));
  }

  /** So every such invoice has its document and its reversal. */
  lemma EuroInvoiceReverses(data: seq<Option<InvoiceLine>>, rate: nat, now: int)
    returns (orig: InvoiceData, storno: InvoiceData)
    requires data != [] && data[|data| - 1].Some? && now > 0
    ensures IsReversal(orig, EuroInvoice(data), SomeOptions(IntString(rate)), storno, now)
  {
    EuroInvoiceMaps(data, rate);
    orig, storno := ReversalExists(EuroInvoice(data), SomeOptions(IntString(rate)), now);
  }
}
