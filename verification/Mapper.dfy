/** The mapper's code: running totals updated in place, buckets by printed rate, and MapInvoice around them. */
module Mapper {
  import opened Wrappers
  import opened Documents
  import opened Decimals
  import opened Currency
  import opened Invoices
  import opened TaxIds
  import opened Mapping

  /** rateTotals and invoiceTotals: four exact sums that grow line by line; filed remembers the lines. */
  class Accumulator {
    var sums: Sums
    ghost var filed: seq<Item>

    ghost predicate Valid()
      reads this
    {
      sums == TotalSums(filed)
    }

    constructor ()
      ensures Valid() && filed == []
    {
      sums := Sums(0.0, 0.0, 0.0, 0.0);
      filed := [];
    }

    method Add(item: Item)
      requires Valid()
      modifies this
      ensures Valid() && filed == old(filed) + [item]
    {
      sums := sums.(netFC := sums.netFC + item.net);
      sums := sums.(vatFC := sums.vatFC + item.vat);
      sums := sums.(netHUF := sums.netHUF + item.netHUF);
      sums := sums.(vatHUF := sums.vatHUF + item.vatHUF);
      TotalAppend(filed, item, NetFC);
      TotalAppend(filed, item, VatFC);
      TotalAppend(filed, item, NetHUF);
      TotalAppend(filed, item, VatHUF);
      filed := filed + [item];
    }
  }

  /** There is one bucket for every printed rate among the items, holding the items under it, in order. */
  ghost predicate Tallies(byRate: map<string, Accumulator>, totals: Accumulator, items: seq<Item>)
    reads byRate.Values, totals
  {
    && byRate.Keys == Keys(items)
    && (forall key :: key in byRate ==> byRate[key].Valid() && byRate[key].filed == Under(items, key))
    && totals.Valid() && totals.filed == items
  }

  ghost predicate Separate(byRate: map<string, Accumulator>, totals: Accumulator) {
    && (forall key :: key in byRate ==> byRate[key] != totals)
    && (forall a, b :: a in byRate && b in byRate && a != b ==> byRate[a] != byRate[b])
  }

  /** The inner loop over a line's taxes. */
  method ItemFor(line: InvoiceLine, code: string, rate: real) returns (item: Item)
    ensures item == ItemOf(line, code, rate)
  {
    var amount := AmountFromMinor(line.amount, code);
    var vat := 0.0;
    var inclusive := false;
    var i := 0;
    while i < |line.taxes|
      invariant 0 <= i <= |line.taxes|
      invariant vat == VatOf(line.taxes[..i], code)
      invariant inclusive == AnyInclusive(line.taxes[..i])
    {
      assert line.taxes[..i + 1][..i] == line.taxes[..i];
      if line.taxes[i].Some? {
        var tax := line.taxes[i].value;
        vat := vat + AmountFromMinor(tax.amount, code);
        if tax.behavior == Inclusive {
          inclusive := true;
        }
      }
      i := i + 1;
    }
    assert line.taxes[..|line.taxes|] == line.taxes;
    var net := if inclusive then amount - vat else amount;
    var ratePct := 0.0;
    if net != 0.0 {
      ratePct := vat / net;
    }
    item := Item(net, vat, ToHUF(net, rate), ToHUF(vat, rate), FloatString(ratePct, 2));
  }

  /** Opens an empty bucket for a rate that has none yet. */
  method EnsureBucket(byRate: map<string, Accumulator>, totals: Accumulator, key: string, ghost items: seq<Item>)
    returns (after: map<string, Accumulator>)
    requires Tallies(byRate, totals, items) && Separate(byRate, totals)
    ensures after.Keys == Keys(items) + {key} && Separate(after, totals)
    ensures forall k :: k in after ==> after[k].Valid() && after[k].filed == Under(items, k)
    ensures forall k :: k in after ==> (k in byRate && after[k] == byRate[k]) || fresh(after[k])
  {
    after := byRate;
    if key !in after {
      NothingUnder(items, key);
      var created := new Accumulator();
      after := after[key := created];
    }
  }

  /** Files one item under its rate and adds it to the totals. */
  method Tally(byRate: map<string, Accumulator>, totals: Accumulator, item: Item, ghost items: seq<Item>)
    returns (after: map<string, Accumulator>)
    requires Tallies(byRate, totals, items) && Separate(byRate, totals)
    modifies byRate.Values, totals
    ensures Tallies(after, totals, items + [item]) && Separate(after, totals)
    ensures forall key :: key in after ==> (key in byRate && after[key] == byRate[key]) || fresh(after[key])
  {
    after := EnsureBucket(byRate, totals, item.key, items);
    var bucket := after[item.key];
    bucket.Add(item);
    totals.Add(item);
    KeysAppend(items, item);
    forall key | key in after
      ensures after[key].Valid() && after[key].filed == Under(items + [item], key)
    {
      UnderAppend(items, item, key);
    }
  }

  /** The emitted line, with its chain position on a modification or a storno. */
  method LineFor(l: InvoiceLine, idx: nat, item: Item, code: string, rate: real, op: Operation, originalLineCount: int)
    returns (line: Line)
    requires item == ItemOf(l, code, rate)
    ensures line == LineOf(l, idx, code, rate, op, originalLineCount)
  {
    var quantity := MaxInt64(1, l.quantity);
    var description := l.description;
    if description == "" {
      description := "Item " + IntString(idx + 1);
    }
    line := Line(idx + 1, description, quantity,
                 FormatAmount(item.net / quantity as real, code),
                 FormatHUF(item.netHUF / quantity as real),
                 item.key,
                 AmountsOf(Sums(item.net, item.vat, item.netHUF, item.vatHUF), code),
                 None);
    if op == Modify || op == StornoOp {
      line := line.(chainPosition := Some(originalLineCount + idx + 1));
    }
  }

  /** The body of the loop for one line: compute it, file it, print it. */
  method AddLine(l: InvoiceLine, idx: nat, code: string, rate: real, op: Operation, originalLineCount: int,
                 byRate: map<string, Accumulator>, totals: Accumulator, ghost items: seq<Item>)
    returns (line: Line, after: map<string, Accumulator>)
    requires Tallies(byRate, totals, items) && Separate(byRate, totals)
    modifies byRate.Values, totals
    ensures line == LineOf(l, idx, code, rate, op, originalLineCount)
    ensures Tallies(after, totals, items + [ItemOf(l, code, rate)]) && Separate(after, totals)
    ensures forall key :: key in after ==> (key in byRate && after[key] == byRate[key]) || fresh(after[key])
  {
    var item := ItemFor(l, code, rate);
    after := Tally(byRate, totals, item, items);
    line := LineFor(l, idx, item, code, rate, op, originalLineCount);
  }

  /** What one more entry of the line list adds to the emitted lines and to the items. */
  lemma NextEntry(data: seq<Option<InvoiceLine>>, idx: nat, code: string, rate: real, op: Operation, n: int)
    requires idx < |data|
    ensures LinesOf(data[..idx + 1], code, rate, op, n) ==
            LinesOf(data[..idx], code, rate, op, n) +
            if data[idx].None? then [] else [LineOf(data[idx].value, idx, code, rate, op, n)]
    ensures ItemsOf(data[..idx + 1], code, rate) ==
            ItemsOf(data[..idx], code, rate) + if data[idx].None? then [] else [ItemOf(data[idx].value, code, rate)]
  {
    assert data[..idx + 1][..idx] == data[..idx];
  }

  /** One pass of the loop: a null entry is skipped, any other is added. */
  method AddEntry(data: seq<Option<InvoiceLine>>, idx: nat, code: string, rate: real, op: Operation,
                  originalLineCount: int, lines: seq<Line>, byRate: map<string, Accumulator>, totals: Accumulator)
    returns (more: seq<Line>, after: map<string, Accumulator>)
    requires idx < |data| && lines == LinesOf(data[..idx], code, rate, op, originalLineCount)
    requires Tallies(byRate, totals, ItemsOf(data[..idx], code, rate)) && Separate(byRate, totals)
    modifies byRate.Values, totals
    ensures more == LinesOf(data[..idx + 1], code, rate, op, originalLineCount)
    ensures Tallies(after, totals, ItemsOf(data[..idx + 1], code, rate)) && Separate(after, totals)
    ensures forall key :: key in after ==> (key in byRate && after[key] == byRate[key]) || fresh(after[key])
  {
    more, after := lines, byRate;
    ghost var items := ItemsOf(data[..idx], code, rate);
    if data[idx].Some? {
      var line: Line;
      line, after := AddLine(data[idx].value, idx, code, rate, op, originalLineCount, byRate, totals, items);
      more := lines + [line];
    }
    NextEntry(data, idx, code, rate, op, originalLineCount);
  }

  /** buildLines: the loop over the invoice's lines, skipping null entries. */
  method BuildLines(data: seq<Option<InvoiceLine>>, code: string, rate: real, op: Operation, originalLineCount: int)
    returns (lines: seq<Line>, byRate: map<string, Accumulator>, totals: Accumulator)
    ensures lines == LinesOf(data, code, rate, op, originalLineCount)
    ensures Tallies(byRate, totals, ItemsOf(data, code, rate))
    ensures fresh(totals) && forall key :: key in byRate ==> fresh(byRate[key])
  {
    lines := [];
    byRate := map[];
    totals := new Accumulator();
    var idx := 0;
    while idx < |data|
      invariant 0 <= idx <= |data|
      invariant lines == LinesOf(data[..idx], code, rate, op, originalLineCount)
      invariant fresh(totals) && forall key :: key in byRate ==> fresh(byRate[key])
      invariant Tallies(byRate, totals, ItemsOf(data[..idx], code, rate)) && Separate(byRate, totals)
    {
      lines, byRate := AddEntry(data, idx, code, rate, op, originalLineCount, lines, byRate, totals);
      idx := idx + 1;
    }
    assert data[..|data|] == data;
  }

  /** Insertion into an ascending list; sort.Strings on distinct keys. */
  method InsertKey(keys: seq<string>, key: string) returns (r: seq<string>)
    requires Ascending(keys) && key !in keys
    ensures Ascending(r) && Members(r) == Members(keys) + {key}
    ensures forall k :: k in r <==> k in keys || k == key
  {
    var i := 0;
    while i < |keys| && StringLess(keys[i], key)
      invariant 0 <= i <= |keys|
      invariant forall j :: 0 <= j < i ==> StringLess(keys[j], key)
    {
      i := i + 1;
    }
    r := keys[..i] + [key] + keys[i..];
    InsertedAscending(keys, key, i);
  }

  lemma InsertedAscending(keys: seq<string>, key: string, i: nat)
    requires Ascending(keys) && key !in keys && i <= |keys|
    requires forall j :: 0 <= j < i ==> StringLess(keys[j], key)
    requires i < |keys| ==> !StringLess(keys[i], key)
    ensures var r := keys[..i] + [key] + keys[i..];
            && Ascending(r) && Members(r) == Members(keys) + {key}
            && forall k :: k in r <==> k in keys || k == key
  {
    var r := keys[..i] + [key] + keys[i..];
    forall j | i <= j < |keys|
      ensures StringLess(key, keys[j])
    {
      StringLessTotal(keys[i], key);
      if j > i {
        StringLessTransitive(key, keys[i], keys[j]);
      }
    }
    SplicedAscending(keys, key, i);
    assert keys == keys[..i] + keys[i..];
    assert forall k :: k in r <==> k in keys || k == key;
    MembersAreElements(r);
    MembersAreElements(keys);
  }

  lemma SplicedAscending(keys: seq<string>, key: string, i: nat)
    requires Ascending(keys) && i <= |keys|
    requires forall j :: 0 <= j < i ==> StringLess(keys[j], key)
    requires forall j :: i <= j < |keys| ==> StringLess(key, keys[j])
    ensures Ascending(keys[..i] + [key] + keys[i..])
  {
    var r := keys[..i] + [key] + keys[i..];
    assert forall j :: 0 <= j < |r| ==> r[j] == if j < i then keys[j] else if j == i then key else keys[j - 1];
  }

  lemma MembersAreElements(keys: seq<string>)
    ensures forall k :: k in Members(keys) <==> k in keys
  {
  }

  /** The keys of the bucket map, sorted. */
  method SortedKeys(found: set<string>) returns (keys: seq<string>)
    ensures Ascending(keys) && Members(keys) == found
  {
    keys := [];
    var todo := found;
    while todo != {}
      invariant todo <= found
      invariant Ascending(keys)
      invariant Members(keys) == found - todo
      invariant forall k :: k in keys <==> k in found - todo
      decreases todo
    {
      var k :| k in todo;
      todo := todo - {k};
      keys := InsertKey(keys, k);
    }
  }

  /** buildSummary: sort the keys, and print one row per bucket and the totals. */
  method BuildSummary(byRate: map<string, Accumulator>, totals: Accumulator, code: string, ghost items: seq<Item>)
    returns (summary: Summary)
    requires Tallies(byRate, totals, items)
    ensures IsSummary(summary, items, code)
  {
    var keys := SortedKeys(byRate.Keys);
    MembersAreElements(keys);
    var rows: seq<SummaryRow> := [];
    var i := 0;
    while i < |keys|
      invariant 0 <= i <= |keys|
      invariant rows == RowsOf(items, keys[..i], code)
    {
      assert keys[i] in keys;
      RowsExtend(items, keys, i, code);
      var bucket := byRate[keys[i]];
      rows := rows + [SummaryRow(keys[i], AmountsOf(bucket.sums, code))];
      i := i + 1;
    }
    assert keys[..|keys|] == keys;
    summary := Summary(rows, AmountsOf(totals.sums, code));
    SummaryMade(summary, items, keys, code);
  }

  lemma RowsExtend(items: seq<Item>, keys: seq<string>, i: nat, code: string)
    requires i < |keys|
    ensures RowsOf(items, keys[..i + 1], code) == RowsOf(items, keys[..i], code) + [RowOf(items, keys[i], code)]
  {
    assert keys[..i + 1] == keys[..i] + [keys[i]];
    RowsAppend(items, keys[..i], keys[i], code);
  }

  lemma RowsAppend(items: seq<Item>, keys: seq<string>, key: string, code: string)
    ensures RowsOf(items, keys + [key], code) == RowsOf(items, keys, code) + [RowOf(items, key, code)]
  {
  }

  lemma SummaryMade(summary: Summary, items: seq<Item>, keys: seq<string>, code: string)
    requires Ascending(keys) && Members(keys) == Keys(items)
    requires summary == Summary(RowsOf(items, keys, code), AmountsOf(TotalSums(items), code))
    ensures IsSummary(summary, items, code)
  {
  }

  // ---------- MapInvoice ----------

  datatype MapError =
    | UnknownOperation
    | ModificationMissingOrigin
    | SupplierTaxNumberRequired
    | SupplierAddressRequired
    | InvoiceNumberMissing
    | IssueDateMissing
    | InvoiceLinesEmpty
    | InvoiceLinesTruncated
    | UnsupportedCurrency
    | MissingExchangeRate

  /** The operation literal of the options; the empty one defaults to CREATE. */
  datatype MapOptions = MapOptions(
    supplierTaxNumber: string,
    supplierStreet: string,
    operation: string,
    originalInvoiceNumber: string,
    modificationIndex: int,
    exchangeRateToHUF: string,
    originalLineCount: int)

  function OperationOf(literal: string): Option<Operation> {
    if literal == "" || literal == "CREATE" then Some(Create)
    else if literal == "MODIFY" then Some(Modify)
    else if literal == "STORNO" then Some(StornoOp)
    else None
  }

  /** validateOptions: the first option that cannot be used, if any. */
  function OptionsError(opts: MapOptions): Option<MapError> {
    var op := OperationOf(opts.operation);
    if op.None? then Some(UnknownOperation)
    else if Chained(op.value) && opts.originalInvoiceNumber == "" then Some(ModificationMissingOrigin)
    else if opts.supplierTaxNumber == "" then Some(SupplierTaxNumberRequired)
    else None
  }

  /** issueDate, in Unix seconds; None is Go's zero time. */
  function IssueDate(inv: Invoice): Option<int> {
    if inv.finalizedAt.Some? && inv.finalizedAt.value > 0 then inv.finalizedAt
    else if inv.effectiveAt > 0 then Some(inv.effectiveAt)
    else if inv.created > 0 then Some(inv.created)
    else None
  }

  /** The checks on the invoice itself, in the order they are made. */
  function InvoiceError(inv: Invoice): Option<MapError> {
    if inv.number == "" then Some(InvoiceNumberMissing)
    else if IssueDate(inv).None? then Some(IssueDateMissing)
    else if inv.lines.None? || |inv.lines.value.data| == 0 then Some(InvoiceLinesEmpty)
    else if inv.lines.value.hasMore then Some(InvoiceLinesTruncated)
    else if inv.currency == "" then Some(UnsupportedCurrency)
    else None
  }

  /** The rate the amounts are converted with: one for forints, else the parsed option. */
  function RateOf(inv: Invoice, opts: MapOptions): Option<real> {
    if ToUpper(inv.currency) == "HUF" then Some(1.0)
    else if opts.exchangeRateToHUF == "" then None
    else ParseDecimal(opts.exchangeRateToHUF)
  }

  function SupplierError(opts: MapOptions): Option<MapError> {
    if TaxNumberOf(opts.supplierTaxNumber).None? then Some(SupplierTaxNumberRequired)
    else if TrimSpace(opts.supplierStreet) == "" then Some(SupplierAddressRequired)
    else None
  }

  /** Why the invoice cannot be mapped: the first failing check. */
  function Refusal(inv: Invoice, opts: MapOptions): Option<MapError> {
    if OptionsError(opts).Some? then OptionsError(opts)
    else if InvoiceError(inv).Some? then InvoiceError(inv)
    else if RateOf(inv, opts).None? then Some(MissingExchangeRate)
    else if SupplierError(opts).Some? then SupplierError(opts)
    else if ItemsOf(inv.lines.value.data, ToUpper(inv.currency), RateOf(inv, opts).value) == [] then
      Some(InvoiceLinesEmpty)
    else None
  }

  // ---------- what an invoice must have to be mapped ----------

  datatype Requirement =
    | KnownOperation
    | NamedOrigin
    | SupplierNumberGiven
    | InvoiceNumbered
    | Dated
    | LinesGiven
    | AllPagesGiven
    | CurrencyGiven
    | RateReadable
    | SupplierNumberValid
    | SupplierStreetGiven
    | LineGiven

  /** The order in which the requirements are checked. */
  const CHECKS: seq<Requirement> := [
    KnownOperation, NamedOrigin, SupplierNumberGiven, InvoiceNumbered, Dated, LinesGiven, AllPagesGiven,
    CurrencyGiven, RateReadable, SupplierNumberValid, SupplierStreetGiven, LineGiven
  ]

  predicate Forint(currency: string) {
    |currency| == 3
    && (currency[0] == 'H' || currency[0] == 'h')
    && (currency[1] == 'U' || currency[1] == 'u')
    && (currency[2] == 'F' || currency[2] == 'f')
  }

  /** Each requirement, on the fields of the invoice and the options. */
  ghost predicate Meets(inv: Invoice, opts: MapOptions, requirement: Requirement) {
    match requirement
    case KnownOperation =>
      opts.operation == "" || opts.operation == "CREATE" || opts.operation == "MODIFY" || opts.operation == "STORNO"
    case NamedOrigin =>
      opts.operation == "MODIFY" || opts.operation == "STORNO" ==> opts.originalInvoiceNumber != ""
    case SupplierNumberGiven => opts.supplierTaxNumber != ""
    case InvoiceNumbered => inv.number != ""
    case Dated => (inv.finalizedAt.Some? && inv.finalizedAt.value > 0) || inv.effectiveAt > 0 || inv.created > 0
    case LinesGiven => inv.lines.Some? && inv.lines.value.data != []
    case AllPagesGiven => inv.lines.Some? ==> !inv.lines.value.hasMore
    case CurrencyGiven => inv.currency != ""
    case RateReadable => Forint(inv.currency) || Readable(opts.exchangeRateToHUF)
    case SupplierNumberValid =>
      && |DigitPlaces(Core(opts.supplierTaxNumber))| == 11
      && forall c :: c in Core(opts.supplierTaxNumber) ==> '0' <= c <= '9' || c == '-' || c == ' '
    case SupplierStreetGiven => !AllSpace(opts.supplierStreet)
    case LineGiven => inv.lines.Some? && exists i :: 0 <= i < |inv.lines.value.data| && inv.lines.value.data[i].Some?
  }

  /** The error a requirement is refused with. */
  function ErrorFor(requirement: Requirement): MapError {
    match requirement
    case KnownOperation => UnknownOperation
    case NamedOrigin => ModificationMissingOrigin
    case SupplierNumberGiven => SupplierTaxNumberRequired
    case InvoiceNumbered => InvoiceNumberMissing
    case Dated => IssueDateMissing
    case LinesGiven => InvoiceLinesEmpty
    case AllPagesGiven => InvoiceLinesTruncated
    case CurrencyGiven => UnsupportedCurrency
    case RateReadable => MissingExchangeRate
    case SupplierNumberValid => SupplierTaxNumberRequired
    case SupplierStreetGiven => SupplierAddressRequired
    case LineGiven => InvoiceLinesEmpty
  }

  /** The k-th check is the first that fails. */
  ghost predicate FailsFirst(inv: Invoice, opts: MapOptions, k: nat) {
    && k < |CHECKS| && !Meets(inv, opts, CHECKS[k])
    && forall j :: 0 <= j < k ==> Meets(inv, opts, CHECKS[j])
  }

  lemma ForintIff(currency: string)
    ensures ToUpper(currency) == "HUF" <==> Forint(currency)
  {
    var upper := ToUpper(currency);
    if |currency| == 3 {
      assert upper == [UpperChar(currency[0]), UpperChar(currency[1]), UpperChar(currency[2])];
    }
  }

  lemma {:induction false} SomeItemIff(data: seq<Option<InvoiceLine>>, code: string, rate: real)
    ensures ItemsOf(data, code, rate) == [] <==> forall i :: 0 <= i < |data| ==> data[i].None?
  {
    if data != [] {
      var front := data[..|data| - 1];
      SomeItemIff(front, code, rate);
      assert data == front + [data[|data| - 1]];
    }
  }

  /** The error of the first requirement, from the k-th on, that is not met. */
  ghost function FirstError(inv: Invoice, opts: MapOptions, k: nat): Option<MapError>
    decreases |CHECKS| - k
  {
    if k >= |CHECKS| then None
    else if !Meets(inv, opts, CHECKS[k]) then Some(ErrorFor(CHECKS[k]))
    else FirstError(inv, opts, k + 1)
  }

  lemma Check(inv: Invoice, opts: MapOptions, k: nat, requirement: Requirement)
    requires k < |CHECKS| && CHECKS[k] == requirement
    ensures FirstError(inv, opts, k) ==
            if !Meets(inv, opts, requirement) then Some(ErrorFor(requirement)) else FirstError(inv, opts, k + 1)
  {
  }

  lemma OptionsChecked(inv: Invoice, opts: MapOptions)
    ensures FirstError(inv, opts, 0) == if OptionsError(opts).Some? then OptionsError(opts) else FirstError(inv, opts, 3)
  {
    Check(inv, opts, 0, KnownOperation);
    Check(inv, opts, 1, NamedOrigin);
    Check(inv, opts, 2, SupplierNumberGiven);
  }

  lemma InvoiceErrorIs(inv: Invoice, opts: MapOptions)
    ensures InvoiceError(inv) ==
            if !Meets(inv, opts, InvoiceNumbered) then Some(InvoiceNumberMissing)
            else if !Meets(inv, opts, Dated) then Some(IssueDateMissing)
            else if !Meets(inv, opts, LinesGiven) then Some(InvoiceLinesEmpty)
            else if !Meets(inv, opts, AllPagesGiven) then Some(InvoiceLinesTruncated)
            else if !Meets(inv, opts, CurrencyGiven) then Some(UnsupportedCurrency)
            else None
  {
  }

  lemma FiveChecks(inv: Invoice, opts: MapOptions)
    ensures FirstError(inv, opts, 3) ==
            if !Meets(inv, opts, InvoiceNumbered) then Some(InvoiceNumberMissing)
            else if !Meets(inv, opts, Dated) then Some(IssueDateMissing)
            else if !Meets(inv, opts, LinesGiven) then Some(InvoiceLinesEmpty)
            else if !Meets(inv, opts, AllPagesGiven) then Some(InvoiceLinesTruncated)
            else if !Meets(inv, opts, CurrencyGiven) then Some(UnsupportedCurrency)
            else FirstError(inv, opts, 8)
  {
    Check(inv, opts, 3, InvoiceNumbered);
    Check(inv, opts, 4, Dated);
    Check(inv, opts, 5, LinesGiven);
    Check(inv, opts, 6, AllPagesGiven);
    Check(inv, opts, 7, CurrencyGiven);
  }

  lemma InvoiceChecked(inv: Invoice, opts: MapOptions)
    ensures FirstError(inv, opts, 3) == if InvoiceError(inv).Some? then InvoiceError(inv) else FirstError(inv, opts, 8)
  {
    InvoiceErrorIs(inv, opts);
    FiveChecks(inv, opts);
  }

  lemma RateGivenIff(inv: Invoice, opts: MapOptions)
    ensures RateOf(inv, opts).Some? <==> Meets(inv, opts, RateReadable)
  {
    ForintIff(inv.currency);
    ReadableIff(opts.exchangeRateToHUF);
  }

  lemma SupplierChecked(inv: Invoice, opts: MapOptions)
    ensures FirstError(inv, opts, 9) == if SupplierError(opts).Some? then SupplierError(opts) else FirstError(inv, opts, 11)
  {
    AcceptedIff(opts.supplierTaxNumber);
    BlankIff(opts.supplierStreet);
    Check(inv, opts, 9, SupplierNumberValid);
    Check(inv, opts, 10, SupplierStreetGiven);
  }

  lemma LinesChecked(inv: Invoice, opts: MapOptions)
    requires InvoiceError(inv).None? && RateOf(inv, opts).Some?
    ensures FirstError(inv, opts, 11) ==
            if ItemsOf(inv.lines.value.data, ToUpper(inv.currency), RateOf(inv, opts).value) == []
            then Some(InvoiceLinesEmpty) else None
  {
    SomeItemIff(inv.lines.value.data, ToUpper(inv.currency), RateOf(inv, opts).value);
    Check(inv, opts, 11, LineGiven);
  }

  lemma RefusalIsFirstError(inv: Invoice, opts: MapOptions)
    ensures Refusal(inv, opts) == FirstError(inv, opts, 0)
  {
    OptionsChecked(inv, opts);
    InvoiceChecked(inv, opts);
    RateGivenIff(inv, opts);
    Check(inv, opts, 8, RateReadable);
    SupplierChecked(inv, opts);
    if InvoiceError(inv).None? && RateOf(inv, opts).Some? {
      LinesChecked(inv, opts);
    }
  }

  lemma {:induction false} FirstErrorIs(inv: Invoice, opts: MapOptions, k: nat)
    requires k <= |CHECKS| && forall j :: 0 <= j < k ==> Meets(inv, opts, CHECKS[j])
    ensures FirstError(inv, opts, k).None? <==> forall j :: 0 <= j < |CHECKS| ==> Meets(inv, opts, CHECKS[j])
    ensures FirstError(inv, opts, k).Some? ==>
              exists j: nat :: FailsFirst(inv, opts, j) && FirstError(inv, opts, k).value == ErrorFor(CHECKS[j])
    decreases |CHECKS| - k
  {
    if k < |CHECKS| && Meets(inv, opts, CHECKS[k]) {
      FirstErrorIs(inv, opts, k + 1);
    } else if k < |CHECKS| {
      assert FailsFirst(inv, opts, k);
    }
  }

  /** Accepted exactly when every requirement is met, and otherwise refused for the first that is not. */
  lemma RefusalRule(inv: Invoice, opts: MapOptions)
    ensures Refusal(inv, opts).None? <==> forall requirement :: Meets(inv, opts, requirement)
    ensures Refusal(inv, opts).Some? ==>
              exists k: nat :: FailsFirst(inv, opts, k) && Refusal(inv, opts).value == ErrorFor(CHECKS[k])
  {
    RefusalIsFirstError(inv, opts);
    FirstErrorIs(inv, opts, 0);
    AllChecksListed();
    if Refusal(inv, opts).None? {
      forall requirement: Requirement
        ensures Meets(inv, opts, requirement)
      {
        var j :| 0 <= j < |CHECKS| && CHECKS[j] == requirement;
      }
    }
  }

  lemma AllChecksListed()
    ensures forall requirement: Requirement :: requirement in CHECKS
  {
    forall requirement: Requirement
      ensures requirement in CHECKS
    {
      match requirement
      case KnownOperation => assert CHECKS[0] == requirement;
      case NamedOrigin => assert CHECKS[1] == requirement;
      case SupplierNumberGiven => assert CHECKS[2] == requirement;
      case InvoiceNumbered => assert CHECKS[3] == requirement;
      case Dated => assert CHECKS[4] == requirement;
      case LinesGiven => assert CHECKS[5] == requirement;
      case AllPagesGiven => assert CHECKS[6] == requirement;
      case CurrencyGiven => assert CHECKS[7] == requirement;
      case RateReadable => assert CHECKS[8] == requirement;
      case SupplierNumberValid => assert CHECKS[9] == requirement;
      case SupplierStreetGiven => assert CHECKS[10] == requirement;
      case LineGiven => assert CHECKS[11] == requirement;
    }
  }

  function ReferenceOf(opts: MapOptions, op: Operation): Option<Reference> {
    if Chained(op) then
      Some(Reference(opts.originalInvoiceNumber, if opts.modificationIndex <= 0 then 1 else opts.modificationIndex))
    else None
  }

  function OriginalCount(inv: Invoice, opts: MapOptions): int
    requires inv.lines.Some?
  {
    if opts.originalLineCount <= 0 then |inv.lines.value.data| else opts.originalLineCount
  }

  /** doc is the document MapInvoice makes of an invoice it does not refuse. */
  ghost predicate IsDocument(doc: InvoiceData, inv: Invoice, opts: MapOptions)
    requires Refusal(inv, opts).None?
  {
    var op := OperationOf(opts.operation).value;
    var code := ToUpper(inv.currency);
    var rate := RateOf(inv, opts).value;
    var data := inv.lines.value.data;
    && doc.number == inv.number
    && doc.issuedAt == IssueDate(inv).value
    && doc.supplier == TaxNumberOf(opts.supplierTaxNumber).value
    && doc.currency == code
    && doc.exchangeRate == FloatString(rate, 6)
    && doc.lines == LinesOf(data, code, rate, op, OriginalCount(inv, opts))
    && IsSummary(doc.summary, ItemsOf(data, code, rate), code)
    && doc.reference == ReferenceOf(opts, op)
  }

  lemma {:induction false} SameEmptiness(data: seq<Option<InvoiceLine>>, code: string, rate: real, op: Operation, n: int)
    ensures |LinesOf(data, code, rate, op, n)| == |ItemsOf(data, code, rate)|
  {
    if data != [] {
      SameEmptiness(data[..|data| - 1], code, rate, op, n);
    }
  }

  method MapInvoice(inv: Invoice, opts: MapOptions) returns (r: Result<InvoiceData, MapError>)
    ensures r.Err? <==> Refusal(inv, opts).Some?
    ensures r.Err? ==> Refusal(inv, opts) == Some(r.error)
    ensures r.Ok? <==> forall requirement :: Meets(inv, opts, requirement)
    ensures r.Err? ==> exists k: nat :: FailsFirst(inv, opts, k) && r.error == ErrorFor(CHECKS[k])
    ensures r.Ok? ==> IsDocument(r.value, inv, opts)
  {
    RefusalRule(inv, opts);
    var op := OperationOf(opts.operation);
    var optionsError := OptionsError(opts);
    if optionsError.Some? {
      return Err(optionsError.value);
    }
    if inv.number == "" {
      return Err(InvoiceNumberMissing);
    }
    var issued := IssueDate(inv);
    if issued.None? {
      return Err(IssueDateMissing);
    }
    if inv.lines.None? || |inv.lines.value.data| == 0 {
      return Err(InvoiceLinesEmpty);
    }
    if inv.lines.value.hasMore {
      return Err(InvoiceLinesTruncated);
    }
    var code := ToUpper(inv.currency);
    if code == "" {
      return Err(UnsupportedCurrency);
    }
    var rate := RateOf(inv, opts);
    if rate.None? {
      return Err(MissingExchangeRate);
    }
    var supplier := SplitHungarianTaxNumber(opts.supplierTaxNumber);
    if supplier.None? {
      return Err(SupplierTaxNumberRequired);
    }
    if TrimSpace(opts.supplierStreet) == "" {
      return Err(SupplierAddressRequired);
    }
    var originalLineCount := opts.originalLineCount;
    if originalLineCount <= 0 {
      originalLineCount := |inv.lines.value.data|;
    }
    var lines, summary := MapLines(inv.lines.value.data, code, rate.value, op.value, originalLineCount);
    if |lines| == 0 {
      return Err(InvoiceLinesEmpty);
    }
    return Ok(InvoiceData(inv.number, issued.value, supplier.value, code, FloatString(rate.value, 6),
                          lines, summary, ReferenceOf(opts, op.value)));
  }

  /** The lines and the summary over the buckets they were filed in. */
  method MapLines(data: seq<Option<InvoiceLine>>, code: string, rate: real, op: Operation, originalLineCount: int)
    returns (lines: seq<Line>, summary: Summary)
    ensures lines == LinesOf(data, code, rate, op, originalLineCount)
    ensures |lines| == |ItemsOf(data, code, rate)| && IsSummary(summary, ItemsOf(data, code, rate), code)
  {
    var byRate, totals;
    lines, byRate, totals := BuildLines(data, code, rate, op, originalLineCount);
    SameEmptiness(data, code, rate, op, originalLineCount);
    summary := BuildSummary(byRate, totals, code, ItemsOf(data, code, rate));
  }
}
