/** Stripe invoice to NAV document: line amounts, VAT-rate buckets, totals and the document around them. */
module Mapping {
  import opened Wrappers
  import opened Documents
  import opened Decimals
  import opened Currency
  import opened Invoices

  // ---------- what one line comes to ----------

  /** A line's exact net, VAT and their forint counterparts, and the printed rate it is bucketed under. */
  datatype Item = Item(net: real, vat: real, netHUF: real, vatHUF: real, key: string)

  function VatOf(taxes: seq<Option<Tax>>, code: string): real {
    if taxes == [] then 0.0
    else
      var last := taxes[|taxes| - 1];
      VatOf(taxes[..|taxes| - 1], code) + if last.None? then 0.0 else AmountFromMinor(last.value.amount, code)
  }

  function AnyInclusive(taxes: seq<Option<Tax>>): bool {
    if taxes == [] then false
    else
      var last := taxes[|taxes| - 1];
      AnyInclusive(taxes[..|taxes| - 1]) || (last.Some? && last.value.behavior == Inclusive)
  }

  function RatePct(net: real, vat: real): real {
    if net == 0.0 then 0.0 else vat / net
  }

  function ItemOf(line: InvoiceLine, code: string, rate: real): Item {
    var amount := AmountFromMinor(line.amount, code);
    var vat := VatOf(line.taxes, code);
    var net := if AnyInclusive(line.taxes) then amount - vat else amount;
    Item(net, vat, ToHUF(net, rate), ToHUF(vat, rate), FloatString(RatePct(net, vat), 2))
  }

  function ItemsOf(data: seq<Option<InvoiceLine>>, code: string, rate: real): seq<Item> {
    if data == [] then []
    else
      var last := data[|data| - 1];
      ItemsOf(data[..|data| - 1], code, rate) + if last.None? then [] else [ItemOf(last.value, code, rate)]
  }

  // ---------- sums ----------

  datatype Field = NetFC | VatFC | NetHUF | VatHUF

  function Get(item: Item, field: Field): real {
    match field
    case NetFC => item.net
    case VatFC => item.vat
    case NetHUF => item.netHUF
    case VatHUF => item.vatHUF
  }

  function Total(items: seq<Item>, field: Field): real {
    if items == [] then 0.0 else Total(items[..|items| - 1], field) + Get(items[|items| - 1], field)
  }

  /** The items printed with one rate. */
  function Under(items: seq<Item>, key: string): seq<Item> {
    if items == [] then []
    else
      var last := items[|items| - 1];
      Under(items[..|items| - 1], key) + if last.key == key then [last] else []
  }

  function Keys(items: seq<Item>): set<string> {
    set i | 0 <= i < |items| :: items[i].key
  }

  datatype Sums = Sums(netFC: real, vatFC: real, netHUF: real, vatHUF: real)

  function TotalSums(items: seq<Item>): Sums {
    Sums(Total(items, NetFC), Total(items, VatFC), Total(items, NetHUF), Total(items, VatHUF))
  }

  lemma TotalAppend(items: seq<Item>, item: Item, field: Field)
    ensures Total(items + [item], field) == Total(items, field) + Get(item, field)
  {
    assert (items + [item])[..|items|] == items;
  }

  lemma UnderAppend(items: seq<Item>, item: Item, key: string)
    ensures Under(items + [item], key) == Under(items, key) + if item.key == key then [item] else []
  {
    assert (items + [item])[..|items|] == items;
  }

  lemma KeysAppend(items: seq<Item>, item: Item)
    ensures Keys(items + [item]) == Keys(items) + {item.key}
  {
    var longer := items + [item];
    assert longer[|items|] == item;
    forall k | k in Keys(items)
      ensures k in Keys(longer)
    {
      var i :| 0 <= i < |items| && items[i].key == k;
      assert longer[i].key == k;
    }
  }

  lemma {:induction false} NothingUnder(items: seq<Item>, key: string)
    ensures Under(items, key) == [] <==> key !in Keys(items)
  {
    if items != [] {
      var front, last := items[..|items| - 1], items[|items| - 1];
      assert items == front + [last];
      NothingUnder(front, key);
      KeysAppend(front, last);
    }
  }

  // ---------- the emitted lines ----------

  datatype Operation = Create | Modify | StornoOp

  predicate Chained(op: Operation) {
    op == Modify || op == StornoOp
  }

  function MaxInt64(a: int, b: int): int {
    if a > b then a else b
  }

  function AmountsOf(sums: Sums, code: string): Amounts {
    var (net, vat, gross) := ReconciledAmount(sums.netFC, sums.vatFC, code);
    var (netHUF, vatHUF, grossHUF) := ReconciledHUF(sums.netHUF, sums.vatHUF);
    Amounts(net, vat, gross, netHUF, vatHUF, grossHUF)
  }

  function LineOf(line: InvoiceLine, idx: nat, code: string, rate: real, op: Operation, originalLineCount: int): Line {
    var item := ItemOf(line, code, rate);
    var quantity := MaxInt64(1, line.quantity);
    Line(idx + 1,
         if line.description == "" then "Item " + IntString(idx + 1) else line.description,
         quantity,
         FormatAmount(item.net / quantity as real, code),
         FormatHUF(item.netHUF / quantity as real),
         item.key,
         AmountsOf(Sums(item.net, item.vat, item.netHUF, item.vatHUF), code),
         if Chained(op) then Some(originalLineCount + idx + 1) else None)
  }

  function LinesOf(data: seq<Option<InvoiceLine>>, code: string, rate: real, op: Operation,
                   originalLineCount: int): seq<Line>
  {
    if data == [] then []
    else
      var idx := |data| - 1;
      LinesOf(data[..idx], code, rate, op, originalLineCount) +
      if data[idx].None? then [] else [LineOf(data[idx].value, idx, code, rate, op, originalLineCount)]
  }

  // ---------- the summary ----------

  predicate StringLess(a: string, b: string) {
    if b == [] then false
    else if a == [] then true
    else a[0] < b[0] || (a[0] == b[0] && StringLess(a[1..], b[1..]))
  }

  ghost predicate Ascending(keys: seq<string>) {
    forall i, j :: 0 <= i < j < |keys| ==> StringLess(keys[i], keys[j])
  }

  function Members(keys: seq<string>): set<string> {
    set i | 0 <= i < |keys| :: keys[i]
  }

  function RowOf(items: seq<Item>, key: string, code: string): SummaryRow {
    SummaryRow(key, AmountsOf(TotalSums(Under(items, key)), code))
  }

  function RowsOf(items: seq<Item>, keys: seq<string>, code: string): seq<SummaryRow> {
    seq(|keys|, i requires 0 <= i < |keys| => RowOf(items, keys[i], code))
  }

  /** The summary: one row per distinct printed rate, in ascending order, and the invoice totals. */
  ghost predicate IsSummary(summary: Summary, items: seq<Item>, code: string) {
    exists keys :: && Ascending(keys) && Members(keys) == Keys(items)
                   && summary == Summary(RowsOf(items, keys, code), AmountsOf(TotalSums(items), code))
  }

  lemma {:induction false} StringLessTransitive(a: string, b: string, c: string)
    requires StringLess(a, b) && StringLess(b, c)
    ensures StringLess(a, c)
  {
    if a != [] && a[0] == b[0] == c[0] {
      StringLessTransitive(a[1..], b[1..], c[1..]);
    }
  }

  lemma {:induction false} StringLessTotal(a: string, b: string)
    ensures StringLess(a, b) || a == b || StringLess(b, a)
    ensures !(StringLess(a, b) && StringLess(b, a)) && !StringLess(a, a)
  {
    if a != [] && b != [] {
      StringLessTotal(a[1..], b[1..]);
      if a[0] == b[0] && a[1..] == b[1..] {
        assert a == [a[0]] + a[1..] && b == [b[0]] + b[1..];
      }
    }
    if a != [] {
      StringLessTotal(a[1..], a[1..]);
    }
  }

  /** A set of strings has only one ascending listing, so the summary is determined by the lines. */
  lemma {:induction false} AscendingUnique(a: seq<string>, b: seq<string>)
    requires Ascending(a) && Ascending(b) && Members(a) == Members(b)
    ensures a == b
    decreases |a|
  {
    MembersEmpty(a);
    MembersEmpty(b);
    if a != [] {
      assert a[0] in Members(b);
      var i :| 0 <= i < |b| && b[i] == a[0];
      assert b[0] in Members(a);
      var j :| 0 <= j < |a| && a[j] == b[0];
      StringLessTotal(a[0], b[0]);
      assert a[0] == b[0];
      TailMembers(a);
      TailMembers(b);
      AscendingUnique(a[1..], b[1..]);
      assert a == [a[0]] + a[1..] && b == [b[0]] + b[1..];
    }
  }

  lemma MembersEmpty(keys: seq<string>)
    ensures keys == [] <==> Members(keys) == {}
  {
    if keys != [] {
      assert keys[0] in Members(keys);
    }
  }

  lemma TailMembers(a: seq<string>)
    requires a != [] && Ascending(a)
    ensures Members(a[1..]) == Members(a) - {a[0]}
  {
    forall k | k in Members(a[1..])
      ensures k in Members(a) && k != a[0]
    {
      var i :| 0 <= i < |a[1..]| && a[1..][i] == k;
      assert a[i + 1] == k;
      StringLessTotal(a[0], a[i + 1]);
    }
    forall k | k in Members(a) && k != a[0]
      ensures k in Members(a[1..])
    {
      var i :| 0 <= i < |a| && a[i] == k;
      assert a[1..][i - 1] == k;
    }
  }
}
