/** The order of Stripe's lines does not matter: the summary of an invoice is a function of the bag of its lines. */
module Permutation {
  import opened Wrappers
  import opened Documents
  import opened Currency
  import opened Invoices
  import opened Mapping
  import opened Mapper

  function Without<T>(s: seq<T>, i: nat): seq<T>
    requires i < |s|
  {
    s[..i] + s[i + 1..]
  }

  lemma RemovedBag<T>(s: seq<T>, i: nat)
    requires i < |s|
    ensures multiset(s) == multiset(Without(s, i)) + multiset{s[i]}
  {
    assert s == s[..i] + [s[i]] + s[i + 1..];
  }

  /** Equal bags: the last element of one occurs in the other, and removing both leaves equal bags. */
  lemma MatchLast<T>(a: seq<T>, b: seq<T>) returns (i: nat)
    requires a != [] && multiset(a) == multiset(b)
    ensures i < |b| && b[i] == a[|a| - 1]
    ensures multiset(a[..|a| - 1]) == multiset(Without(b, i))
  {
    var last := a[|a| - 1];
    assert last in multiset(a);
    assert last in b;
    i :| 0 <= i < |b| && b[i] == last;
    RemovedBag(b, i);
    RemovedBag(a, |a| - 1);
    assert Without(a, |a| - 1) == a[..|a| - 1];
    assert multiset(a[..|a| - 1]) == multiset(a) - multiset{last};
    assert multiset(Without(b, i)) == multiset(b) - multiset{last};
  }

  lemma {:induction false} TotalConcat(a: seq<Item>, b: seq<Item>, field: Field)
    ensures Total(a + b, field) == Total(a, field) + Total(b, field)
    decreases |b|
  {
    if b == [] {
      assert a + b == a;
    } else {
      var front, last := b[..|b| - 1], b[|b| - 1];
      assert a + b == (a + front) + [last];
      TotalConcat(a, front, field);
      TotalAppend(a + front, last, field);
    }
  }

  lemma TotalRemove(items: seq<Item>, i: nat, field: Field)
    requires i < |items|
    ensures Total(items, field) == Total(Without(items, i), field) + Get(items[i], field)
  {
    assert items == (items[..i] + [items[i]]) + items[i + 1..];
    TotalConcat(items[..i] + [items[i]], items[i + 1..], field);
    TotalConcat(items[..i], items[i + 1..], field);
    TotalAppend(items[..i], items[i], field);
  }

  lemma {:induction false} TotalOfBag(a: seq<Item>, b: seq<Item>, field: Field)
    requires multiset(a) == multiset(b)
    ensures Total(a, field) == Total(b, field)
    decreases |a|
  {
    if a == [] {
      assert |multiset(b)| == 0;
    } else {
      var i := MatchLast(a, b);
      TotalOfBag(a[..|a| - 1], Without(b, i), field);
      TotalRemove(b, i, field);
    }
  }

  lemma {:induction false} UnderBag(items: seq<Item>, key: string, item: Item)
    ensures multiset(Under(items, key))[item] == if item.key == key then multiset(items)[item] else 0
  {
    if items != [] {
      var front, last := items[..|items| - 1], items[|items| - 1];
      assert items == front + [last];
      UnderBag(front, key, item);
    }
  }

  lemma KeysOfBag(a: seq<Item>, b: seq<Item>)
    requires multiset(a) == multiset(b)
    ensures Keys(a) <= Keys(b)
  {
    forall key | key in Keys(a)
      ensures key in Keys(b)
    {
      var i :| 0 <= i < |a| && a[i].key == key;
      assert a[i] in multiset(b);
      assert a[i] in b;
      var j :| 0 <= j < |b| && b[j] == a[i];
      assert b[j].key == key;
    }
  }

  lemma SumsOfBag(a: seq<Item>, b: seq<Item>)
    requires multiset(a) == multiset(b)
    ensures TotalSums(a) == TotalSums(b)
  {
    TotalOfBag(a, b, NetFC);
    TotalOfBag(a, b, VatFC);
    TotalOfBag(a, b, NetHUF);
    TotalOfBag(a, b, VatHUF);
  }

  lemma RowOfBag(a: seq<Item>, b: seq<Item>, key: string)
    requires multiset(a) == multiset(b)
    ensures TotalSums(Under(a, key)) == TotalSums(Under(b, key))
  {
    forall item
      ensures multiset(Under(a, key))[item] == multiset(Under(b, key))[item]
    {
      UnderBag(a, key, item);
      UnderBag(b, key, item);
    }
    assert multiset(Under(a, key)) == multiset(Under(b, key));
    SumsOfBag(Under(a, key), Under(b, key));
  }

  /** A bag of lines has one summary, however the lines are listed and however the bucket map is walked. */
  lemma SummaryOfBag(x: Summary, a: seq<Item>, y: Summary, b: seq<Item>, code: string)
    requires IsSummary(x, a, code) && IsSummary(y, b, code)
    requires multiset(a) == multiset(b)
    ensures x == y
  {
    var ka :| && Ascending(ka) && Members(ka) == Keys(a)
              && x == Summary(RowsOf(a, ka, code), AmountsOf(TotalSums(a), code));
    var kb :| && Ascending(kb) && Members(kb) == Keys(b)
              && y == Summary(RowsOf(b, kb, code), AmountsOf(TotalSums(b), code));
    KeysOfBag(a, b);
    KeysOfBag(b, a);
    AscendingUnique(ka, kb);
    SumsOfBag(a, b);
    RowsOfBag(a, b, ka, code);
  }

  lemma RowsOfBag(a: seq<Item>, b: seq<Item>, keys: seq<string>, code: string)
    requires multiset(a) == multiset(b)
    ensures RowsOf(a, keys, code) == RowsOf(b, keys, code)
  {
    forall i | 0 <= i < |keys|
      ensures RowOf(a, keys[i], code) == RowOf(b, keys[i], code)
    {
      RowOfBag(a, b, keys[i]);
    }
  }

  lemma {:induction false} ItemsConcat(a: seq<Option<InvoiceLine>>, b: seq<Option<InvoiceLine>>, code: string, rate: real)
    ensures ItemsOf(a + b, code, rate) == ItemsOf(a, code, rate) + ItemsOf(b, code, rate)
    decreases |b|
  {
    if b == [] {
      assert a + b == a;
    } else {
      var n := |b| - 1;
      assert (a + b)[..|a + b| - 1] == a + b[..n];
      ItemsConcat(a, b[..n], code, rate);
    }
  }

  function Single(line: Option<InvoiceLine>, code: string, rate: real): seq<Item> {
    ItemsOf([line], code, rate)
  }

  lemma ItemsRemove(data: seq<Option<InvoiceLine>>, i: nat, code: string, rate: real)
    requires i < |data|
    ensures multiset(ItemsOf(data, code, rate)) ==
            multiset(ItemsOf(Without(data, i), code, rate)) + multiset(Single(data[i], code, rate))
  {
    assert data == (data[..i] + [data[i]]) + data[i + 1..];
    ItemsConcat(data[..i] + [data[i]], data[i + 1..], code, rate);
    ItemsConcat(data[..i], [data[i]], code, rate);
    ItemsConcat(data[..i], data[i + 1..], code, rate);
  }

  lemma {:induction false} ItemsOfBag(a: seq<Option<InvoiceLine>>, b: seq<Option<InvoiceLine>>, code: string, rate: real)
    requires multiset(a) == multiset(b)
    ensures multiset(ItemsOf(a, code, rate)) == multiset(ItemsOf(b, code, rate))
    decreases |a|
  {
    if a == [] {
      assert |multiset(b)| == 0;
    } else {
      var i := MatchLast(a, b);
      ItemsOfBag(a[..|a| - 1], Without(b, i), code, rate);
      ItemsRemove(b, i, code, rate);
      ItemsRemove(a, |a| - 1, code, rate);
      assert Without(a, |a| - 1) == a[..|a| - 1];
    }
  }

  /** The same invoice with its lines listed in another order. */
  ghost predicate Reordered(inv: Invoice, other: Invoice) {
    && inv.lines.Some? && other.lines.Some?
    && multiset(inv.lines.value.data) == multiset(other.lines.value.data)
    && other == inv.(lines := Some(inv.lines.value.(data := other.lines.value.data)))
  }

  /**
   Reordering the lines changes neither whether an invoice can be mapped nor why
   not, and leaves the whole summary as it was: rows, their order, and totals.
   */
  lemma SummaryIgnoresOrder(inv: Invoice, other: Invoice, opts: MapOptions, doc: InvoiceData, otherDoc: InvoiceData)
    requires Reordered(inv, other)
    ensures Refusal(inv, opts) == Refusal(other, opts)
    ensures (Refusal(inv, opts).None? && IsDocument(doc, inv, opts) && IsDocument(otherDoc, other, opts)) ==>
              doc.summary == otherDoc.summary
  {
    SameRefusal(inv, other, opts);
    if Refusal(inv, opts).None? && IsDocument(doc, inv, opts) && IsDocument(otherDoc, other, opts) {
      var code, rate := ToUpper(inv.currency), RateOf(inv, opts).value;
      ItemsOfBag(inv.lines.value.data, other.lines.value.data, code, rate);
      SummaryOfBag(doc.summary, ItemsOf(inv.lines.value.data, code, rate),
                   otherDoc.summary, ItemsOf(other.lines.value.data, code, rate), code);
    }
  }

  lemma SameSize<T>(a: seq<T>, b: seq<T>)
    requires multiset(a) == multiset(b)
    ensures |a| == |b|
  {
    assert |multiset(a)| == |a| && |multiset(b)| == |b|;
  }

  lemma SameInvoiceError(inv: Invoice, other: Invoice)
    requires Reordered(inv, other)
    ensures InvoiceError(inv) == InvoiceError(other)
  {
    SameSize(inv.lines.value.data, other.lines.value.data);
  }

  lemma SameRefusal(inv: Invoice, other: Invoice, opts: MapOptions)
    requires Reordered(inv, other)
    ensures Refusal(inv, opts) == Refusal(other, opts)
    ensures RateOf(inv, opts) == RateOf(other, opts)
  {
    SameInvoiceError(inv, other);
    assert RateOf(inv, opts) == RateOf(other, opts);
    if InvoiceError(inv).None? && RateOf(inv, opts).Some? {
      var code, rate := ToUpper(inv.currency), RateOf(inv, opts).value;
      ItemsOfBag(inv.lines.value.data, other.lines.value.data, code, rate);
      SameSize(ItemsOf(inv.lines.value.data, code, rate), ItemsOf(other.lines.value.data, code, rate));
    }
  }
}
