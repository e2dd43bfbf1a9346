/** The Stripe side: invoices, their lines, and the sign-flipped clone a STORNO is mapped from. */
module Invoices {
  import opened Wrappers
  import opened Currency

  datatype TaxBehavior = Inclusive | Exclusive | Unspecified

  datatype Tax = Tax(amount: Int64, taxableAmount: Int64, behavior: TaxBehavior)

  /** Entries of the tax and line lists may be null. */
  datatype InvoiceLine = InvoiceLine(description: string, amount: Int64, quantity: Int64, taxes: seq<Option<Tax>>)

  datatype LineList = LineList(hasMore: bool, data: seq<Option<InvoiceLine>>)

  datatype Invoice = Invoice(
    number: string,
    currency: string,
    finalizedAt: Option<int>,
    effectiveAt: int,
    created: int,
    lines: Option<LineList>)

  function FlippedTax(tax: Tax): Tax {
    Tax(Negated(tax.amount), Negated(tax.taxableAmount), tax.behavior)
  }

  function FlippedTaxes(taxes: seq<Option<Tax>>): seq<Option<Tax>> {
    if taxes == [] then []
    else
      var last := taxes[|taxes| - 1];
      FlippedTaxes(taxes[..|taxes| - 1]) + if last.None? then [] else [Some(FlippedTax(last.value))]
  }

  function FlippedLine(line: InvoiceLine): InvoiceLine {
    InvoiceLine(line.description, Negated(line.amount), line.quantity, FlippedTaxes(line.taxes))
  }

  function FlippedLines(data: seq<Option<InvoiceLine>>): seq<Option<InvoiceLine>> {
    if data == [] then []
    else
      var last := data[|data| - 1];
      FlippedLines(data[..|data| - 1]) + if last.None? then [] else [Some(FlippedLine(last.value))]
  }

  /** The clone: a new number, issued now, every amount negated, null entries dropped. */
  function Storno(inv: Invoice, now: int): Invoice {
    inv.(number := inv.number + "-STORNO",
         finalizedAt := Some(now),
         lines := if inv.lines.None? then None
                  else Some(LineList(inv.lines.value.hasMore, FlippedLines(inv.lines.value.data))))
  }

  /** invoiceAsStorno, with its two nested loops. */
  method InvoiceAsStorno(inv: Invoice, now: int) returns (clone: Invoice)
    ensures clone == Storno(inv, now)
  {
    clone := inv;
    clone := clone.(number := inv.number + "-STORNO");
    clone := clone.(finalizedAt := Some(now));
    if inv.lines.Some? {
      var data := inv.lines.value.data;
      var out: seq<Option<InvoiceLine>> := [];
      var i := 0;
      while i < |data|
        invariant 0 <= i <= |data|
        invariant out == FlippedLines(data[..i])
      {
        assert data[..i + 1][..i] == data[..i];
        if data[i].Some? {
          var l := data[i].value;
          var taxes: seq<Option<Tax>> := [];
          var j := 0;
          while j < |l.taxes|
            invariant 0 <= j <= |l.taxes|
            invariant taxes == FlippedTaxes(l.taxes[..j])
          {
            assert l.taxes[..j + 1][..j] == l.taxes[..j];
            if l.taxes[j].Some? {
              var t := l.taxes[j].value;
              taxes := taxes + [Some(Tax(Negated(t.amount), Negated(t.taxableAmount), t.behavior))];
            }
            j := j + 1;
          }
          assert l.taxes[..|l.taxes|] == l.taxes;
          out := out + [Some(InvoiceLine(l.description, Negated(l.amount), l.quantity, taxes))];
        }
        i := i + 1;
      }
      assert data[..|data|] == data;
      clone := clone.(lines := Some(LineList(inv.lines.value.hasMore, out)));
    }
  }
}
