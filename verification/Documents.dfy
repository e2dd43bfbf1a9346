/**
 The reported document, restricted to the fields that carry money, VAT rates
 and line positions, and the payload a submission persists. Amounts and rates
 are strings: they are what NAV receives.
 */
module Documents {
  import opened Wrappers

  /** A Hungarian VAT number split into the three parts NAV requires. */
  datatype TaxNumber = TaxNumber(taxpayerId: string, vatCode: string, countyCode: string)

  /** The net, VAT and gross amounts of a line, a rate row or the whole invoice. */
  datatype Amounts = Amounts(
    net: string, vat: string, gross: string,
    netHUF: string, vatHUF: string, grossHUF: string)

  datatype Line = Line(
    number: int,
    description: string,
    quantity: int,
    unitPrice: string,
    unitPriceHUF: string,
    vatPercentage: string,
    amounts: Amounts,
    chainPosition: Option<int>)

  datatype SummaryRow = SummaryRow(vatPercentage: string, amounts: Amounts)

  datatype Summary = Summary(rows: seq<SummaryRow>, totals: Amounts)

  datatype Reference = Reference(originalInvoiceNumber: string, modificationIndex: int)

  datatype InvoiceData = InvoiceData(
    number: string,
    issuedAt: int,
    supplier: TaxNumber,
    currency: string,
    exchangeRate: string,
    lines: seq<Line>,
    summary: Summary,
    reference: Option<Reference>)

  /** The persisted RawEvent: a marshalled document of one of the two NAV roots, or anything else. */
  datatype Payload =
    | InvoicePayload(doc: InvoiceData)
    | AnnulmentPayload(body: string)
    | OtherPayload(body: string)
}
