/**
 From one webhook to the other: the storno the handler stores when an invoice is
 voided, against the document it stored when the invoice was finalized.
 */
module VoidedInvoices {
  import opened Wrappers
  import opened Documents
  import opened Decimals
  import opened Currency
  import opened Invoices
  import opened TaxIds
  import opened Submissions
  import opened Mutators
  import opened StoreInMem
  import opened Mapper
  import opened Conservation
  import opened Reversals
  import opened StornoLaws
  import opened Protocol
  import opened Handler
  import opened Determinism
  import opened History

  lemma LastIsDigit(x: real, prec: nat)
    ensures |FloatString(x, prec)| > 0
    ensures IsDigit(FloatString(x, prec)[|FloatString(x, prec)| - 1])
  {
    SplitIsUnits(Abs(x), prec);
    var (q, r) := Split(Abs(x), prec);
    if prec > 0 {
      PaddedNumber(r, prec);
    }
    BodyEndsInDigit(q, r, prec);
    var body := Body(q, r, prec);
    assert FloatString(x, prec) == Signed(x < 0.0, body);
  }

  lemma BodyEndsInDigit(q: nat, r: nat, prec: nat)
    requires r < Pow10(prec) && (prec > 0 ==> |Padded(r, prec)| == prec)
    ensures IsDigit(Body(q, r, prec)[|Body(q, r, prec)| - 1])
  {
    var whole := NatString(q);
    if prec > 0 {
      var frac := Padded(r, prec);
      assert Body(q, r, prec) == whole + ("." + frac);
      assert (whole + ("." + frac))[|whole| + prec] == frac[prec - 1];
    } else {
      assert Body(q, r, prec) == whole;
    }
  }

  /** A printed rate has no surrounding space to trim. */
  lemma PrintedIsTrimmed(x: real, prec: nat)
    ensures TrimSpace(FloatString(x, prec)) == FloatString(x, prec) != ""
  {
    LastIsDigit(x, prec);
    StartsWithSignOrDigit(x, prec);
  }

  lemma StartsWithSignOrDigit(x: real, prec: nat)
    ensures |FloatString(x, prec)| > 0
    ensures FloatString(x, prec)[0] == '-' || IsDigit(FloatString(x, prec)[0])
  {
    SplitIsUnits(Abs(x), prec);
    var (q, r) := Split(Abs(x), prec);
    var body := Body(q, r, prec);
    assert FloatString(x, prec) == Signed(x < 0.0, body);
  }

  /** An invoice in forints is mapped alike whatever rate its options carry. */
  lemma ForintsIgnoreTheRate(doc: InvoiceData, inv: Invoice, opts: MapOptions, rate: string)
    requires ToUpper(inv.currency) == "HUF"
    ensures Refusal(inv, opts) == Refusal(inv, opts.(exchangeRateToHUF := rate))
    ensures Refusal(inv, opts).None? ==>
              (IsDocument(doc, inv, opts) <==> IsDocument(doc, inv, opts.(exchangeRateToHUF := rate)))
  {
    assert RateOf(inv, opts) == RateOf(inv, opts.(exchangeRateToHUF := rate));
  }

  /** The rate a void is mapped with: the parent's printed one, or none at all in forints. */
  lemma VoidRate(cfg: Config, inv: Invoice, doc: InvoiceData, parent: Submission, eventType: string, world: World)
    requires Voids(eventType) && parent.rawEvent == InvoicePayload(doc)
    requires TrimSpace(doc.exchangeRate) == doc.exchangeRate != ""
    ensures RateUsed(cfg, eventType, inv, Some(parent), world) ==
            Ok(if ToUpper(inv.currency) == "HUF" then "" else doc.exchangeRate)
  {
  }

  lemma DocumentRateIsTrimmed(doc: InvoiceData, inv: Invoice, opts: MapOptions)
    requires Refusal(inv, opts).None? && IsDocument(doc, inv, opts)
    ensures TrimSpace(doc.exchangeRate) == doc.exchangeRate != ""
    ensures doc.exchangeRate == FloatString(RateOf(inv, opts).value, 6)
  {
    PrintedIsTrimmed(RateOf(inv, opts).value, 6);
  }

  /**
   A void whose parent holds the original's document is always mappable, asks no
   rate provider, waits for that parent, and stores the reversal of its document.
   */
  lemma VoidStoresReversal(cfg: Config, inv: Invoice, opts: MapOptions, doc: InvoiceData, parent: Submission,
                           event: Event, world: World, outcome: Outcome)
    requires Voids(event.eventType) && world.invoice == Some(inv) && world.stornoAt > 0
    requires parent.rawEvent == InvoicePayload(doc) && opts == CreateOptions(cfg, opts.exchangeRateToHUF)
    requires Refusal(inv, opts).None? && IsDocument(doc, inv, opts)
    requires InvoiceOutcome(cfg, event, world, Some(parent), outcome)
    ensures outcome.Ready? && outcome.row.rawEvent.InvoicePayload?
    ensures outcome.row.parentEventId == parent.eventId && outcome.row.operation == "STORNO"
    ensures IsReversal(doc, inv, opts, outcome.row.rawEvent.doc, world.stornoAt)
  {
    var clone := Storno(inv, world.stornoAt);
    var sopts := StornoOptions(inv, opts, doc.exchangeRate);
    DocumentRateIsTrimmed(doc, inv, opts);
    VoidRate(cfg, inv, doc, parent, event.eventType, world);
    StornoIsMappable(inv, opts, world.stornoAt);
    assert Refusal(clone, sopts).None?;
    if ToUpper(inv.currency) == "HUF" {
      var used := StornoOptions(inv, CreateOptions(cfg, ""), "");
      assert used == sopts.(exchangeRateToHUF := "");
      SameMapping(clone, sopts, "", outcome);
    } else {
      assert OptionsUsed(cfg, event.eventType, inv, doc.exchangeRate) == sopts;
    }
  }

  lemma SameMapping(inv: Invoice, opts: MapOptions, rate: string, outcome: Outcome)
    requires ToUpper(inv.currency) == "HUF"
    ensures Refusal(inv, opts) == Refusal(inv, opts.(exchangeRateToHUF := rate))
    ensures Refusal(inv, opts).None? && outcome.Ready? && outcome.row.rawEvent.InvoicePayload? ==>
              (IsDocument(outcome.row.rawEvent.doc, inv, opts) <==>
               IsDocument(outcome.row.rawEvent.doc, inv, opts.(exchangeRateToHUF := rate)))
  {
    if outcome.Ready? && outcome.row.rawEvent.InvoicePayload? {
      ForintsIgnoreTheRate(outcome.row.rawEvent.doc, inv, opts, rate);
    } else {
      assert RateOf(inv, opts) == RateOf(inv, opts.(exchangeRateToHUF := rate));
    }
  }

  /** The row is the oldest stored under an invoice number, and no other is as old. */
  ghost predicate OldestUnder(rows: Rows, number: string, id: string) {
    && id in rows && rows[id].invoiceNumber == number
    && forall other :: other in NumberedIds(rows, number) && other != id ==> rows[id].createdAt < rows[other].createdAt
  }

  /**
   Finalized, then voided: two deliveries of one invoice. The rows the second one
   looks its parent up in hold the row the first one stored, however far it has come.
   */
  ghost predicate FinalizedThenVoided(cfg: Config, inv: Invoice, atFirst: Rows, finalized: Event, before: World,
                                      original: Submission, rows: Rows, voided: Event, after: World, outcome: Outcome)
  {
    && finalized.eventType == "invoice.finalized" && before.invoice == Some(inv)
    && IsOutcome(cfg, atFirst, finalized, before, Ready(original))
    && OldestUnder(rows, inv.number, finalized.id) && SameOrigin(original, rows[finalized.id])
    && Voids(voided.eventType) && after.invoice == Some(inv) && after.stornoAt > 0 && after.findOk
    && IsOutcome(cfg, rows, voided, after, outcome)
  }

  /** The lookup by number finds the oldest row, and nothing else. */
  lemma LookupFindsOldest(rows: Rows, number: string, id: string, parent: Option<Submission>)
    requires Filed(rows) && OldestUnder(rows, number, id) && IsParent(rows, number, true, parent)
    ensures parent == Some(rows[id])
  {
    assert id in NumberedIds(rows, number);
    assert NumberedIds(rows, number) != {};
    assert parent.value.eventId in NumberedIds(rows, number);
  }

  lemma FinalizedOutcome(cfg: Config, rows: Rows, event: Event, world: World, inv: Invoice, outcome: Outcome)
    requires event.eventType == "invoice.finalized" && world.invoice == Some(inv)
    requires IsOutcome(cfg, rows, event, world, outcome)
    ensures InvoiceOutcome(cfg, event, world, None, outcome)
  {
  }

  lemma VoidedOutcome(cfg: Config, rows: Rows, event: Event, world: World, inv: Invoice, id: string, outcome: Outcome)
    requires Filed(rows) && OldestUnder(rows, inv.number, id)
    requires Voids(event.eventType) && world.invoice == Some(inv) && world.findOk
    requires IsOutcome(cfg, rows, event, world, outcome)
    ensures InvoiceOutcome(cfg, event, world, Some(rows[id]), outcome)
  {
    var parent :| LooksUp(rows, event.eventType, inv, world, parent) &&
                  InvoiceOutcome(cfg, event, world, parent, outcome);
    LookupFindsOldest(rows, inv.number, id, parent);
  }

  /** The rate the original was converted at. */
  function FirstRate(cfg: Config, finalized: Event, inv: Invoice, before: World): Result<string, Failure> {
    RateUsed(cfg, finalized.eventType, inv, None, before)
  }

  /** The storno waits for the original's row, continues its line chain, and cancels the document stored there. */
  ghost predicate Settles(original: Submission, storno: Submission, inv: Invoice, rate: real) {
    && storno.parentEventId == original.eventId && storno.operation == "STORNO"
    && original.rawEvent.InvoicePayload? && storno.rawEvent.InvoicePayload? && inv.lines.Some?
    && (Cancels(original.rawEvent.doc, storno.rawEvent.doc, InvoiceSide) <==> Negatable(inv.lines.value.data))
    && Extend(storno.rawEvent.doc.lines, |inv.lines.value.data|)
    && (Negatable(inv.lines.value.data) && Lossless(rate) ==>
          Cancels(original.rawEvent.doc, storno.rawEvent.doc, ForintSide))
  }

  /** The rate the invoice was converted at when it was finalized. */
  ghost predicate ConvertedAt(cfg: Config, inv: Invoice, finalized: Event, before: World, rate: real) {
    var first := FirstRate(cfg, finalized, inv, before);
    first.Ok? && RateOf(inv, CreateOptions(cfg, first.value)) == Some(rate)
  }

  /**
   One void, from the rows it looks its parent up in: it is handled to a row that waits
   for the row of the original, continues its line chain, and cancels the document
   stored for it exactly when no amount is the int64 minimum; in forints too when the
   rate has at most six decimals.
   */
  lemma VoidCancelsOriginal(cfg: Config, inv: Invoice, atFirst: Rows, finalized: Event, before: World,
                            original: Submission, rows: Rows, voided: Event, after: World, outcome: Outcome)
    returns (rate: real)
    requires Filed(rows)
    requires FinalizedThenVoided(cfg, inv, atFirst, finalized, before, original, rows, voided, after, outcome)
    ensures outcome.Ready? && original.eventId == finalized.id
    ensures ConvertedAt(cfg, inv, finalized, before, rate) && Settles(original, outcome.row, inv, rate)
  {
    FinalizedOutcome(cfg, atFirst, finalized, before, inv, Ready(original));
    VoidedOutcome(cfg, rows, voided, after, inv, finalized.id, outcome);
    rate := OutcomeReverses(cfg, inv, finalized, before, original, rows[finalized.id], voided, after, outcome);
  }

  lemma OutcomeReverses(cfg: Config, inv: Invoice, finalized: Event, before: World, original: Submission,
                        parent: Submission, voided: Event, after: World, outcome: Outcome) returns (rate: real)
    requires finalized.eventType == "invoice.finalized" && before.invoice == Some(inv)
    requires InvoiceOutcome(cfg, finalized, before, None, Ready(original)) && SameOrigin(original, parent)
    requires Voids(voided.eventType) && after.invoice == Some(inv) && after.stornoAt > 0
    requires InvoiceOutcome(cfg, voided, after, Some(parent), outcome)
    ensures outcome.Ready? && original.eventId == finalized.id
    ensures ConvertedAt(cfg, inv, finalized, before, rate) && Settles(original, outcome.row, inv, rate)
  {
    var doc, opts := OriginalDocument(cfg, inv, finalized, before, original);
    rate := RateOf(inv, opts).value;
    VoidStoresReversal(cfg, inv, opts, doc, parent, voided, after, outcome);
    ReversalSettles(doc, inv, opts, outcome.row.rawEvent.doc, after.stornoAt);
  }

  /** What the first delivery stored. */
  lemma OriginalDocument(cfg: Config, inv: Invoice, finalized: Event, before: World, original: Submission)
    returns (doc: InvoiceData, opts: MapOptions)
    requires finalized.eventType == "invoice.finalized" && before.invoice == Some(inv)
    requires InvoiceOutcome(cfg, finalized, before, None, Ready(original))
    ensures FirstRate(cfg, finalized, inv, before).Ok?
    ensures opts == CreateOptions(cfg, FirstRate(cfg, finalized, inv, before).value)
    ensures original.eventId == finalized.id && original.rawEvent == InvoicePayload(doc)
    ensures Refusal(inv, opts).None? && IsDocument(doc, inv, opts)
  {
    opts := CreateOptions(cfg, FirstRate(cfg, finalized, inv, before).value);
    doc := original.rawEvent.doc;
  }

  /** What the storno laws say of one reversal. */
  lemma ReversalSettles(doc: InvoiceData, inv: Invoice, opts: MapOptions, storno: InvoiceData, now: int)
    requires IsReversal(doc, inv, opts, storno, now)
    ensures Cancels(doc, storno, InvoiceSide) <==> Negatable(inv.lines.value.data)
    ensures Extend(storno.lines, |inv.lines.value.data|)
    ensures Negatable(inv.lines.value.data) && Lossless(RateOf(inv, opts).value) ==> Cancels(doc, storno, ForintSide)
  {
    StornoCancelsIff(doc, inv, opts, storno, now);
    StornoExtendsChain(doc, inv, opts, storno, now);
    if Negatable(inv.lines.value.data) && Lossless(RateOf(inv, opts).value) {
      StornoCancelsForints(doc, inv, opts, storno, now);
    }
  }

  /** In every run, a row that was put keeps what it was put with, so a later lookup meets the original's document. */
  lemma PutKeepsOrigin(pacing: Pacing, clock: Time, steps: seq<Step>, k: nat)
    requires Runs(pacing, Start(clock), steps) && k < |Exec(pacing, Start(clock), steps).puts|
    ensures var s := Exec(pacing, Start(clock), steps);
            && Filed(s.rows) && s.puts[k].row.eventId in s.rows
            && SameOrigin(s.puts[k].row, s.rows[s.puts[k].row.eventId])
  {
    RunKeepsSound(pacing, Start(clock), steps);
    PutIsStored(Exec(pacing, Start(clock), steps), k);
  }

  // ---------- that it happens ----------

  /** Whatever its parent lookup finds, an invoice event is handled to some outcome. */
  lemma ComesTo(cfg: Config, event: Event, world: World, inv: Invoice, parent: Option<Submission>)
    returns (outcome: Outcome)
    requires event.eventType in ELIGIBLE_EVENT_TYPES && world.invoice == Some(inv)
    ensures InvoiceOutcome(cfg, event, world, parent, outcome)
  {
    var subject, rate := Subject(event.eventType, inv, world), RateUsed(cfg, event.eventType, inv, parent, world);
    if rate.Err? {
      outcome := if rate.error == Permanent then PermanentFailure else TransientFailure;
    } else {
      var opts := OptionsUsed(cfg, event.eventType, inv, rate.value);
      if Refusal(subject, opts).Some? {
        outcome := PermanentFailure;
      } else {
        var doc := DocumentExists(subject, opts);
        outcome := Ready(BlankRow(event, world).(
                           invoiceNumber := subject.number,
                           operation := if Voids(event.eventType) then "STORNO" else "CREATE",
                           parentEventId := if parent.Some? then parent.value.eventId else "",
                           rawEvent := InvoicePayload(doc)));
      }
    }
  }

  lemma HandledSo(cfg: Config, rows: Rows, event: Event, world: World, inv: Invoice, parent: Option<Submission>,
                  outcome: Outcome)
    requires event.eventType in ELIGIBLE_EVENT_TYPES && ELIGIBLE_EVENT_TYPES[event.eventType] == InvoiceKind
    requires world.invoice == Some(inv) && LooksUp(rows, event.eventType, inv, world, parent)
    requires InvoiceOutcome(cfg, event, world, parent, outcome)
    ensures IsOutcome(cfg, rows, event, world, outcome)
  {
  }

  lemma MappedIsReady(cfg: Config, event: Event, world: World, inv: Invoice, outcome: Outcome)
    requires event.eventType == "invoice.finalized" && world.invoice == Some(inv)
    requires InvoiceOutcome(cfg, event, world, None, outcome)
    requires FirstRate(cfg, event, inv, world).Ok?
    requires Refusal(inv, CreateOptions(cfg, FirstRate(cfg, event, inv, world).value)).None?
    ensures outcome.Ready? && outcome.row.eventId == event.id && outcome.row.invoiceNumber == inv.number
  {
  }

  /** An invoice that maps at creation is handled to a row, whatever else is stored. */
  lemma FinalizedRow(cfg: Config, rows: Rows, event: Event, world: World, inv: Invoice) returns (row: Submission)
    requires event.eventType == "invoice.finalized" && world.invoice == Some(inv)
    requires FirstRate(cfg, event, inv, world).Ok?
    requires Refusal(inv, CreateOptions(cfg, FirstRate(cfg, event, inv, world).value)).None?
    ensures IsOutcome(cfg, rows, event, world, Ready(row))
    ensures row.eventId == event.id && row.invoiceNumber == inv.number
  {
    row := MappedRow(cfg, event, world, inv);
    FinalizedKind();
    NotVoided(rows, event.eventType, inv, world);
    HandledSo(cfg, rows, event, world, inv, None, Ready(row));
  }

  lemma FinalizedKind()
    ensures "invoice.finalized" in ELIGIBLE_EVENT_TYPES && ELIGIBLE_EVENT_TYPES["invoice.finalized"] == InvoiceKind
    ensures !Voids("invoice.finalized")
  {
  }

  lemma NotVoided(rows: Rows, eventType: string, inv: Invoice, world: World)
    requires !Voids(eventType)
    ensures LooksUp(rows, eventType, inv, world, None)
  {
  }

  lemma MappedRow(cfg: Config, event: Event, world: World, inv: Invoice) returns (row: Submission)
    requires event.eventType == "invoice.finalized" && world.invoice == Some(inv)
    requires FirstRate(cfg, event, inv, world).Ok?
    requires Refusal(inv, CreateOptions(cfg, FirstRate(cfg, event, inv, world).value)).None?
    ensures InvoiceOutcome(cfg, event, world, None, Ready(row))
    ensures row.eventId == event.id && row.invoiceNumber == inv.number
  {
    var outcome := ComesTo(cfg, event, world, inv, None);
    MappedIsReady(cfg, event, world, inv, outcome);
    row := outcome.row;
  }

  lemma OnlyRowIsParent(row: Submission, number: string)
    requires row.invoiceNumber == number
    ensures OldestUnder(map[row.eventId := row], number, row.eventId)
    ensures IsParent(map[row.eventId := row], number, true, Some(row))
  {
    assert NumberedIds(map[row.eventId := row], number) == {row.eventId};
  }

  lemma VoidedRow(cfg: Config, row: Submission, event: Event, world: World, inv: Invoice) returns (outcome: Outcome)
    requires Voids(event.eventType) && world.invoice == Some(inv) && world.findOk && row.invoiceNumber == inv.number
    ensures IsOutcome(cfg, map[row.eventId := row], event, world, outcome)
  {
    outcome := ComesTo(cfg, event, world, inv, Some(row));
    OnlyRowIsParent(row, inv.number);
    HandledSo(cfg, map[row.eventId := row], event, world, inv, Some(row), outcome);
  }

  /** Any invoice that maps at creation can be finalized and then voided. */
  lemma VoidFollows(cfg: Config, inv: Invoice, finalized: Event, before: World, voided: Event, after: World)
    returns (original: Submission, outcome: Outcome)
    requires finalized.eventType == "invoice.finalized" && before.invoice == Some(inv)
    requires FirstRate(cfg, finalized, inv, before).Ok?
    requires Refusal(inv, CreateOptions(cfg, FirstRate(cfg, finalized, inv, before).value)).None?
    requires Voids(voided.eventType) && after.invoice == Some(inv) && after.stornoAt > 0 && after.findOk
    ensures FinalizedThenVoided(cfg, inv, map[], finalized, before, original, map[finalized.id := original],
                                voided, after, outcome)
  {
    original := FinalizedRow(cfg, map[], finalized, before, inv);
    outcome := VoidedRow(cfg, original, voided, after, inv);
    OnlyRowIsParent(original, inv.number);
  }

  /** And there is such an invoice, over any lines that do not end in a null entry. */
  lemma EuroVoidFollows(data: seq<Option<InvoiceLine>>)
    returns (cfg: Config, original: Submission, finalized: Event, before: World, voided: Event, after: World,
             outcome: Outcome)
    requires data != [] && data[|data| - 1].Some?
    ensures FinalizedThenVoided(cfg, EuroInvoice(data), map[], finalized, before, original,
                                map[finalized.id := original], voided, after, outcome)
  {
    var inv := EuroInvoice(data);
    cfg := Config(SUPPLIER_NUMBER, "x", Some((currency: string, at: int) => Some(IntString(400))));
    finalized, voided := Event("e1", "invoice.finalized", 0), Event("e2", "invoice.voided", 0);
    before := World(Some(inv), None, "", 0, 1, 1, true, true, true);
    after := before;
    EuroInvoiceMaps(data, 400);
    EurosAreForeign();
    assert CreateOptions(cfg, IntString(400)) == SomeOptions(IntString(400));
    original, outcome := VoidFollows(cfg, inv, finalized, before, voided, after);
  }

  lemma EurosAreForeign()
    ensures ToUpper("eur") != "HUF"
  {
    EurosUpper();
    assert "EUR"[0] != "HUF"[0];
  }
}
