/**
 The webhook handler from a verified event to its HTTP status: dedup, mapping, the
 parent lookup and rate of a storno, and the Put. What the event decodes to, how
 the clock reads and which store calls fail are inputs.
 */
module Handler {
  import opened Wrappers
  import opened Documents
  import opened Currency
  import opened Invoices
  import opened TaxIds
  import opened Submissions
  import opened Mutators
  import opened StoreInMem
  import opened Mapper
  import opened StornoLaws
  import opened Protocol

  datatype Failure = Permanent | Transient

  /** The supplier, and the exchange-rate provider: a rate for a currency at a time, or a failed call. */
  datatype Config = Config(
    supplierTaxNumber: string,
    supplierStreet: string,
    provider: Option<(string, int) -> Option<string>>)

  /** A decoded credit note: its number, whether it names an invoice, its rate lookup, and its mapping. */
  datatype CreditNote = CreditNote(number: string, hasInvoice: bool, rate: Result<string, Failure>,
                                   mapped: Option<InvoiceData>)

  /** What the world contributes to one delivery; None is an undecodable event. */
  datatype World = World(
    invoice: Option<Invoice>,
    creditNote: Option<CreditNote>,
    body: string,
    now: Time,
    stornoAt: int,
    fallbackAt: int,
    getOk: bool,
    findOk: bool,
    putOk: bool)

  predicate Voids(eventType: string) {
    eventType == "invoice.voided" || eventType == "invoice.marked_uncollectible"
  }

  /** stripeInvoiceIssueTime: the time the rate is asked for is the date the mapper issues the document at, if any. */
  function IssueTime(inv: Invoice, fallback: int): (at: int)
    ensures at == if IssueDate(inv).Some? then IssueDate(inv).value else fallback
  {
    if inv.finalizedAt.Some? && inv.finalizedAt.value > 0 then inv.finalizedAt.value
    else if inv.effectiveAt > 0 then inv.effectiveAt
    else if inv.created > 0 then inv.created
    else fallback
  }

  /** rateFor. */
  function RateFor(cfg: Config, currency: string, at: int): Result<string, Failure> {
    if ToUpper(currency) == "HUF" then Ok("")
    else if cfg.provider.None? then Err(Permanent)
    else
      var answer := cfg.provider.value(currency, at);
      if answer.None? then Err(Transient) else Ok(answer.value)
  }

  /** exchangeRateFromMapped: empty unless the payload is a mapped invoice. */
  function ExchangeRateFromMapped(payload: Payload): string {
    if payload.InvoicePayload? then TrimSpace(payload.doc.exchangeRate) else ""
  }

  /** The rate a storno takes over from its parent, or the empty string. */
  function ParentRate(inv: Invoice, parent: Option<Submission>): string {
    if parent.Some? && ToUpper(inv.currency) != "HUF" then ExchangeRateFromMapped(parent.value.rawEvent) else ""
  }

  /** The options a finalized invoice is mapped with. */
  function CreateOptions(cfg: Config, rate: string): MapOptions {
    MapOptions(cfg.supplierTaxNumber, cfg.supplierStreet, "CREATE", "", 0, rate, 0)
  }

  /** The invoice that gets mapped: the event's own, or its sign-flipped clone when it is voided. */
  function Subject(eventType: string, inv: Invoice, world: World): Invoice {
    if Voids(eventType) then Storno(inv, world.stornoAt) else inv
  }

  function RateUsed(cfg: Config, eventType: string, inv: Invoice, parent: Option<Submission>, world: World):
    Result<string, Failure>
  {
    if Voids(eventType) && ParentRate(inv, parent) != "" then Ok(ParentRate(inv, parent))
    else RateFor(cfg, inv.currency, IssueTime(Subject(eventType, inv, world), world.fallbackAt))
  }

  function OptionsUsed(cfg: Config, eventType: string, inv: Invoice, rate: string): MapOptions {
    if Voids(eventType) then StornoOptions(inv, CreateOptions(cfg, ""), rate) else CreateOptions(cfg, rate)
  }

  /** The parent of a void: the oldest row recorded for the original's number, when the lookup finds one. */
  ghost predicate IsParent(rows: Rows, number: string, findOk: bool, parent: Option<Submission>) {
    if parent.None? then !findOk || NumberedIds(rows, number) == {}
    else
      && findOk
      && parent.value.eventId in NumberedIds(rows, number) && rows[parent.value.eventId] == parent.value
      && forall id :: id in NumberedIds(rows, number) ==> parent.value.createdAt <= rows[id].createdAt
  }

  ghost predicate LooksUp(rows: Rows, eventType: string, inv: Invoice, world: World, parent: Option<Submission>) {
    if Voids(eventType) then IsParent(rows, inv.number, world.findOk, parent) else parent.None?
  }

  /** The row processEvent starts from. */
  function BlankRow(event: Event, world: World): Submission
    requires event.eventType in ELIGIBLE_EVENT_TYPES
  {
    Submission(event.id, ELIGIBLE_EVENT_TYPES[event.eventType], "", "", "", Pending, 0, "", "",
               world.now, event.created, world.now, world.now, OtherPayload(world.body), "", ZERO_TIME)
  }

  /** What an invoice event comes to once its parent has been looked up. */
  ghost predicate InvoiceOutcome(cfg: Config, event: Event, world: World, parent: Option<Submission>, outcome: Outcome)
    requires event.eventType in ELIGIBLE_EVENT_TYPES && world.invoice.Some?
  {
    var inv := world.invoice.value;
    var subject := Subject(event.eventType, inv, world);
    var rate := RateUsed(cfg, event.eventType, inv, parent, world);
    if rate.Err? then outcome == if rate.error == Permanent then PermanentFailure else TransientFailure
    else
      var opts := OptionsUsed(cfg, event.eventType, inv, rate.value);
      if Refusal(subject, opts).Some? then outcome == PermanentFailure
      else
        && outcome.Ready? && outcome.row.rawEvent.InvoicePayload?
        && IsDocument(outcome.row.rawEvent.doc, subject, opts)
        && outcome.row == BlankRow(event, world).(
             invoiceNumber := subject.number,
             operation := if Voids(event.eventType) then "STORNO" else "CREATE",
             parentEventId := if parent.Some? then parent.value.eventId else "",
             rawEvent := outcome.row.rawEvent)
  }

  function CreditNoteOutcome(event: Event, world: World): Outcome
    requires event.eventType in ELIGIBLE_EVENT_TYPES
  {
    if world.creditNote.None? then PermanentFailure
    else
      var note := world.creditNote.value;
      if !note.hasInvoice then PermanentFailure
      else if note.rate.Err? then (if note.rate.error == Permanent then PermanentFailure else TransientFailure)
      else if note.mapped.None? then PermanentFailure
      else Ready(BlankRow(event, world).(invoiceNumber := note.number, operation := "MODIFY",
                                         rawEvent := InvoicePayload(note.mapped.value)))
  }

  /** Everything an eligible, not yet stored event can come to before its Put. */
  ghost predicate IsOutcome(cfg: Config, rows: Rows, event: Event, world: World, outcome: Outcome)
    requires event.eventType in ELIGIBLE_EVENT_TYPES
  {
    if ELIGIBLE_EVENT_TYPES[event.eventType] == CreditNoteKind then outcome == CreditNoteOutcome(event, world)
    else if world.invoice.None? then outcome == PermanentFailure
    else exists parent ::
      && LooksUp(rows, event.eventType, world.invoice.value, world, parent)
      && InvoiceOutcome(cfg, event, world, parent, outcome)
  }

  /** The stages a delivery goes through, ending in the one its answer is read from. */
  function FinalStage(rows: Rows, event: Event, world: World, outcome: Outcome): Stage {
    if event.eventType !in ELIGIBLE_EVENT_TYPES then Acknowledged(Ignored)
    else if !world.getOk then Refused
    else if event.id in rows then Acknowledged(AlreadyStored)
    else match outcome
      case PermanentFailure => Acknowledged(Unmappable)
      case TransientFailure => Refused
      case Ready(_) => if world.putOk then Acknowledged(StoredNow) else Refused
  }

  // ---------- what an event is answered, in its own fields ----------

  predicate InvoiceType(eventType: string) {
    eventType == "invoice.finalized" || eventType == "invoice.voided" || eventType == "invoice.marked_uncollectible"
  }

  predicate CreditNoteType(eventType: string) {
    eventType == "credit_note.created" || eventType == "credit_note.voided"
  }

  lemma EligibleIff(eventType: string)
    ensures eventType in ELIGIBLE_EVENT_TYPES <==> InvoiceType(eventType) || CreditNoteType(eventType)
    ensures InvoiceType(eventType) ==> ELIGIBLE_EVENT_TYPES[eventType] == InvoiceKind
    ensures CreditNoteType(eventType) ==> ELIGIBLE_EVENT_TYPES[eventType] == CreditNoteKind
  {
  }

  /** The parent is a mapped invoice that shows a rate. */
  predicate ShowsRate(parent: Option<Submission>) {
    parent.Some? && parent.value.rawEvent.InvoicePayload? && !AllSpace(parent.value.rawEvent.doc.exchangeRate)
  }

  /** The rate text the invoice is mapped with, if one is to be had: none for forints, a void's parent's, or the provider's. */
  function RateText(cfg: Config, eventType: string, inv: Invoice, parent: Option<Submission>, world: World): Option<string> {
    if Forint(inv.currency) then Some("")
    else if Voids(eventType) && ShowsRate(parent) then Some(TrimSpace(parent.value.rawEvent.doc.exchangeRate))
    else if cfg.provider.None? then None
    else cfg.provider.value(inv.currency, IssueTime(Subject(eventType, inv, world), world.fallbackAt))
  }

  function MappedWith(cfg: Config, eventType: string, inv: Invoice, rate: string): MapOptions {
    if eventType == "invoice.finalized" then MapOptions(cfg.supplierTaxNumber, cfg.supplierStreet, "CREATE", "", 0, rate, 0)
    else MapOptions(cfg.supplierTaxNumber, cfg.supplierStreet, "STORNO", inv.number, 0, rate,
                    if inv.lines.Some? then |inv.lines.value.data| else 0)
  }

  /** A requirement the mapper would refuse the invoice for. */
  ghost predicate LacksSomething(cfg: Config, eventType: string, inv: Invoice, parent: Option<Submission>, world: World) {
    var rate := RateText(cfg, eventType, inv, parent, world);
    rate.Some? && exists requirement ::
      !Meets(Subject(eventType, inv, world), MappedWith(cfg, eventType, inv, rate.value), requirement)
  }

  /** It cannot be decoded, or needs a provider where none is configured, or the mapper refuses it. */
  ghost predicate NeverMappable(cfg: Config, eventType: string, parent: Option<Submission>, world: World) {
    world.invoice.None? ||
    (RateText(cfg, eventType, world.invoice.value, parent, world).None? && cfg.provider.None?) ||
    LacksSomething(cfg, eventType, world.invoice.value, parent, world)
  }

  /** The configured provider is asked, and its call fails. */
  predicate ProviderFails(cfg: Config, eventType: string, parent: Option<Submission>, world: World) {
    world.invoice.Some? && cfg.provider.Some? &&
    RateText(cfg, eventType, world.invoice.value, parent, world).None?
  }

  lemma RateUsedIs(cfg: Config, eventType: string, inv: Invoice, parent: Option<Submission>, world: World)
    ensures var text := RateText(cfg, eventType, inv, parent, world);
            RateUsed(cfg, eventType, inv, parent, world) ==
            if text.Some? then Ok(text.value) else if cfg.provider.None? then Err(Permanent) else Err(Transient)
  {
    ForintIff(inv.currency);
    if parent.Some? && parent.value.rawEvent.InvoicePayload? {
      BlankIff(parent.value.rawEvent.doc.exchangeRate);
    }
  }

  lemma OptionsUsedAre(cfg: Config, eventType: string, inv: Invoice, rate: string)
    requires InvoiceType(eventType)
    ensures OptionsUsed(cfg, eventType, inv, rate) == MappedWith(cfg, eventType, inv, rate)
  {
  }

  /** Which of the three outcomes an invoice event comes to, exactly. */
  lemma OutcomeRule(cfg: Config, event: Event, world: World, parent: Option<Submission>, outcome: Outcome)
    requires InvoiceType(event.eventType) && event.eventType in ELIGIBLE_EVENT_TYPES && world.invoice.Some?
    requires InvoiceOutcome(cfg, event, world, parent, outcome)
    ensures outcome.PermanentFailure? <==> NeverMappable(cfg, event.eventType, parent, world)
    ensures outcome.TransientFailure? <==> ProviderFails(cfg, event.eventType, parent, world)
  {
    var inv := world.invoice.value;
    RateUsedIs(cfg, event.eventType, inv, parent, world);
    var rate := RateText(cfg, event.eventType, inv, parent, world);
    if rate.Some? {
      OptionsUsedAre(cfg, event.eventType, inv, rate.value);
      RefusalRule(Subject(event.eventType, inv, world), MappedWith(cfg, event.eventType, inv, rate.value));
    }
  }

  /** The row of an invoice event that is mapped: a new pending row, with the original's row as parent of its storno. */
  lemma ReadyRow(cfg: Config, event: Event, world: World, inv: Invoice, parent: Option<Submission>, row: Submission)
    requires InvoiceType(event.eventType) && event.eventType in ELIGIBLE_EVENT_TYPES && world.invoice == Some(inv)
    requires InvoiceOutcome(cfg, event, world, parent, Ready(row))
    ensures row.eventId == event.id && row.kind == InvoiceKind && row.status == Pending && row.attempts == 0
    ensures row.createdAt == row.nextAttemptAt == world.now && row.issuedAt == event.created
    ensures row.operation == if event.eventType == "invoice.finalized" then "CREATE" else "STORNO"
    ensures row.invoiceNumber == if event.eventType == "invoice.finalized" then inv.number else inv.number + "-STORNO"
    ensures row.parentEventId == if parent.Some? then parent.value.eventId else ""
    ensures row.rawEvent.InvoicePayload?
  {
    EligibleIff(event.eventType);
    assert RateUsed(cfg, event.eventType, inv, parent, world).Ok?;
  }

  /** What a new invoice event is answered, and what is stored. */
  ghost predicate InvoiceServed(cfg: Config, rows: Rows, event: Event, world: World, parent: Option<Submission>,
                                status: int, after: Rows)
  {
    && (world.invoice.Some? ==> LooksUp(rows, event.eventType, world.invoice.value, world, parent))
    && (status == 200 && after == rows <==> NeverMappable(cfg, event.eventType, parent, world))
    && (status == 503 <==> ProviderFails(cfg, event.eventType, parent, world) ||
                           (!NeverMappable(cfg, event.eventType, parent, world) && !world.putOk))
    && (status == 503 ==> after == rows)
  }

  lemma InvoiceIsServed(cfg: Config, rows: Rows, event: Event, world: World, outcome: Outcome, status: int, after: Rows)
    requires InvoiceType(event.eventType) && event.eventType in ELIGIBLE_EVENT_TYPES
    requires world.getOk && event.id !in rows && IsOutcome(cfg, rows, event, world, outcome)
    requires Answer(FinalStage(rows, event, world, outcome)) == Some(status)
    requires after == if FinalStage(rows, event, world, outcome) == Acknowledged(StoredNow)
                      then rows[event.id := outcome.row] else rows
    ensures exists parent :: InvoiceServed(cfg, rows, event, world, parent, status, after)
  {
    EligibleIff(event.eventType);
    var parent: Option<Submission> := None;
    if world.invoice.Some? {
      parent :| LooksUp(rows, event.eventType, world.invoice.value, world, parent) &&
                InvoiceOutcome(cfg, event, world, parent, outcome);
      OutcomeRule(cfg, event, world, parent, outcome);
    }
    if outcome.Ready? && world.putOk {
      assert event.id in after;
    }
    assert InvoiceServed(cfg, rows, event, world, parent, status, after);
  }

  /** The note cannot be decoded, names no invoice, needs a provider that is not there, or cannot be mapped. */
  predicate NoteNeverMappable(world: World) {
    world.creditNote.None? || !world.creditNote.value.hasInvoice ||
    world.creditNote.value.rate == Err(Permanent) ||
    (world.creditNote.value.rate.Ok? && world.creditNote.value.mapped.None?)
  }

  predicate NoteRateFails(world: World) {
    world.creditNote.Some? && world.creditNote.value.hasInvoice && world.creditNote.value.rate == Err(Transient)
  }

  ghost predicate NoteServed(rows: Rows, world: World, status: int, after: Rows) {
    && (status == 200 && after == rows <==> NoteNeverMappable(world))
    && (status == 503 <==> NoteRateFails(world) || (!NoteNeverMappable(world) && !world.putOk))
    && (status == 503 ==> after == rows)
  }

  lemma NoteIsServed(cfg: Config, rows: Rows, event: Event, world: World, outcome: Outcome, status: int, after: Rows)
    requires CreditNoteType(event.eventType) && event.eventType in ELIGIBLE_EVENT_TYPES
    requires world.getOk && event.id !in rows && IsOutcome(cfg, rows, event, world, outcome)
    requires Answer(FinalStage(rows, event, world, outcome)) == Some(status)
    requires after == if FinalStage(rows, event, world, outcome) == Acknowledged(StoredNow)
                      then rows[event.id := outcome.row] else rows
    ensures NoteServed(rows, world, status, after)
    ensures outcome.Ready? ==>
              && outcome.row.eventId == event.id && outcome.row.kind == CreditNoteKind
              && outcome.row.operation == "MODIFY" && outcome.row.parentEventId == ""
              && outcome.row.invoiceNumber == world.creditNote.value.number
              && outcome.row.rawEvent == InvoicePayload(world.creditNote.value.mapped.value)
  {
    EligibleIff(event.eventType);
    if outcome.Ready? && world.putOk {
      assert event.id in after;
    }
  }

  class BridgeHandler {
    const cfg: Config
    const store: Store

    constructor (cfg: Config, store: Store)
      ensures this.cfg == cfg && this.store == store
    {
      this.cfg := cfg;
      this.store := store;
    }

    /** findParentSubmission. */
    method FindParentSubmission(number: string, findOk: bool) returns (parent: Option<Submission>)
      requires store.Valid()
      ensures IsParent(store.rows, number, findOk, parent)
    {
      var found := store.FindByInvoiceNumber(!findOk, number);
      if found.Err? || |found.value| == 0 {
        return None;
      }
      OldestIsParent(store.rows, number, found.value);
      return Some(found.value[0]);
    }

    /** processInvoice, up to the call that persists its result. */
    method ProcessInvoice(event: Event, world: World, blank: Submission) returns (outcome: Outcome)
      requires store.Valid()
      requires event.eventType in ELIGIBLE_EVENT_TYPES && ELIGIBLE_EVENT_TYPES[event.eventType] == InvoiceKind
      requires blank == BlankRow(event, world)
      ensures IsOutcome(cfg, store.rows, event, world, outcome)
    {
      var sub := blank;
      if world.invoice.None? {
        return PermanentFailure;
      }
      var inv := world.invoice.value;
      var invForMap := inv;
      var op := "CREATE";
      var opts := MapOptions(cfg.supplierTaxNumber, cfg.supplierStreet, "CREATE", "", 0, "", 0);
      var parentRate := "";
      ghost var looked: Option<Submission> := None;
      if Voids(event.eventType) {
        invForMap := InvoiceAsStorno(inv, world.stornoAt);
        op := "STORNO";
        opts := MapOptions(cfg.supplierTaxNumber, cfg.supplierStreet, "STORNO", inv.number, 0, "", 0);
        if inv.lines.Some? {
          opts := opts.(originalLineCount := |inv.lines.value.data|);
        }
        var parent := FindParentSubmission(inv.number, world.findOk);
        looked := parent;
        if parent.Some? {
          sub := sub.(parentEventId := parent.value.eventId);
          if ToUpper(inv.currency) != "HUF" {
            parentRate := ExchangeRateFromMapped(parent.value.rawEvent);
          }
        }
      }
      assert LooksUp(store.rows, event.eventType, inv, world, looked);
      var rate := Ok(parentRate);
      if parentRate == "" {
        rate := RateFor(cfg, inv.currency, IssueTime(invForMap, world.fallbackAt));
      }
      assert rate == RateUsed(cfg, event.eventType, inv, looked, world);
      if rate.Err? {
        outcome := if rate.error == Permanent then PermanentFailure else TransientFailure;
        return;
      }
      opts := opts.(exchangeRateToHUF := rate.value);
      assert opts == OptionsUsed(cfg, event.eventType, inv, rate.value);
      sub := sub.(invoiceNumber := invForMap.number);
      var mapped := MapInvoice(invForMap, opts);
      if mapped.Err? {
        outcome := PermanentFailure;
      } else {
        sub := sub.(rawEvent := InvoicePayload(mapped.value), operation := op);
        outcome := Ready(sub);
      }
      assert InvoiceOutcome(cfg, event, world, looked, outcome);
    }

    /** processCreditNote, up to the call that persists its result. */
    method ProcessCreditNote(event: Event, world: World, blank: Submission) returns (outcome: Outcome)
      requires event.eventType in ELIGIBLE_EVENT_TYPES && blank == BlankRow(event, world)
      ensures outcome == CreditNoteOutcome(event, world)
    {
      if world.creditNote.None? || !world.creditNote.value.hasInvoice {
        return PermanentFailure;
      }
      var note := world.creditNote.value;
      var sub := blank.(invoiceNumber := note.number);
      if note.rate.Err? {
        outcome := if note.rate.error == Permanent then PermanentFailure else TransientFailure;
        return;
      }
      if note.mapped.None? {
        return PermanentFailure;
      }
      outcome := Ready(sub.(operation := "MODIFY", rawEvent := InvoicePayload(note.mapped.value)));
    }

    /** The Put of persistMapped: losing the race to a concurrent delivery is a success. */
    method Persist(row: Submission, putOk: bool) returns (r: Result<(), Failure>)
      requires store.Valid()
      modifies store
      ensures store.Valid()
      ensures r == if putOk then Ok(()) else Err(Transient)
      ensures store.rows == if putOk && row.eventId !in old(store.rows) then old(store.rows)[row.eventId := row]
                            else old(store.rows)
    {
      var put := store.Put(!putOk, row);
      if put.Err? && put.error != AlreadyExists {
        return Err(Transient);
      }
      return Ok(());
    }

    /** processEvent. */
    method ProcessEvent(event: Event, world: World) returns (r: Result<(), Failure>, ghost outcome: Outcome)
      requires store.Valid()
      modifies store
      ensures store.Valid()
      ensures event.eventType in ELIGIBLE_EVENT_TYPES && world.getOk && event.id !in old(store.rows) ==>
                IsOutcome(cfg, old(store.rows), event, world, outcome)
      ensures match FinalStage(old(store.rows), event, world, outcome)
              case Acknowledged(ack) => (if ack == Unmappable then r == Err(Permanent) else r == Ok(()))
              case _ => r == Err(Transient)
      ensures store.rows == if FinalStage(old(store.rows), event, world, outcome) == Acknowledged(StoredNow)
                            then old(store.rows)[event.id := outcome.row] else old(store.rows)
    {
      outcome := PermanentFailure;
      if event.eventType !in ELIGIBLE_EVENT_TYPES {
        return Ok(()), outcome;
      }
      var known := store.Get(!world.getOk, event.id);
      if known.Ok? {
        return Ok(()), outcome;
      }
      if known.error != NotFound {
        return Err(Transient), outcome;
      }
      var sub := BlankRow(event, world);
      var prepared: Outcome;
      if ELIGIBLE_EVENT_TYPES[event.eventType] == InvoiceKind {
        prepared := ProcessInvoice(event, world, sub);
      } else {
        prepared := ProcessCreditNote(event, world, sub);
      }
      outcome := prepared;
      OutcomeKeepsId(cfg, store.rows, event, world, prepared);
      match prepared {
        case PermanentFailure => r := Err(Permanent);
        case TransientFailure => r := Err(Transient);
        case Ready(row) => r := Persist(row, world.putOk);
      }
    }

    /**
     ServeHTTP after the signature check. A 200 for an eligible event means that
     its row is stored or that it can never be mapped; after a 503 this delivery
     has stored nothing. The store and the answer are those of the transition system.
     */
    method ServeEvent(event: Event, world: World) returns (status: int, ghost outcome: Outcome)
      requires store.Valid()
      modifies store
      ensures store.Valid() && (status == 200 || status == 503)
      ensures Answer(FinalStage(old(store.rows), event, world, outcome)) == Some(status)
      ensures event.eventType in ELIGIBLE_EVENT_TYPES && world.getOk && event.id !in old(store.rows) ==>
                IsOutcome(cfg, old(store.rows), event, world, outcome)
      ensures status == 200 && event.eventType in ELIGIBLE_EVENT_TYPES ==>
                event.id in store.rows || IsOutcome(cfg, old(store.rows), event, world, PermanentFailure)
      ensures status == 503 ==> store.rows == old(store.rows)
      ensures !InvoiceType(event.eventType) && !CreditNoteType(event.eventType) ==>
                status == 200 && store.rows == old(store.rows)
      ensures InvoiceType(event.eventType) || CreditNoteType(event.eventType) ==>
                && (!world.getOk ==> status == 503)
                && (world.getOk && event.id in old(store.rows) ==> status == 200 && store.rows == old(store.rows))
      ensures InvoiceType(event.eventType) && world.getOk && event.id !in old(store.rows) ==>
                exists parent :: InvoiceServed(cfg, old(store.rows), event, world, parent, status, store.rows)
      ensures CreditNoteType(event.eventType) && world.getOk && event.id !in old(store.rows) ==>
                NoteServed(old(store.rows), world, status, store.rows)
      ensures store.rows == if FinalStage(old(store.rows), event, world, outcome) == Acknowledged(StoredNow)
                            then old(store.rows)[event.id := outcome.row] else old(store.rows)
    {
      ghost var rows := store.rows;
      EligibleIff(event.eventType);
      var r;
      r, outcome := ProcessEvent(event, world);
      status := 200;
      if r.Err? && r.error != Permanent {
        status := 503;
      }
      if InvoiceType(event.eventType) && world.getOk && event.id !in rows {
        InvoiceIsServed(cfg, rows, event, world, outcome, status, store.rows);
      } else if CreditNoteType(event.eventType) && world.getOk && event.id !in rows {
        NoteIsServed(cfg, rows, event, world, outcome, status, store.rows);
      }
    }
  }

  lemma OldestIsParent(rows: Rows, number: string, found: seq<Submission>)
    requires FoundBy(rows, number, found) && found != []
    ensures IsParent(rows, number, true, Some(found[0]))
  {
    assert found[0].eventId in Ids(found);
    forall id | id in NumberedIds(rows, number)
      ensures found[0].createdAt <= rows[id].createdAt
    {
      assert id in Ids(found);
      var i :| 0 <= i < |found| && found[i].eventId == id;
    }
  }

  lemma OutcomeKeepsId(cfg: Config, rows: Rows, event: Event, world: World, outcome: Outcome)
    requires event.eventType in ELIGIBLE_EVENT_TYPES && IsOutcome(cfg, rows, event, world, outcome)
    ensures outcome.Ready? ==> outcome.row.eventId == event.id
  {
  }

  // ---------- the handler and the transition system ----------

  /** A prepared row is one the transition system may put: fresh, pending, its parent already stored. */
  lemma OutcomeIsFresh(cfg: Config, rows: Rows, event: Event, world: World, outcome: Outcome)
    requires event.eventType in ELIGIBLE_EVENT_TYPES && IsOutcome(cfg, rows, event, world, outcome)
    ensures outcome.Ready? ==> FreshRow(rows, world.now, event, outcome.row)
  {
  }

  /** The steps of one delivery that nothing interleaves with. */
  function DeliverySteps(rows: Rows, event: Event, world: World, outcome: Outcome, d: nat): seq<Step> {
    [Arrive(event), Lookup(d, world.getOk)] +
    if event.eventType !in ELIGIBLE_EVENT_TYPES || !world.getOk || event.id in rows then []
    else [Prepare(d, outcome)] + if outcome.Ready? then [Persist(d, world.putOk)] else []
  }

  /** A delivery's run so far: its steps, the stage they led to, and the row they stored, if any. */
  ghost predicate Delivered(pacing: Pacing, s: State, steps: seq<Step>, event: Event, stage: Stage,
                            stored: Option<Submission>)
  {
    && Runs(pacing, s, steps)
    && DeliveryAt(Exec(pacing, s, steps), |s.deliveries|, stage)
    && Exec(pacing, s, steps).deliveries[|s.deliveries|].event == event
    && Exec(pacing, s, steps).clock == s.clock
    && Exec(pacing, s, steps).rows == (if stored.Some? then s.rows[stored.value.eventId := stored.value] else s.rows)
    && Exec(pacing, s, steps).puts ==
       s.puts + if stored.Some? then [PutRecord(|s.deliveries|, stored.value)] else []
  }

  function LookupStage(rows: Rows, event: Event, ok: bool): Stage {
    if event.eventType !in ELIGIBLE_EVENT_TYPES then Acknowledged(Ignored)
    else if !ok then Refused
    else if event.id in rows then Acknowledged(AlreadyStored)
    else Absent
  }

  lemma LookedUp(pacing: Pacing, s: State, event: Event, ok: bool)
    ensures Delivered(pacing, s, [Arrive(event), Lookup(|s.deliveries|, ok)], event, LookupStage(s.rows, event, ok), None)
  {
    OneStep(pacing, s, Arrive(event));
    RunSnoc(pacing, s, [Arrive(event)], Lookup(|s.deliveries|, ok));
    assert [Arrive(event)] + [Lookup(|s.deliveries|, ok)] == [Arrive(event), Lookup(|s.deliveries|, ok)];
  }

  lemma PreparedNext(pacing: Pacing, s: State, steps: seq<Step>, event: Event, outcome: Outcome)
    requires Delivered(pacing, s, steps, event, Absent, None)
    requires outcome.Ready? ==> FreshRow(s.rows, s.clock, event, outcome.row)
    ensures Delivered(pacing, s, steps + [Prepare(|s.deliveries|, outcome)], event,
                      match outcome
                      case Ready(row) => Prepared(row)
                      case PermanentFailure => Acknowledged(Unmappable)
                      case TransientFailure => Refused, None)
  {
    RunSnoc(pacing, s, steps, Prepare(|s.deliveries|, outcome));
  }

  lemma PersistedNext(pacing: Pacing, s: State, steps: seq<Step>, event: Event, row: Submission, ok: bool)
    requires Delivered(pacing, s, steps, event, Prepared(row), None) && row.eventId !in s.rows
    ensures Delivered(pacing, s, steps + [Persist(|s.deliveries|, ok)], event,
                      if ok then Acknowledged(StoredNow) else Refused, if ok then Some(row) else None)
  {
    RunSnoc(pacing, s, steps, Persist(|s.deliveries|, ok));
  }

  /**
   What ServeEvent does is a run of the transition system: the same rows in the
   store at the end, and the same answer.
   */
  lemma DeliveryRefines(pacing: Pacing, s: State, cfg: Config, event: Event, world: World, outcome: Outcome)
    requires s.clock == world.now
    requires event.eventType in ELIGIBLE_EVENT_TYPES && world.getOk && event.id !in s.rows ==>
               IsOutcome(cfg, s.rows, event, world, outcome)
    ensures var last := FinalStage(s.rows, event, world, outcome);
            Delivered(pacing, s, DeliverySteps(s.rows, event, world, outcome, |s.deliveries|), event, last,
                      if last == Acknowledged(StoredNow) then Some(outcome.row) else None)
    ensures FinalStage(s.rows, event, world, outcome) == Acknowledged(StoredNow) ==> outcome.row.eventId == event.id
  {
    var d := |s.deliveries|;
    var looked := [Arrive(event), Lookup(d, world.getOk)];
    LookedUp(pacing, s, event, world.getOk);
    assert looked + [] == looked;
    if event.eventType in ELIGIBLE_EVENT_TYPES && world.getOk && event.id !in s.rows {
      OutcomeIsFresh(cfg, s.rows, event, world, outcome);
      OutcomeKeepsId(cfg, s.rows, event, world, outcome);
      PreparedNext(pacing, s, looked, event, outcome);
      assert looked + ([Prepare(d, outcome)] + []) == looked + [Prepare(d, outcome)];
      if outcome.Ready? {
        PersistedNext(pacing, s, looked + [Prepare(d, outcome)], event, outcome.row, world.putOk);
        assert looked + ([Prepare(d, outcome)] + [Persist(d, world.putOk)]) ==
               looked + [Prepare(d, outcome)] + [Persist(d, world.putOk)];
      }
    }
  }
}
