/**
 An invoice finalized and later voided in one run of the system: what is stored
 for both events at the end of it, and what NAV has been sent for them.
 */
module VoidRuns {
  import opened Wrappers
  import opened Invoices
  import opened Submissions
  import opened Mutators
  import opened StoreInMem
  import opened Mapper
  import opened Protocol
  import opened Safety
  import opened Handler
  import opened History
  import opened VoidedInvoices

  /** Which event of which invoice was handled over which rows, with what input from the world. */
  datatype Handling = Handling(event: Event, rows: Rows, world: World)

  /** The k-th put of the run stored what the handling came to. */
  ghost predicate StoredBy(cfg: Config, s: State, k: nat, h: Handling) {
    && k < |s.puts| && h.event.eventType in ELIGIBLE_EVENT_TYPES
    && IsOutcome(cfg, h.rows, h.event, h.world, Ready(s.puts[k].row))
  }

  /**
   At s the invoice has been finalized and its row stored; its void is handled over the
   rows stored then, and has its row at t.
   */
  ghost predicate VoidedBetween(cfg: Config, inv: Invoice, s: State, t: State,
                                finalized: Handling, k: nat, voided: Handling, j: nat)
  {
    && StoredBy(cfg, s, k, finalized) && finalized.event.eventType == "invoice.finalized"
    && StoredBy(cfg, t, j, voided) && Voids(voided.event.eventType) && voided.rows == s.rows
    && finalized.world.invoice == voided.world.invoice == Some(inv)
    && voided.world.stornoAt > 0 && voided.world.findOk
    && OldestUnder(s.rows, inv.number, finalized.event.id)
  }

  /** Every submit of the row sent exactly its document. */
  predicate SentAsStored(s: State, id: string)
    requires id in s.rows
  {
    forall a :: 0 <= a < |s.attempts| && s.attempts[a].eventId == id ==>
      s.attempts[a].payload == s.rows[id].rawEvent && s.attempts[a].operation == s.rows[id].operation
  }

  predicate AnySent(s: State, id: string) {
    exists a :: 0 <= a < |s.attempts| && s.attempts[a].eventId == id
  }

  lemma ReachedSound(pacing: Pacing, clock: Time, steps: seq<Step>, more: seq<Step>)
    requires Runs(pacing, Start(clock), steps) && Runs(pacing, Exec(pacing, Start(clock), steps), more)
    ensures var s := Exec(pacing, Start(clock), steps);
            Sound(s) && Sound(Exec(pacing, s, more)) && Grows(s, Exec(pacing, s, more))
  {
    var s := Exec(pacing, Start(clock), steps);
    RunKeepsSound(pacing, Start(clock), steps);
    RunKeepsSound(pacing, s, more);
    RunGrows(pacing, s, more);
  }

  lemma HandledId(cfg: Config, s: State, k: nat, h: Handling)
    requires StoredBy(cfg, s, k, h)
    ensures s.puts[k].row.eventId == h.event.id
  {
    OutcomeKeepsId(cfg, h.rows, h.event, h.world, Ready(s.puts[k].row));
  }

  /** An invoice row names its operation, so that is what a submit of it carries. */
  lemma HandledShape(cfg: Config, rows: Rows, event: Event, world: World, inv: Invoice, row: Submission)
    requires event.eventType == "invoice.finalized" || Voids(event.eventType)
    requires world.invoice == Some(inv) && IsOutcome(cfg, rows, event, world, Ready(row))
    ensures row.kind == InvoiceKind && row.operation != ""
  {
    InvoiceEvent(event.eventType);
    var parent :| LooksUp(rows, event.eventType, inv, world, parent) &&
                  InvoiceOutcome(cfg, event, world, parent, Ready(row));
    OutcomeShape(cfg, event, world, inv, parent, row);
  }

  lemma InvoiceEvent(eventType: string)
    requires eventType == "invoice.finalized" || Voids(eventType)
    ensures eventType in ELIGIBLE_EVENT_TYPES && ELIGIBLE_EVENT_TYPES[eventType] == InvoiceKind
  {
  }

  lemma OutcomeShape(cfg: Config, event: Event, world: World, inv: Invoice, parent: Option<Submission>, row: Submission)
    requires event.eventType in ELIGIBLE_EVENT_TYPES && world.invoice == Some(inv)
    requires InvoiceOutcome(cfg, event, world, parent, Ready(row))
    ensures row.kind == ELIGIBLE_EVENT_TYPES[event.eventType] && row.operation != ""
  {
    var rate := RateUsed(cfg, event.eventType, inv, parent, world);
    assert rate.Ok?;
  }

  /** The two puts settle each other. */
  lemma PutsSettle(cfg: Config, inv: Invoice, s: State, t: State, finalized: Handling, k: nat, voided: Handling, j: nat)
    returns (rate: real)
    requires Sound(s) && VoidedBetween(cfg, inv, s, t, finalized, k, voided, j)
    ensures ConvertedAt(cfg, inv, finalized.event, finalized.world, rate) && Settles(s.puts[k].row, t.puts[j].row, inv, rate)
  {
    PutIsStored(s, k);
    HandledId(cfg, s, k, finalized);
    rate := VoidCancelsOriginal(cfg, inv, finalized.rows, finalized.event, finalized.world, s.puts[k].row, s.rows,
                                voided.event, voided.world, Ready(t.puts[j].row));
  }

  lemma SettlesKeepsOrigin(a: Submission, b: Submission, original: Submission, storno: Submission, inv: Invoice, rate: real)
    requires Settles(a, b, inv, rate) && SameOrigin(a, original) && SameOrigin(b, storno)
    ensures Settles(original, storno, inv, rate)
  {
  }

  lemma AttemptsSendTheRow(s: State, id: string)
    requires Consistent(s) && id in s.rows && s.rows[id].rawEvent.InvoicePayload? && s.rows[id].kind == InvoiceKind
    requires s.rows[id].operation != ""
    ensures SentAsStored(s, id)
    ensures AnySent(s, id) && s.rows[id].parentEventId != "" ==>
              s.rows[id].parentEventId in s.rows && s.rows[s.rows[id].parentEventId].status == Accepted
  {
    forall a | 0 <= a < |s.attempts| && s.attempts[a].eventId == id
      ensures s.attempts[a].payload == s.rows[id].rawEvent && s.attempts[a].operation == s.rows[id].operation
      ensures MaySend(s.rows, s.rows[id])
    {
      assert AttemptOk(s, s.attempts[a]);
    }
  }

  /** What holds of both rows at the end, and of what NAV has been sent for them. */
  ghost predicate Settled(t: State, id: string, stornoId: string, inv: Invoice, rate: real) {
    && id in t.rows && stornoId in t.rows && Settles(t.rows[id], t.rows[stornoId], inv, rate)
    && SentAsStored(t, id) && SentAsStored(t, stornoId)
    && (id != "" && AnySent(t, stornoId) ==> t.rows[id].status == Accepted)
  }

  /** The k-th put is the row stored under this id, an invoice row that names its operation. */
  predicate RowStored(t: State, k: nat, id: string) {
    && k < |t.puts| && id in t.rows && SameOrigin(t.puts[k].row, t.rows[id])
    && t.rows[id].eventId == id && t.rows[id].kind == InvoiceKind && t.rows[id].operation != ""
  }

  lemma StoredRow(cfg: Config, inv: Invoice, t: State, k: nat, h: Handling)
    requires Sound(t) && StoredBy(cfg, t, k, h) && h.world.invoice == Some(inv)
    requires h.event.eventType == "invoice.finalized" || Voids(h.event.eventType)
    ensures RowStored(t, k, h.event.id)
  {
    HandledId(cfg, t, k, h);
    PutIsStored(t, k);
    HandledShape(cfg, h.rows, h.event, h.world, inv, t.puts[k].row);
  }

  lemma BothStored(cfg: Config, inv: Invoice, s: State, t: State, finalized: Handling, k: nat, voided: Handling, j: nat)
    requires Sound(t) && Grows(s, t) && VoidedBetween(cfg, inv, s, t, finalized, k, voided, j)
    ensures RowStored(t, k, finalized.event.id) && RowStored(t, j, voided.event.id)
    ensures t.puts[k] == s.puts[k]
  {
    assert t.puts[k] == s.puts[k];
    StoredRow(cfg, inv, t, k, finalized);
    StoredRow(cfg, inv, t, j, voided);
  }

  lemma StoredSettle(t: State, k: nat, id: string, j: nat, stornoId: string, inv: Invoice, rate: real)
    requires Consistent(t) && RowStored(t, k, id) && RowStored(t, j, stornoId)
    requires Settles(t.puts[k].row, t.puts[j].row, inv, rate)
    ensures Settled(t, id, stornoId, inv, rate)
  {
    SettlesKeepsOrigin(t.puts[k].row, t.puts[j].row, t.rows[id], t.rows[stornoId], inv, rate);
    AttemptsSendTheRow(t, id);
    AttemptsSendTheRow(t, stornoId);
  }

  lemma VoidSettles(cfg: Config, inv: Invoice, s: State, t: State, finalized: Handling, k: nat, voided: Handling, j: nat)
    returns (rate: real)
    requires Sound(s) && Sound(t) && Grows(s, t) && VoidedBetween(cfg, inv, s, t, finalized, k, voided, j)
    ensures ConvertedAt(cfg, inv, finalized.event, finalized.world, rate)
    ensures Settled(t, finalized.event.id, voided.event.id, inv, rate)
  {
    rate := PutsSettle(cfg, inv, s, t, finalized, k, voided, j);
    BothStored(cfg, inv, s, t, finalized, k, voided, j);
    StoredSettle(t, k, finalized.event.id, j, voided.event.id, inv, rate);
  }

  /**
   End to end, over whole runs and under any interleaving: the row stored for a void
   settles the row stored for the invoice, NAV is only ever sent the two documents
   stored there, and nothing for the void before the invoice itself was accepted.
   */
  lemma VoidCancelsInRun(cfg: Config, inv: Invoice, pacing: Pacing, clock: Time, steps: seq<Step>, more: seq<Step>,
                         finalized: Handling, k: nat, voided: Handling, j: nat) returns (rate: real)
    requires Runs(pacing, Start(clock), steps) && Runs(pacing, Exec(pacing, Start(clock), steps), more)
    requires var s := Exec(pacing, Start(clock), steps);
             VoidedBetween(cfg, inv, s, Exec(pacing, s, more), finalized, k, voided, j)
    ensures ConvertedAt(cfg, inv, finalized.event, finalized.world, rate)
    ensures Settled(Exec(pacing, Exec(pacing, Start(clock), steps), more), finalized.event.id, voided.event.id, inv, rate)
  {
    var s := Exec(pacing, Start(clock), steps);
    ReachedSound(pacing, clock, steps, more);
    rate := VoidSettles(cfg, inv, s, Exec(pacing, s, more), finalized, k, voided, j);
  }

  // ---------- that it happens ----------

  /** The delivery of an event that is handled to a new row stores that row. */
  lemma DeliveryStores(pacing: Pacing, s: State, cfg: Config, h: Handling, row: Submission) returns (steps: seq<Step>)
    requires h.event.eventType in ELIGIBLE_EVENT_TYPES && h.rows == s.rows && h.event.id !in s.rows
    requires IsOutcome(cfg, s.rows, h.event, h.world, Ready(row))
    requires s.clock == h.world.now && h.world.getOk && h.world.putOk
    ensures Runs(pacing, s, steps) && Exec(pacing, s, steps).puts == s.puts + [PutRecord(|s.deliveries|, row)]
    ensures Exec(pacing, s, steps).rows == s.rows[h.event.id := row] && Exec(pacing, s, steps).clock == s.clock
  {
    steps := DeliverySteps(s.rows, h.event, h.world, Ready(row), |s.deliveries|);
    DeliveryRefines(pacing, s, cfg, h.event, h.world, Ready(row));
  }

  lemma VoidDelivered(pacing: Pacing, s: State, cfg: Config, inv: Invoice, finalized: Handling, original: Submission,
                      voided: Handling, outcome: Outcome) returns (more: seq<Step>)
    requires finalized.event.id != voided.event.id && s.puts == [PutRecord(0, original)]
    requires s.rows == voided.rows == map[finalized.event.id := original] && Filed(s.rows)
    requires FinalizedThenVoided(cfg, inv, finalized.rows, finalized.event, finalized.world, original, s.rows,
                                 voided.event, voided.world, outcome)
    requires s.clock == voided.world.now && voided.world.getOk && voided.world.putOk
    ensures Runs(pacing, s, more)
    ensures VoidedBetween(cfg, inv, s, Exec(pacing, s, more), finalized, 0, voided, 1)
  {
    var rate := VoidCancelsOriginal(cfg, inv, finalized.rows, finalized.event, finalized.world, original, s.rows,
                                    voided.event, voided.world, outcome);
    InvoiceEvent(finalized.event.eventType);
    InvoiceEvent(voided.event.eventType);
    more := DeliveryStores(pacing, s, cfg, voided, outcome.row);
  }

  lemma FirstDelivery(cfg: Config, pacing: Pacing, event: Event, world: World, row: Submission)
    returns (steps: seq<Step>)
    requires event.eventType == "invoice.finalized" && IsOutcome(cfg, map[], event, world, Ready(row))
    requires world.getOk && world.putOk
    ensures Runs(pacing, Start(world.now), steps)
    ensures var s := Exec(pacing, Start(world.now), steps);
            && s.rows == map[event.id := row] && s.puts == [PutRecord(0, row)]
            && s.clock == world.now && Filed(s.rows)
  {
    InvoiceEvent(event.eventType);
    steps := DeliveryStores(pacing, Start(world.now), cfg, Handling(event, map[], world), row);
    RunFiles(pacing, world.now, steps);
  }

  lemma RunFiles(pacing: Pacing, clock: Time, steps: seq<Step>)
    requires Runs(pacing, Start(clock), steps)
    ensures Filed(Exec(pacing, Start(clock), steps).rows)
  {
    RunKeepsSound(pacing, Start(clock), steps);
  }

  lemma FinalizedRun(cfg: Config, inv: Invoice, pacing: Pacing, finalized: Event, before: World, voided: Event, after: World)
    returns (steps: seq<Step>, original: Submission, outcome: Outcome)
    requires finalized.eventType == "invoice.finalized" && before.invoice == Some(inv)
    requires FirstRate(cfg, finalized, inv, before).Ok?
    requires Refusal(inv, CreateOptions(cfg, FirstRate(cfg, finalized, inv, before).value)).None?
    requires Voids(voided.eventType) && after.invoice == Some(inv) && after.stornoAt > 0 && after.findOk
    requires before.getOk && before.putOk
    ensures Runs(pacing, Start(before.now), steps)
    ensures var s := Exec(pacing, Start(before.now), steps);
            && s.rows == map[finalized.id := original] && s.puts == [PutRecord(0, original)]
            && s.clock == before.now && Filed(s.rows)
    ensures FinalizedThenVoided(cfg, inv, map[], finalized, before, original, map[finalized.id := original],
                                voided, after, outcome)
  {
    original, outcome := VoidFollows(cfg, inv, finalized, before, voided, after);
    steps := FirstDelivery(cfg, pacing, finalized, before, original);
  }

  /** Any invoice that maps at creation can be finalized and then voided in one run. */
  lemma VoidRunFollows(cfg: Config, inv: Invoice, pacing: Pacing, finalized: Event, before: World, voided: Event, after: World)
    returns (steps: seq<Step>, more: seq<Step>)
    requires finalized.eventType == "invoice.finalized" && before.invoice == Some(inv)
    requires FirstRate(cfg, finalized, inv, before).Ok?
    requires Refusal(inv, CreateOptions(cfg, FirstRate(cfg, finalized, inv, before).value)).None?
    requires Voids(voided.eventType) && after.invoice == Some(inv) && after.stornoAt > 0 && voided.id != finalized.id
    requires before.getOk && before.putOk && after.getOk && after.findOk && after.putOk && before.now == after.now
    ensures Runs(pacing, Start(before.now), steps)
    ensures var s := Exec(pacing, Start(before.now), steps);
            && Runs(pacing, s, more)
            && VoidedBetween(cfg, inv, s, Exec(pacing, s, more), Handling(finalized, map[], before), 0,
                             Handling(voided, s.rows, after), 1)
  {
    var original, outcome;
    steps, original, outcome := FinalizedRun(cfg, inv, pacing, finalized, before, voided, after);
    var s := Exec(pacing, Start(before.now), steps);
    more := VoidDelivered(pacing, s, cfg, inv, Handling(finalized, map[], before), original,
                          Handling(voided, s.rows, after), outcome);
  }
}
