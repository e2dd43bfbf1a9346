/**
 The bridge as a transition system: webhook deliveries that store rows, and any
 number of worker lifecycles, on any number of replicas, that claim, submit,
 poll, renew and release them. Every store call, every NAV answer and every
 passage of time is a separate step, so a lifecycle may act on a snapshot that
 is arbitrarily old, under a lease it has long lost.
 */
module Protocol {
  import opened Wrappers
  import opened Documents
  import opened Submissions
  import opened Mutators
  import opened StoreInMem
  import opened Verdicts

  // ---------- deliveries ----------

  datatype Event = Event(id: string, eventType: string, created: Time)

  const ELIGIBLE_EVENT_TYPES: map<string, Kind> := map[
    "invoice.finalized" := InvoiceKind,
    "invoice.voided" := InvoiceKind,
    "invoice.marked_uncollectible" := InvoiceKind,
    "credit_note.created" := CreditNoteKind,
    "credit_note.voided" := CreditNoteKind
  ]

  /** What processing an event up to its Put comes to. */
  datatype Outcome = Ready(row: Submission) | PermanentFailure | TransientFailure

  datatype Ack = Ignored | AlreadyStored | Unmappable | StoredNow

  datatype Stage =
    | Arrived
    | Absent
    | Prepared(row: Submission)
    | Acknowledged(ack: Ack)
    | Refused

  datatype Delivery = Delivery(event: Event, stage: Stage)

  /** The HTTP status a finished delivery was answered with. */
  function Answer(stage: Stage): Option<int> {
    match stage
    case Acknowledged(_) => Some(200)
    case Refused => Some(503)
    case _ => None
  }

  /** The shape of a row the handler puts: fresh, pending, and with a parent that is already stored. */
  predicate FreshRow(rows: Rows, now: Time, event: Event, row: Submission) {
    && row.eventId == event.id
    && event.eventType in ELIGIBLE_EVENT_TYPES && row.kind == ELIGIBLE_EVENT_TYPES[event.eventType]
    && row.status == Pending
    && row.attempts == 0
    && row.lastError == ""
    && row.transactionId == ""
    && row.nextAttemptAt == row.createdAt == row.updatedAt <= now
    && row.issuedAt == event.created
    && row.claimedBy == "" && row.claimedUntil == ZERO_TIME
    && (row.parentEventId == "" || row.parentEventId in rows)
  }

  // ---------- worker lifecycles ----------

  datatype Phase =
    | Deciding(snap: Submission)
    | Cleared(snap: Submission)
    | Recording(snap: Submission, command: Command, leave: bool)
    | Recorded
    | Leaving
    | Gone

  /** One runLifecycle goroutine; leaseEnd is what it was promised when it claimed or last renewed. */
  datatype Lifecycle = Lifecycle(eventId: string, claimer: string, leaseEnd: Time, phase: Phase)

  predicate Active(phase: Phase) {
    phase != Leaving && phase != Gone
  }

  // ---------- NAV ----------

  /** One submit call; the answer is the transaction id, or None when the worker saw an error. */
  datatype Attempt = Attempt(eventId: string, operation: string, payload: Payload, answer: Option<string>)

  /** One poll NAV answered. */
  datatype PollAnswer = PollAnswer(transactionId: string, statuses: seq<string>)

  datatype SubmitOutcome =
    | SubmitAccepted(transactionId: string)
    | SubmitError(cause: string, retriable: bool, jitter: JitterDraw)

  datatype PollOutcome =
    | PollResults(statuses: seq<string>, detail: string)
    | PollError(cause: string, retriable: bool, jitter: JitterDraw)

  /** deriveForRetry: the operation and payload sent for a row, or None when its payload is not a NAV document. */
  function Derive(row: Submission): Option<(string, Payload)> {
    if !row.rawEvent.InvoicePayload? && !row.rawEvent.AnnulmentPayload? then None
    else if row.kind == AnnulmentKind then Some(("", row.rawEvent))
    else Some((if row.operation == "" then "CREATE" else row.operation, row.rawEvent))
  }

  // ---------- states and steps ----------

  /** puts records which delivery stored which row, in order. */
  datatype PutRecord = PutRecord(delivery: nat, row: Submission)

  datatype State = State(
    clock: Time,
    rows: Rows,
    lifecycles: seq<Lifecycle>,
    deliveries: seq<Delivery>,
    puts: seq<PutRecord>,
    attempts: seq<Attempt>,
    polls: seq<PollAnswer>)

  function Start(clock: Time): State {
    State(clock, map[], [], [], [], [], [])
  }

  datatype Step =
    | Tick(to: Time)
    | Arrive(event: Event)
    | Lookup(d: nat, ok: bool)
    | Prepare(d: nat, outcome: Outcome)
    | Persist(d: nat, ok: bool)
    | Claim(eventId: string, claimer: string, at: Time)
    | CheckParent(l: nat, ok: bool)
    | DeriveFails(l: nat, cause: string, jitter: JitterDraw)
    | Submit(l: nat, submitted: SubmitOutcome)
    | MissingId(l: nat, jitter: JitterDraw)
    | Poll(l: nat, polled: PollOutcome)
    | Record(l: nat)
    | LoseUpdate(l: nat)
    | Reread(l: nat)
    | Renew(l: nat, at: Time)
    | Abandon(l: nat)
    | Release(l: nat)
    | Crash(l: nat)

  predicate DeliveryAt(s: State, d: nat, stage: Stage) {
    d < |s.deliveries| && s.deliveries[d].stage == stage
  }

  predicate Running(s: State, l: nat) {
    l < |s.lifecycles| && s.lifecycles[l].eventId in s.rows
  }

  predicate Enabled(pacing: Pacing, s: State, step: Step) {
    match step
    case Tick(to) => to >= s.clock
    case Arrive(_) => true
    case Lookup(d, _) => DeliveryAt(s, d, Arrived)
    case Prepare(d, outcome) =>
      DeliveryAt(s, d, Absent) &&
      (outcome.Ready? ==> FreshRow(s.rows, s.clock, s.deliveries[d].event, outcome.row))
    case Persist(d, _) => d < |s.deliveries| && s.deliveries[d].stage.Prepared?
    case Claim(id, claimer, at) => id in s.rows && claimer != "" && at <= s.clock && Eligible(s.rows[id], at)
    case CheckParent(l, _) =>
      Running(s, l) && s.lifecycles[l].phase.Deciding? && s.lifecycles[l].phase.snap.status == Pending
    case DeriveFails(l, _, _) =>
      Running(s, l) && s.lifecycles[l].phase.Cleared? && Derive(s.lifecycles[l].phase.snap).None?
    case Submit(l, _) =>
      Running(s, l) && s.lifecycles[l].phase.Cleared? && Derive(s.lifecycles[l].phase.snap).Some?
    case MissingId(l, _) =>
      Running(s, l) && InFlight(s.lifecycles[l].phase) && s.lifecycles[l].phase.snap.transactionId == ""
    case Poll(l, _) =>
      Running(s, l) && InFlight(s.lifecycles[l].phase) && s.lifecycles[l].phase.snap.transactionId != ""
    case Record(l) => Running(s, l) && s.lifecycles[l].phase.Recording?
    case LoseUpdate(l) => Running(s, l) && s.lifecycles[l].phase.Recording?
    case Reread(l) => Running(s, l) && s.lifecycles[l].phase.Recorded?
    case Renew(l, at) => Running(s, l) && s.lifecycles[l].phase != Gone && at <= s.clock
    case Abandon(l) => Running(s, l) && Active(s.lifecycles[l].phase)
    case Release(l) => Running(s, l) && s.lifecycles[l].phase.Leaving?
    case Crash(l) => Running(s, l)
  }

  predicate InFlight(phase: Phase) {
    phase.Deciding? && (phase.snap.status == Submitted || phase.snap.status == Processing)
  }

  /** parentReady: go ahead, or the command that makes the child wait or abort. */
  function ParentVerdict(rows: Rows, child: Submission, ok: bool): Option<Command> {
    if child.parentEventId == "" then None
    else if !ok || child.parentEventId !in rows then Some(ParentWait)
    else
      var parent := rows[child.parentEventId];
      match parent.status
      case Accepted => None
      case Rejected => Some(ParentAbort(parent.eventId, parent.lastError))
      case Aborted => Some(ParentAbort(parent.eventId, parent.lastError))
      case _ => Some(ParentWait)
  }

  function PollCommand(polled: PollOutcome): Command {
    match polled
    case PollError(cause, retriable, jitter) => PollFail(cause, retriable, jitter)
    case PollResults(statuses, detail) =>
      if Overall(statuses) == "ABORTED" then PollAborted(detail)
      else if Final(Overall(statuses)) then PollFinished
      else PollPending
  }

  function SubmitCommand(submitted: SubmitOutcome): Command {
    match submitted
    case SubmitAccepted(transactionId) => SubmitOk(transactionId)
    case SubmitError(cause, retriable, jitter) => SubmitFail(cause, retriable, jitter)
  }

  /** UpdateStatus on the stored rows: the command's result, or nothing at all when it is refused. */
  function Updated(pacing: Pacing, rows: Rows, id: string, command: Command, now: Time): Rows
    requires id in rows
  {
    var after := Mutated(pacing, command, rows[id], now);
    if after.None? then rows else rows[id := after.value.(updatedAt := now)]
  }

  /** The loop's decision after re-reading its row: stop at an end state or a long wait, else go round again. */
  function AfterReread(pacing: Pacing, current: Submission, now: Time): Phase {
    if Terminal(current.status) || current.nextAttemptAt > now + pacing.pollInterval then Leaving
    else Deciding(current)
  }

  function SetPhase(s: State, l: nat, phase: Phase): State
    requires l < |s.lifecycles|
  {
    s.(lifecycles := s.lifecycles[l := s.lifecycles[l].(phase := phase)])
  }

  function SetStage(s: State, d: nat, stage: Stage): State
    requires d < |s.deliveries|
  {
    s.(deliveries := s.deliveries[d := s.deliveries[d].(stage := stage)])
  }

  function Do(pacing: Pacing, s: State, step: Step): State
    requires Enabled(pacing, s, step)
  {
    match step
    case Tick(to) => s.(clock := to)
    case Arrive(event) => s.(deliveries := s.deliveries + [Delivery(event, Arrived)])
    case Lookup(d, ok) =>
      var event := s.deliveries[d].event;
      SetStage(s, d,
               if event.eventType !in ELIGIBLE_EVENT_TYPES then Acknowledged(Ignored)
               else if !ok then Refused
               else if event.id in s.rows then Acknowledged(AlreadyStored)
               else Absent)
    case Prepare(d, outcome) =>
      SetStage(s, d,
               match outcome
               case Ready(row) => Prepared(row)
               case PermanentFailure => Acknowledged(Unmappable)
               case TransientFailure => Refused)
    case Persist(d, ok) =>
      var row := s.deliveries[d].stage.row;
      if !ok then SetStage(s, d, Refused)
      else if row.eventId in s.rows then SetStage(s, d, Acknowledged(AlreadyStored))
      else SetStage(s, d, Acknowledged(StoredNow)).(rows := s.rows[row.eventId := row],
                                                    puts := s.puts + [PutRecord(d, row)])
    case Claim(id, claimer, at) =>
      var row := Stamped(s.rows[id], claimer, at + pacing.leaseDuration, at);
      s.(rows := s.rows[id := row],
         lifecycles := s.lifecycles + [Lifecycle(id, claimer, at + pacing.leaseDuration, Deciding(row))])
    case CheckParent(l, ok) =>
      var snap := s.lifecycles[l].phase.snap;
      var verdict := ParentVerdict(s.rows, snap, ok);
      SetPhase(s, l, if verdict.None? then Cleared(snap) else Recording(snap, verdict.value, true))
    case DeriveFails(l, cause, jitter) =>
      SetPhase(s, l, Recording(s.lifecycles[l].phase.snap, SubmitFail(cause, false, jitter), false))
    case Submit(l, submitted) =>
      var snap := s.lifecycles[l].phase.snap;
      var sent := Derive(snap).value;
      var answer := if submitted.SubmitAccepted? then Some(submitted.transactionId) else None;
      SetPhase(s, l, Recording(snap, SubmitCommand(submitted), false))
      .(attempts := s.attempts + [Attempt(snap.eventId, sent.0, sent.1, answer)])
    case MissingId(l, jitter) =>
      SetPhase(s, l, Recording(s.lifecycles[l].phase.snap,
                               PollFail("submitted submission missing transactionId", false, jitter), false))
    case Poll(l, polled) =>
      var snap := s.lifecycles[l].phase.snap;
      SetPhase(s, l, Recording(snap, PollCommand(polled), false))
      .(polls := if polled.PollResults? then s.polls + [PollAnswer(snap.transactionId, polled.statuses)] else s.polls)
    case Record(l) =>
      var life := s.lifecycles[l];
      SetPhase(s, l, if life.phase.leave then Leaving else Recorded)
      .(rows := Updated(pacing, s.rows, life.eventId, life.phase.command, s.clock))
    case LoseUpdate(l) =>
      SetPhase(s, l, if s.lifecycles[l].phase.leave then Leaving else Recorded)
    case Reread(l) =>
      SetPhase(s, l, AfterReread(pacing, s.rows[s.lifecycles[l].eventId], s.clock))
    case Renew(l, at) =>
      var life := s.lifecycles[l];
      var row := s.rows[life.eventId];
      var until := at + pacing.leaseDuration;
      if row.claimedBy != life.claimer then s
      else s.(rows := s.rows[life.eventId := Stamped(row, life.claimer, until, at)],
              lifecycles := s.lifecycles[l := life.(leaseEnd := until)])
    case Abandon(l) => SetPhase(s, l, Leaving)
    case Release(l) =>
      var life := s.lifecycles[l];
      var row := s.rows[life.eventId];
      var t := SetPhase(s, l, Gone);
      if row.claimedBy != life.claimer then t
      else t.(rows := s.rows[life.eventId := Released(row, s.clock)])
    case Crash(l) => SetPhase(s, l, Gone)
  }

  /** The state after a run of steps, each taken when it is enabled. */
  ghost predicate Runs(pacing: Pacing, s: State, steps: seq<Step>)
    decreases |steps|
  {
    steps == [] ||
    (Enabled(pacing, s, steps[0]) && Runs(pacing, Do(pacing, s, steps[0]), steps[1..]))
  }

  ghost function Exec(pacing: Pacing, s: State, steps: seq<Step>): State
    requires Runs(pacing, s, steps)
    decreases |steps|
  {
    if steps == [] then s else Exec(pacing, Do(pacing, s, steps[0]), steps[1..])
  }

  /** A run split in two. */
  lemma {:induction false} RunSplits(pacing: Pacing, s: State, a: seq<Step>, b: seq<Step>)
    requires Runs(pacing, s, a + b)
    ensures Runs(pacing, s, a)
    ensures Runs(pacing, Exec(pacing, s, a), b)
    ensures Exec(pacing, s, a + b) == Exec(pacing, Exec(pacing, s, a), b)
    decreases |a|
  {
    if a == [] {
      assert a + b == b;
    } else {
      assert (a + b)[1..] == a[1..] + b;
      RunSplits(pacing, Do(pacing, s, a[0]), a[1..], b);
    }
  }

  /** A run extended by one step. */
  lemma {:induction false} RunSnoc(pacing: Pacing, s: State, steps: seq<Step>, step: Step)
    requires Runs(pacing, s, steps) && Enabled(pacing, Exec(pacing, s, steps), step)
    ensures Runs(pacing, s, steps + [step])
    ensures Exec(pacing, s, steps + [step]) == Do(pacing, Exec(pacing, s, steps), step)
    decreases |steps|
  {
    if steps == [] {
      assert [] + [step] == [step];
      assert [step][1..] == [];
    } else {
      assert (steps + [step])[1..] == steps[1..] + [step];
      RunSnoc(pacing, Do(pacing, s, steps[0]), steps[1..], step);
    }
  }

  /** A run of one step. */
  lemma OneStep(pacing: Pacing, s: State, step: Step)
    requires Enabled(pacing, s, step)
    ensures Runs(pacing, s, [step]) && Exec(pacing, s, [step]) == Do(pacing, s, step)
  {
    RunSnoc(pacing, s, [], step);
    assert [] + [step] == [step];
  }

  /** Two runs joined. */
  lemma {:induction false} RunJoins(pacing: Pacing, s: State, a: seq<Step>, b: seq<Step>)
    requires Runs(pacing, s, a) && Runs(pacing, Exec(pacing, s, a), b)
    ensures Runs(pacing, s, a + b)
    ensures Exec(pacing, s, a + b) == Exec(pacing, Exec(pacing, s, a), b)
    decreases |a|
  {
    if a == [] {
      assert a + b == b;
    } else {
      assert (a + b)[1..] == a[1..] + b;
      RunJoins(pacing, Do(pacing, s, a[0]), a[1..], b);
    }
  }
}
