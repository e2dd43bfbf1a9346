/**
 What every interleaving keeps, with no assumption on leases: lifecycles may act
 on stale snapshots, lose updates, crash, and race with any other replica.
 */
module Safety {
  import opened Wrappers
  import opened Submissions
  import opened Mutators
  import opened StoreInMem
  import opened Verdicts
  import opened Protocol

  // ---------- what only grows ----------

  ghost predicate RowsEvolve(a: Rows, b: Rows) {
    forall id :: id in a ==> id in b && Evolves(a[id], b[id])
  }

  /** Rows only evolve, and the clock and the NAV logs only move forward. */
  ghost predicate Grows(a: State, b: State) {
    && a.clock <= b.clock
    && RowsEvolve(a.rows, b.rows)
    && a.attempts <= b.attempts
    && a.polls <= b.polls
    && a.puts <= b.puts
  }

  lemma UpdatedEvolves(pacing: Pacing, rows: Rows, id: string, command: Command, now: Time)
    requires id in rows
    ensures RowsEvolve(rows, Updated(pacing, rows, id, command, now))
  {
    if Mutated(pacing, command, rows[id], now).Some? {
      CommandEvolves(pacing, command, rows[id], now);
    }
  }

  lemma StepKeepsRows(pacing: Pacing, s: State, step: Step)
    requires Enabled(pacing, s, step)
    ensures RowsEvolve(s.rows, Do(pacing, s, step).rows)
  {
    if step.Record? {
      var life := s.lifecycles[step.l];
      UpdatedEvolves(pacing, s.rows, life.eventId, life.phase.command, s.clock);
    }
  }

  lemma StepKeepsLogs(pacing: Pacing, s: State, step: Step)
    requires Enabled(pacing, s, step)
    ensures var t := Do(pacing, s, step);
            s.clock <= t.clock && s.attempts <= t.attempts && s.polls <= t.polls && s.puts <= t.puts
  {
  }

  lemma StepGrows(pacing: Pacing, s: State, step: Step)
    requires Enabled(pacing, s, step)
    ensures Grows(s, Do(pacing, s, step))
  {
    StepKeepsRows(pacing, s, step);
    StepKeepsLogs(pacing, s, step);
  }

  lemma GrowsTransitive(a: State, b: State, c: State)
    requires Grows(a, b) && Grows(b, c)
    ensures Grows(a, c)
  {
    forall id | id in a.rows
      ensures id in c.rows && Evolves(a.rows[id], c.rows[id])
    {
      EvolvesTransitive(a.rows[id], b.rows[id], c.rows[id]);
    }
  }

  /**
   Over any run from any state: no stored row is lost, its rank never falls, its
   end state is final, and once it has left pending its transaction id is fixed.
   */
  lemma {:induction false} RunGrows(pacing: Pacing, s: State, steps: seq<Step>)
    requires Runs(pacing, s, steps)
    ensures Grows(s, Exec(pacing, s, steps))
    decreases |steps|
  {
    if steps != [] {
      StepGrows(pacing, s, steps[0]);
      RunGrows(pacing, Do(pacing, s, steps[0]), steps[1..]);
      GrowsTransitive(s, Do(pacing, s, steps[0]), Exec(pacing, s, steps));
    }
  }

  // ---------- the invariant ----------

  ghost predicate ParentIs(rows: Rows, child: Submission, accepted: bool) {
    child.parentEventId in rows &&
    var status := rows[child.parentEventId].status;
    if accepted then status == Accepted else status == Rejected || status == Aborted
  }

  /** A child may be sent once its parent, if it has one, has been accepted. */
  ghost predicate MaySend(rows: Rows, child: Submission) {
    child.parentEventId == "" || ParentIs(rows, child, true)
  }

  ghost predicate ParentFailed(rows: Rows, child: Submission) {
    child.parentEventId != "" && ParentIs(rows, child, false)
  }

  /** NAV answered a poll of exactly this id with at least one operation, all of them final. */
  ghost predicate Confirmed(polls: seq<PollAnswer>, transactionId: string) {
    transactionId != "" &&
    exists k :: 0 <= k < |polls| && polls[k].transactionId == transactionId && Final(Overall(polls[k].statuses))
  }

  ghost predicate Attempted(attempts: seq<Attempt>, id: string, transactionId: string) {
    exists k :: 0 <= k < |attempts| && attempts[k].eventId == id && attempts[k].answer == Some(transactionId)
  }

  /** The row has reached NAV: it is in flight, accepted, or carries a transaction id. */
  predicate Sent(row: Submission) {
    row.status == Submitted || row.status == Processing || row.status == Accepted || row.transactionId != ""
  }

  ghost predicate RowOk(s: State, row: Submission) {
    && (row.parentEventId != "" ==> row.parentEventId in s.rows)
    && (row.status == Pending ==> row.transactionId == "")
    && (Sent(row) ==> MaySend(s.rows, row) && Attempted(s.attempts, row.eventId, row.transactionId))
    && (row.status == Accepted ==> Confirmed(s.polls, row.transactionId))
    && (row.status == Aborted ==> ParentFailed(s.rows, row) && row.transactionId == "")
  }

  /** A command a lifecycle is about to record is backed by what it saw and by what NAV told it. */
  ghost predicate CommandOk(s: State, snap: Submission, command: Command) {
    match command
    case SubmitOk(transactionId) =>
      MaySend(s.rows, snap) && Attempted(s.attempts, snap.eventId, transactionId)
    case SubmitFail(_, _, _) => true
    case PollFinished => snap.status != Pending && Confirmed(s.polls, snap.transactionId)
    case ParentAbort(_, _) => ParentFailed(s.rows, snap)
    case _ => true
  }

  ghost predicate PhaseOk(s: State, id: string, phase: Phase)
    requires id in s.rows
  {
    match phase
    case Deciding(snap) => Evolves(snap, s.rows[id])
    case Cleared(snap) => Evolves(snap, s.rows[id]) && snap.status == Pending && MaySend(s.rows, snap)
    case Recording(snap, command, _) => Evolves(snap, s.rows[id]) && CommandOk(s, snap, command)
    case _ => true
  }

  ghost predicate AttemptOk(s: State, attempt: Attempt) {
    && attempt.eventId in s.rows
    && MaySend(s.rows, s.rows[attempt.eventId])
    && Derive(s.rows[attempt.eventId]) == Some((attempt.operation, attempt.payload))
  }

  ghost predicate Consistent(s: State) {
    && Filed(s.rows)
    && (forall id :: id in s.rows ==> RowOk(s, s.rows[id]))
    && (forall l :: 0 <= l < |s.lifecycles| ==>
          s.lifecycles[l].eventId in s.rows && PhaseOk(s, s.lifecycles[l].eventId, s.lifecycles[l].phase))
    && (forall k :: 0 <= k < |s.attempts| ==> AttemptOk(s, s.attempts[k]))
    && (forall d :: 0 <= d < |s.deliveries| && s.deliveries[d].stage.Prepared? ==>
          FreshRow(s.rows, s.clock, s.deliveries[d].event, s.deliveries[d].stage.row))
  }

  // ---------- everything already established survives growth ----------

  lemma EvidenceSurvives(a: State, b: State, row: Submission)
    requires Grows(a, b)
    ensures MaySend(a.rows, row) ==> MaySend(b.rows, row)
    ensures ParentFailed(a.rows, row) ==> ParentFailed(b.rows, row)
  {
    if row.parentEventId in a.rows {
      assert Evolves(a.rows[row.parentEventId], b.rows[row.parentEventId]);
    }
  }

  lemma LogsSurvive(a: State, b: State, id: string, transactionId: string)
    requires Grows(a, b)
    ensures Confirmed(a.polls, transactionId) ==> Confirmed(b.polls, transactionId)
    ensures Attempted(a.attempts, id, transactionId) ==> Attempted(b.attempts, id, transactionId)
  {
    if Confirmed(a.polls, transactionId) {
      var k :| 0 <= k < |a.polls| && a.polls[k].transactionId == transactionId && Final(Overall(a.polls[k].statuses));
      assert b.polls[k] == a.polls[k];
    }
    if Attempted(a.attempts, id, transactionId) {
      var k :| 0 <= k < |a.attempts| && a.attempts[k].eventId == id && a.attempts[k].answer == Some(transactionId);
      assert b.attempts[k] == a.attempts[k];
    }
  }

  lemma RowSurvives(a: State, b: State, row: Submission)
    requires Grows(a, b) && RowOk(a, row)
    ensures RowOk(b, row)
  {
    EvidenceSurvives(a, b, row);
    LogsSurvive(a, b, row.eventId, row.transactionId);
  }

  lemma PhaseSurvives(a: State, b: State, id: string, phase: Phase)
    requires Grows(a, b) && id in a.rows && PhaseOk(a, id, phase)
    ensures PhaseOk(b, id, phase)
  {
    if phase.Deciding? || phase.Cleared? || phase.Recording? {
      EvolvesTransitive(phase.snap, a.rows[id], b.rows[id]);
      EvidenceSurvives(a, b, phase.snap);
      LogsSurvive(a, b, phase.snap.eventId, phase.snap.transactionId);
      if phase.Recording? && phase.command.SubmitOk? {
        LogsSurvive(a, b, phase.snap.eventId, phase.command.transactionId);
      }
    }
  }

  lemma AttemptSurvives(a: State, b: State, attempt: Attempt)
    requires Grows(a, b) && AttemptOk(a, attempt)
    ensures AttemptOk(b, attempt)
  {
    EvidenceSurvives(a, b, a.rows[attempt.eventId]);
    assert Evolves(a.rows[attempt.eventId], b.rows[attempt.eventId]);
  }

  // ---------- the one step that can change a status ----------

  /** Recording a backed command, however stale, leaves the row with everything it must have. */
  lemma RecordKeepsRow(pacing: Pacing, s: State, id: string, snap: Submission, command: Command)
    requires id in s.rows && RowOk(s, s.rows[id])
    requires Evolves(snap, s.rows[id]) && CommandOk(s, snap, command)
    requires Mutated(pacing, command, s.rows[id], s.clock).Some?
    ensures RowOk(s, Mutated(pacing, command, s.rows[id], s.clock).value.(updatedAt := s.clock))
  {
    var row := s.rows[id];
    match command
    case ParentAbort(_, _) =>
      // A row that was already sent has an accepted parent, which cannot also have failed.
      assert !Sent(row);
    case _ =>
  }

  /** Where a lifecycle can go in one step, whether or not it is the one that moves. */
  lemma PhaseChange(pacing: Pacing, s: State, step: Step, l: nat)
    requires Enabled(pacing, s, step) && l < |Do(pacing, s, step).lifecycles|
    ensures var t := Do(pacing, s, step);
            var life := t.lifecycles[l];
            if l >= |s.lifecycles| then
              life.eventId in t.rows && life.phase == Deciding(t.rows[life.eventId])
            else
              var was := s.lifecycles[l];
              && life.eventId == was.eventId
              && match life.phase
                 case Deciding(snap) => life.phase == was.phase || (was.eventId in s.rows && snap == s.rows[was.eventId])
                 case Cleared(snap) => life.phase == was.phase ||
                                         (was.phase == Deciding(snap) && snap.status == Pending && MaySend(s.rows, snap))
                 case Recording(snap, command, _) =>
                   life.phase == was.phase || was.phase == Deciding(snap) || was.phase == Cleared(snap)
                 case _ => true
  {
  }

  /** A command is decided only on evidence the deciding step itself has just gathered. */
  lemma DecidedOk(pacing: Pacing, s: State, step: Step, l: nat)
    requires Enabled(pacing, s, step) && l < |s.lifecycles|
    requires Do(pacing, s, step).lifecycles[l].phase.Recording?
    requires !s.lifecycles[l].phase.Recording?
    requires s.lifecycles[l].phase.Cleared? ==> MaySend(s.rows, s.lifecycles[l].phase.snap)
    ensures var t := Do(pacing, s, step);
            CommandOk(t, t.lifecycles[l].phase.snap, t.lifecycles[l].phase.command)
  {
    var t := Do(pacing, s, step);
    match step
    case Submit(_, submitted) =>
      assert t.attempts[|s.attempts|].eventId == s.lifecycles[l].phase.snap.eventId;
    case Poll(_, polled) =>
      if polled.PollResults? {
        assert t.polls[|s.polls|] == PollAnswer(s.lifecycles[l].phase.snap.transactionId, polled.statuses);
      }
    case _ =>
  }

  lemma LifecyclesOk(pacing: Pacing, s: State, step: Step, l: nat)
    requires Consistent(s) && Enabled(pacing, s, step)
    requires l < |Do(pacing, s, step).lifecycles|
    ensures var t := Do(pacing, s, step);
            t.lifecycles[l].eventId in t.rows && PhaseOk(t, t.lifecycles[l].eventId, t.lifecycles[l].phase)
  {
    var t := Do(pacing, s, step);
    StepGrows(pacing, s, step);
    PhaseChange(pacing, s, step, l);
    if l < |s.lifecycles| {
      var was := s.lifecycles[l];
      assert PhaseOk(s, was.eventId, was.phase);
      PhaseSurvives(s, t, was.eventId, was.phase);
      if t.lifecycles[l].phase.Recording? && !was.phase.Recording? {
        DecidedOk(pacing, s, step, l);
      }
      if t.lifecycles[l].phase.Cleared? {
        EvidenceSurvives(s, t, t.lifecycles[l].phase.snap);
      }
    }
  }

  /** Which steps touch a stored row, and how. */
  lemma RowChange(pacing: Pacing, s: State, step: Step, id: string)
    requires Enabled(pacing, s, step) && id in Do(pacing, s, step).rows
    ensures var t := Do(pacing, s, step);
            if id !in s.rows then
              step.Persist? && t.rows[id] == s.deliveries[step.d].stage.row && t.rows[id].eventId == id
            else if t.rows[id] == s.rows[id] then true
            else if step.Record? then
              && s.lifecycles[step.l].eventId == id
              && var command := s.lifecycles[step.l].phase.command;
                 && Mutated(pacing, command, s.rows[id], s.clock).Some?
                 && t.rows[id] == Mutated(pacing, command, s.rows[id], s.clock).value.(updatedAt := s.clock)
            else
              t.rows[id] == s.rows[id].(claimedBy := t.rows[id].claimedBy, claimedUntil := t.rows[id].claimedUntil,
                                        updatedAt := t.rows[id].updatedAt)
  {
  }

  lemma NewRowOk(pacing: Pacing, s: State, step: Step, id: string)
    requires Consistent(s) && Enabled(pacing, s, step)
    requires id in Do(pacing, s, step).rows
    ensures RowOk(Do(pacing, s, step), Do(pacing, s, step).rows[id])
    ensures Do(pacing, s, step).rows[id].eventId == id
  {
    var t := Do(pacing, s, step);
    NewRowBacked(pacing, s, step, id);
    StepGrows(pacing, s, step);
    RowSurvives(s, t, t.rows[id]);
  }

  /** A changed row has everything it must have on the evidence from before the step. */
  lemma NewRowBacked(pacing: Pacing, s: State, step: Step, id: string)
    requires Consistent(s) && Enabled(pacing, s, step)
    requires id in Do(pacing, s, step).rows
    ensures RowOk(s, Do(pacing, s, step).rows[id])
    ensures Do(pacing, s, step).rows[id].eventId == id
  {
    RowChange(pacing, s, step, id);
    if id in s.rows && step.Record? && Do(pacing, s, step).rows[id] != s.rows[id] {
      var phase := s.lifecycles[step.l].phase;
      assert PhaseOk(s, id, phase);
      RecordKeepsRow(pacing, s, id, phase.snap, phase.command);
      CommandEvolves(pacing, phase.command, s.rows[id], s.clock);
    }
  }

  /** An attempt is logged by a submit, with what is derived from the submitter's snapshot. */
  lemma AttemptChange(pacing: Pacing, s: State, step: Step, k: nat)
    requires Enabled(pacing, s, step) && k < |Do(pacing, s, step).attempts|
    ensures var t := Do(pacing, s, step);
            if k < |s.attempts| then t.attempts[k] == s.attempts[k]
            else
              && step.Submit? && t.rows == s.rows
              && var snap := s.lifecycles[step.l].phase.snap;
                 && s.lifecycles[step.l].phase == Cleared(snap)
                 && t.attempts[k].eventId == snap.eventId
                 && Derive(snap) == Some((t.attempts[k].operation, t.attempts[k].payload))
  {
  }

  lemma NewAttemptOk(rows: Rows, snap: Submission, current: Submission)
    requires Evolves(snap, current) && MaySend(rows, snap)
    ensures current.eventId == snap.eventId && MaySend(rows, current) && Derive(current) == Derive(snap)
  {
  }

  lemma AttemptsOk(pacing: Pacing, s: State, step: Step, k: nat)
    requires Consistent(s) && Enabled(pacing, s, step)
    requires k < |Do(pacing, s, step).attempts|
    ensures AttemptOk(Do(pacing, s, step), Do(pacing, s, step).attempts[k])
  {
    AttemptChange(pacing, s, step, k);
    if k < |s.attempts| {
      StepGrows(pacing, s, step);
      AttemptSurvives(s, Do(pacing, s, step), s.attempts[k]);
    } else {
      var life := s.lifecycles[step.l];
      assert PhaseOk(s, life.eventId, life.phase);
      NewAttemptOk(s.rows, life.phase.snap, s.rows[life.eventId]);
    }
  }

  /** A row is prepared by one step, fresh at that moment. */
  lemma PreparedChange(pacing: Pacing, s: State, step: Step, d: nat)
    requires Enabled(pacing, s, step)
    requires d < |Do(pacing, s, step).deliveries| && Do(pacing, s, step).deliveries[d].stage.Prepared?
    ensures var now := Do(pacing, s, step).deliveries[d];
            && d < |s.deliveries| && now.event == s.deliveries[d].event
            && (now.stage == s.deliveries[d].stage || FreshRow(s.rows, s.clock, now.event, now.stage.row))
  {
  }

  lemma FreshSurvives(a: State, b: State, event: Event, row: Submission)
    requires Grows(a, b) && FreshRow(a.rows, a.clock, event, row)
    ensures FreshRow(b.rows, b.clock, event, row)
  {
  }

  lemma PreparedOk(pacing: Pacing, s: State, step: Step, d: nat)
    requires Consistent(s) && Enabled(pacing, s, step)
    requires d < |Do(pacing, s, step).deliveries| && Do(pacing, s, step).deliveries[d].stage.Prepared?
    ensures var t := Do(pacing, s, step);
            FreshRow(t.rows, t.clock, t.deliveries[d].event, t.deliveries[d].stage.row)
  {
    var t := Do(pacing, s, step);
    PreparedChange(pacing, s, step, d);
    StepGrows(pacing, s, step);
    FreshSurvives(s, t, t.deliveries[d].event, t.deliveries[d].stage.row);
  }

  lemma StepKeepsConsistent(pacing: Pacing, s: State, step: Step)
    requires Consistent(s) && Enabled(pacing, s, step)
    ensures Consistent(Do(pacing, s, step))
  {
    var t := Do(pacing, s, step);
    forall id | id in t.rows
      ensures RowOk(t, t.rows[id]) && t.rows[id].eventId == id
    {
      NewRowOk(pacing, s, step, id);
    }
    forall l | 0 <= l < |t.lifecycles|
      ensures t.lifecycles[l].eventId in t.rows && PhaseOk(t, t.lifecycles[l].eventId, t.lifecycles[l].phase)
    {
      LifecyclesOk(pacing, s, step, l);
    }
    forall k | 0 <= k < |t.attempts|
      ensures AttemptOk(t, t.attempts[k])
    {
      AttemptsOk(pacing, s, step, k);
    }
    forall d | 0 <= d < |t.deliveries| && t.deliveries[d].stage.Prepared?
      ensures FreshRow(t.rows, t.clock, t.deliveries[d].event, t.deliveries[d].stage.row)
    {
      PreparedOk(pacing, s, step, d);
    }
  }

  lemma {:induction false} RunKeepsConsistent(pacing: Pacing, s: State, steps: seq<Step>)
    requires Consistent(s) && Runs(pacing, s, steps)
    ensures Consistent(Exec(pacing, s, steps))
    decreases |steps|
  {
    if steps != [] {
      StepKeepsConsistent(pacing, s, steps[0]);
      RunKeepsConsistent(pacing, Do(pacing, s, steps[0]), steps[1..]);
    }
  }
}
