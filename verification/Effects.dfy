/**
 What one pass of a worker over its row does to that row, told in the row's own
 fields, the stored parent's status and NAV's answer. The row may have moved on since
 the snapshot was taken.
 */
module Effects {
  import opened Wrappers
  import opened Submissions
  import opened Mutators
  import opened Backoff
  import opened Verdicts
  import opened StoreInMem
  import opened Protocol
  import opened Worker

  // ---------- what a pass comes upon ----------

  predicate Open(status: Status) {
    status == Pending || status == Submitted || status == Processing
  }

  predicate AtNav(status: Status) {
    status == Submitted || status == Processing
  }

  /** No parent to wait for, or one that is stored and accepted. */
  predicate ParentDone(rows: Rows, sub: Submission, lookupOk: bool) {
    sub.parentEventId == "" ||
    (lookupOk && sub.parentEventId in rows && rows[sub.parentEventId].status == Accepted)
  }

  /** A stored parent that can never be accepted any more. */
  predicate ParentDead(rows: Rows, sub: Submission, lookupOk: bool) {
    && sub.parentEventId != "" && lookupOk && sub.parentEventId in rows
    && (rows[sub.parentEventId].status == Rejected || rows[sub.parentEventId].status == Aborted)
  }

  /** The stored payload is one of NAV's two documents. */
  predicate Sendable(sub: Submission) {
    sub.rawEvent.InvoicePayload? || sub.rawEvent.AnnulmentPayload?
  }

  predicate Sends(rows: Rows, sub: Submission, turn: Turn) {
    sub.status == Pending && ParentDone(rows, sub, turn.parentOk) && Sendable(sub)
  }

  predicate Asks(sub: Submission) {
    sub.status != Pending && sub.transactionId != ""
  }

  predicate AllDone(statuses: seq<string>) {
    |statuses| > 0 && forall i :: 0 <= i < |statuses| ==> statuses[i] == "FINISHED" || statuses[i] == "DONE"
  }

  predicate ToldAborted(sub: Submission, turn: Turn) {
    Asks(sub) && turn.polled.PollResults? && "ABORTED" in turn.polled.statuses
  }

  predicate ToldDone(sub: Submission, turn: Turn) {
    Asks(sub) && turn.polled.PollResults? && AllDone(turn.polled.statuses)
  }

  /** NAV has answered, without an ABORTED, that not everything is done. */
  predicate ToldToWait(sub: Submission, turn: Turn) {
    Asks(sub) && turn.polled.PollResults? && "ABORTED" !in turn.polled.statuses && !AllDone(turn.polled.statuses)
  }

  /** A failure that trying again cannot mend. */
  predicate FailsForGood(rows: Rows, sub: Submission, turn: Turn) {
    || (sub.status == Pending && ParentDone(rows, sub, turn.parentOk) && !Sendable(sub))
    || (Sends(rows, sub, turn) && turn.submitted.SubmitError? && !turn.submitted.retriable)
    || (sub.status != Pending && sub.transactionId == "")
    || (Asks(sub) && turn.polled.PollError? && !turn.polled.retriable)
  }

  predicate Answered(rows: Rows, sub: Submission, turn: Turn) {
    Sends(rows, sub, turn) && turn.submitted.SubmitAccepted?
  }

  predicate ChildOfDead(rows: Rows, sub: Submission, turn: Turn) {
    sub.status == Pending && ParentDead(rows, sub, turn.parentOk)
  }

  /** The row after the pass. */
  function RowAfter(pacing: Pacing, rows: Rows, sub: Submission, turn: Turn): Submission
    requires sub.eventId in rows
  {
    ActRows(pacing, rows, sub, turn)[sub.eventId]
  }

  // ---------- the decision ----------

  /** Go ahead, abort or wait: exactly by what is stored under the parent's id. */
  lemma ParentRule(rows: Rows, sub: Submission, lookupOk: bool)
    ensures ParentVerdict(rows, sub, lookupOk).None? <==> ParentDone(rows, sub, lookupOk)
    ensures (exists id, cause :: ParentVerdict(rows, sub, lookupOk) == Some(ParentAbort(id, cause))) <==>
            ParentDead(rows, sub, lookupOk)
    ensures ParentVerdict(rows, sub, lookupOk) == Some(ParentWait) <==>
            !ParentDone(rows, sub, lookupOk) && !ParentDead(rows, sub, lookupOk)
  {
    if ParentDead(rows, sub, lookupOk) {
      var parent := rows[sub.parentEventId];
      assert ParentVerdict(rows, sub, lookupOk) == Some(ParentAbort(parent.eventId, parent.lastError));
    }
  }

  lemma PollDecision(sub: Submission, turn: Turn)
    requires AtNav(sub.status)
    ensures ToldAborted(sub, turn) ==> PollTurn(sub, turn) == PollAborted(turn.polled.detail)
    ensures ToldDone(sub, turn) ==> PollTurn(sub, turn) == PollFinished
    ensures ToldToWait(sub, turn) ==> PollTurn(sub, turn) == PollPending
    ensures Asks(sub) && turn.polled.PollError? ==>
              PollTurn(sub, turn) == PollFail(turn.polled.cause, turn.polled.retriable, turn.polled.jitter)
    ensures !Asks(sub) ==> PollTurn(sub, turn) ==
                           PollFail("submitted submission missing transactionId", false, turn.jitter)
  {
    if turn.polled.PollResults? {
      FinalVerdict(turn.polled.statuses);
      AbortedVerdict(turn.polled.statuses);
      if AllDone(turn.polled.statuses) {
        assert "ABORTED" !in turn.polled.statuses;
      }
    }
  }

  lemma SubmitDecision(sub: Submission, turn: Turn)
    ensures !Sendable(sub) ==> SubmitTurn(sub, turn) == SubmitFail(turn.deriveError, false, turn.jitter)
    ensures Sendable(sub) && turn.submitted.SubmitError? ==>
              SubmitTurn(sub, turn) ==
              SubmitFail(turn.submitted.cause, turn.submitted.retriable, turn.submitted.jitter)
    ensures Sendable(sub) && turn.submitted.SubmitAccepted? ==> SubmitTurn(sub, turn) == SubmitOk(turn.submitted.transactionId)
  {
  }

  /** What UpdateStatus makes of the row: the command's result with a new update time, or no change at all. */
  lemma Written(pacing: Pacing, rows: Rows, sub: Submission, turn: Turn, command: Command)
    requires sub.eventId in rows && command == TurnCommand(rows, sub, turn)
    ensures var row, at := rows[sub.eventId], turn.recordedAt;
            RowAfter(pacing, rows, sub, turn) ==
            if turn.updateOk && Mutated(pacing, command, row, at).Some?
            then Mutated(pacing, command, row, at).value.(updatedAt := at)
            else row
  {
  }

  /** Nobody else's row is touched. */
  lemma OthersUntouched(pacing: Pacing, rows: Rows, sub: Submission, turn: Turn)
    requires sub.eventId in rows
    ensures ActRows(pacing, rows, sub, turn).Keys == rows.Keys
    ensures forall id :: id in rows && id != sub.eventId ==> ActRows(pacing, rows, sub, turn)[id] == rows[id]
  {
  }

  // ---------- the status, exactly ----------

  ghost predicate StatusLaw(row: Submission, after: Submission, gone: bool, dead: bool, done: bool, sent: bool, more: bool) {
    && (after.status == Rejected <==> row.status == Rejected || (Open(row.status) && gone))
    && (after.status == Aborted <==> row.status == Aborted || (Open(row.status) && dead))
    && (after.status == Accepted <==> row.status == Accepted || (AtNav(row.status) && done))
    && (after.status == Submitted <==> (row.status == Pending && sent) ||
                                       (row.status == Submitted && !gone && !dead && !done && !more))
    && (after.status == Processing <==> (AtNav(row.status) && more) ||
                                        (row.status == Processing && !gone && !dead && !done))
    && (after.status == Pending <==> row.status == Pending && !gone && !dead && !sent)
  }

  predicate Rejects(command: Command) {
    command.PollAborted? || (command.SubmitFail? && !command.retriable) || (command.PollFail? && !command.retriable)
  }

  lemma CommandStatusLaw(pacing: Pacing, command: Command, row: Submission, now: Time)
    ensures var result := Mutated(pacing, command, row, now);
            StatusLaw(row, if result.Some? then result.value else row, Rejects(command), command.ParentAbort?,
                      command.PollFinished?, command.SubmitOk?, command.PollPending?)
  {
    match command
    case _ =>
  }

  lemma PollFlags(rows: Rows, sub: Submission, turn: Turn)
    requires AtNav(sub.status)
    ensures var command := PollTurn(sub, turn);
            && (Rejects(command) <==> FailsForGood(rows, sub, turn) || ToldAborted(sub, turn))
            && (command.PollFinished? <==> ToldDone(sub, turn)) && (command.PollPending? <==> ToldToWait(sub, turn))
            && !command.ParentAbort? && !command.SubmitOk?
  {
    PollDecision(sub, turn);
    if Asks(sub) && turn.polled.PollResults? && AllDone(turn.polled.statuses) {
      assert "ABORTED" !in turn.polled.statuses;
    }
  }

  lemma SubmitFlags(rows: Rows, sub: Submission, turn: Turn)
    requires sub.status == Pending
    ensures var command := TurnCommand(rows, sub, turn);
            && (Rejects(command) <==> FailsForGood(rows, sub, turn))
            && (command.ParentAbort? <==> ChildOfDead(rows, sub, turn))
            && (command.SubmitOk? <==> Answered(rows, sub, turn))
            && !command.PollFinished? && !command.PollPending?
  {
    ParentRule(rows, sub, turn.parentOk);
    SubmitDecision(sub, turn);
  }

  /**
   The status after a pass, exactly. A row is rejected by an ABORTED answer or a failure
   that is not retriable and by nothing else; aborted by a dead parent only; accepted
   by an answer that is done in every operation only; kept in processing by any other
   answer. Everything else, a retriable failure, a wait or a lost update, leaves it.
   */
  lemma StatusAfterPass(pacing: Pacing, rows: Rows, sub: Submission, turn: Turn)
    requires sub.eventId in rows && Open(sub.status)
    ensures var heard := turn.updateOk;
            StatusLaw(rows[sub.eventId], RowAfter(pacing, rows, sub, turn),
                      heard && (FailsForGood(rows, sub, turn) || ToldAborted(sub, turn)),
                      heard && ChildOfDead(rows, sub, turn),
                      heard && ToldDone(sub, turn),
                      heard && Answered(rows, sub, turn),
                      heard && ToldToWait(sub, turn))
  {
    var command := TurnCommand(rows, sub, turn);
    Written(pacing, rows, sub, turn, command);
    CommandStatusLaw(pacing, command, rows[sub.eventId], turn.recordedAt);
    if sub.status == Pending {
      SubmitFlags(rows, sub, turn);
    } else {
      PollFlags(rows, sub, turn);
    }
  }

  // ---------- the other fields ----------

  /** The row is due again after the backoff for its failed attempts so far. */
  ghost predicate BackedOffTo(pacing: Pacing, due: Time, now: Time, attempts: int, jitter: JitterDraw) {
    due >= now &&
    CutTo(due - now, pacing.baseBackoff as real * Pow2(Doublings(attempts)) as real * jitter, pacing.maxBackoff)
  }

  /** One attempt more, the reason written down, due after the backoff, and nothing else. */
  ghost predicate PutOff(pacing: Pacing, row: Submission, after: Submission, cause: string, jitter: JitterDraw, now: Time) {
    && after == row.(attempts := row.attempts + 1, lastError := cause, nextAttemptAt := after.nextAttemptAt,
                     updatedAt := now)
    && BackedOffTo(pacing, after.nextAttemptAt, now, row.attempts + 1, jitter)
  }

  lemma BackedOffRow(pacing: Pacing, row: Submission, cause: string, jitter: JitterDraw, now: Time)
    ensures PutOff(pacing, row, BackedOff(pacing, Failed(row, cause), jitter, now).(updatedAt := now), cause, jitter, now)
  {
    var attempts := row.attempts + 1;
    var delay := BackoffFor(pacing.baseBackoff, pacing.maxBackoff, attempts, jitter);
    RetryDelay(pacing.baseBackoff, pacing.maxBackoff, attempts, jitter);
    assert BackedOff(pacing, Failed(row, cause), jitter, now).nextAttemptAt == now + delay;
  }

  /** A submit that may be tried again keeps its row pending. */
  lemma SubmitRetried(pacing: Pacing, rows: Rows, sub: Submission, turn: Turn)
    requires sub.eventId in rows && turn.updateOk && rows[sub.eventId].status == Pending
    requires Sends(rows, sub, turn) && turn.submitted.SubmitError? && turn.submitted.retriable
    ensures PutOff(pacing, rows[sub.eventId], RowAfter(pacing, rows, sub, turn), turn.submitted.cause,
                   turn.submitted.jitter, turn.recordedAt)
  {
    var row := rows[sub.eventId];
    ParentRule(rows, sub, turn.parentOk);
    SubmitDecision(sub, turn);
    Written(pacing, rows, sub, turn, SubmitTurn(sub, turn));
    BackedOffRow(pacing, row, turn.submitted.cause, turn.submitted.jitter, turn.recordedAt);
    RetriedRow(pacing, row, turn.submitted.cause, turn.submitted.jitter, turn.recordedAt);
  }

  lemma RetriedRow(pacing: Pacing, row: Submission, cause: string, jitter: JitterDraw, now: Time)
    requires row.status == Pending
    ensures Mutated(pacing, SubmitFail(cause, true, jitter), row, now) ==
            Some(BackedOff(pacing, Failed(row, cause), jitter, now))
  {
  }

  /** A poll that may be tried again keeps the status and the transaction, whatever they are by then. */
  lemma PollRetried(pacing: Pacing, rows: Rows, sub: Submission, turn: Turn)
    requires sub.eventId in rows && turn.updateOk && AtNav(sub.status)
    requires Asks(sub) && turn.polled.PollError? && turn.polled.retriable
    ensures PutOff(pacing, rows[sub.eventId], RowAfter(pacing, rows, sub, turn), turn.polled.cause,
                   turn.polled.jitter, turn.recordedAt)
  {
    PollDecision(sub, turn);
    Written(pacing, rows, sub, turn, PollTurn(sub, turn));
    BackedOffRow(pacing, rows[sub.eventId], turn.polled.cause, turn.polled.jitter, turn.recordedAt);
  }

  /** An answer that leaves something open: polled again after one interval, with nothing counted as an attempt. */
  lemma WaitForNav(pacing: Pacing, rows: Rows, sub: Submission, turn: Turn)
    requires sub.eventId in rows && turn.updateOk && AtNav(sub.status) && AtNav(rows[sub.eventId].status)
    requires ToldToWait(sub, turn)
    ensures RowAfter(pacing, rows, sub, turn) ==
            rows[sub.eventId].(status := Processing, nextAttemptAt := turn.recordedAt + pacing.pollInterval,
                               updatedAt := turn.recordedAt)
  {
    PollDecision(sub, turn);
    Written(pacing, rows, sub, turn, PollTurn(sub, turn));
  }

  /** A final answer settles the row, with the reason when it is a bad one, and writes nothing else. */
  lemma SettledByNav(pacing: Pacing, rows: Rows, sub: Submission, turn: Turn)
    requires sub.eventId in rows && turn.updateOk && AtNav(sub.status) && AtNav(rows[sub.eventId].status)
    requires ToldDone(sub, turn) || ToldAborted(sub, turn)
    ensures var row := rows[sub.eventId];
            RowAfter(pacing, rows, sub, turn) ==
            if ToldDone(sub, turn) then row.(status := Accepted, lastError := "", updatedAt := turn.recordedAt)
            else row.(status := Rejected, updatedAt := turn.recordedAt,
                      lastError := "NAV reported ABORTED" +
                                   if turn.polled.detail == "" then "" else ": " + turn.polled.detail)
  {
    PollDecision(sub, turn);
    Written(pacing, rows, sub, turn, PollTurn(sub, turn));
    if ToldDone(sub, turn) {
      assert "ABORTED" !in turn.polled.statuses;
    } else {
      AbortedTexts(turn.polled.detail);
    }
  }

  lemma AbortedTexts(detail: string)
    ensures AbortedError(detail) == "NAV reported ABORTED" + if detail == "" then "" else ": " + detail
  {
    assert "NAV reported ABORTED" + "" == "NAV reported ABORTED";
    assert "NAV reported ABORTED" + (": " + detail) == "NAV reported ABORTED: " + detail;
  }

  /** An answered submit: the transaction id is written down, and polling starts after one interval. */
  lemma AnsweredSubmit(pacing: Pacing, rows: Rows, sub: Submission, turn: Turn)
    requires sub.eventId in rows && turn.updateOk && rows[sub.eventId].status == Pending
    requires Answered(rows, sub, turn)
    ensures var row := rows[sub.eventId];
            RowAfter(pacing, rows, sub, turn) ==
            row.(status := Submitted, transactionId := turn.submitted.transactionId, lastError := "",
                 attempts := row.attempts + 1, nextAttemptAt := turn.recordedAt + pacing.pollInterval,
                 updatedAt := turn.recordedAt)
  {
    ParentRule(rows, sub, turn.parentOk);
    SubmitDecision(sub, turn);
    Written(pacing, rows, sub, turn, SubmitTurn(sub, turn));
  }

  /** A failure for good: one attempt more, and the reason. */
  lemma FailedForGood(pacing: Pacing, rows: Rows, sub: Submission, turn: Turn)
    requires sub.eventId in rows && turn.updateOk && Open(sub.status) && Open(rows[sub.eventId].status)
    requires FailsForGood(rows, sub, turn)
    ensures var row := rows[sub.eventId];
            RowAfter(pacing, rows, sub, turn) ==
            row.(status := Rejected, attempts := row.attempts + 1, updatedAt := turn.recordedAt,
                 lastError := if sub.status != Pending
                              then if sub.transactionId == "" then "submitted submission missing transactionId"
                                   else turn.polled.cause
                              else if Sendable(sub) then turn.submitted.cause else turn.deriveError)
  {
    var cause, jitter := ForGood(rows, sub, turn);
    Written(pacing, rows, sub, turn, TurnCommand(rows, sub, turn));
  }

  lemma ForGood(rows: Rows, sub: Submission, turn: Turn) returns (cause: string, jitter: JitterDraw)
    requires Open(sub.status) && FailsForGood(rows, sub, turn)
    ensures TurnCommand(rows, sub, turn) == SubmitFail(cause, false, jitter) ||
            TurnCommand(rows, sub, turn) == PollFail(cause, false, jitter)
    ensures cause == if sub.status != Pending
                     then if sub.transactionId == "" then "submitted submission missing transactionId"
                          else turn.polled.cause
                     else if Sendable(sub) then turn.submitted.cause else turn.deriveError
  {
    if sub.status == Pending {
      ParentRule(rows, sub, turn.parentOk);
      SubmitDecision(sub, turn);
      cause, jitter := SubmitTurn(sub, turn).cause, SubmitTurn(sub, turn).jitter;
    } else {
      PollDecision(sub, turn);
      cause, jitter := PollTurn(sub, turn).cause, PollTurn(sub, turn).jitter;
    }
  }

  /** A child waits one sleep for a parent that is still open or cannot be read, and dies with one that failed. */
  lemma HeldUpByParent(pacing: Pacing, rows: Rows, sub: Submission, turn: Turn)
    requires sub.eventId in rows && turn.updateOk && sub.status == Pending
    requires !ParentDone(rows, sub, turn.parentOk)
    ensures var row, after := rows[sub.eventId], RowAfter(pacing, rows, sub, turn);
            if !ParentDead(rows, sub, turn.parentOk)
            then after == row.(nextAttemptAt := turn.recordedAt + pacing.maxSleep, updatedAt := turn.recordedAt)
            else
              var parent := rows[sub.parentEventId];
              Open(row.status) ==>
                after == row.(status := Aborted, updatedAt := turn.recordedAt,
                              lastError := "parent submission " + parent.eventId + " terminally failed: " +
                                           parent.lastError)
  {
    ParentRule(rows, sub, turn.parentOk);
    Written(pacing, rows, sub, turn, TurnCommand(rows, sub, turn));
  }
}
