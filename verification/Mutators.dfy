/** The eight ways a worker changes a stored row, each one closure passed to UpdateStatus. */
module Mutators {
  import opened Wrappers
  import opened Submissions
  import opened Backoff

  /** The worker's pacing after NewWorker has applied its defaults: every duration is positive. */
  datatype Pacing = Pacing(
    maxSleep: nat,
    pollInterval: nat,
    leaseDuration: nat,
    baseBackoff: nat,
    maxBackoff: nat)
  {
    predicate Valid() {
      maxSleep > 0 && pollInterval > 0 && leaseDuration > 0 && baseBackoff > 0 && maxBackoff > 0
    }
  }

  type JitterDraw = j: real | Jitter(j) witness 1.0

  datatype Command =
    | SubmitOk(transactionId: string)
    | SubmitFail(cause: string, retriable: bool, jitter: JitterDraw)
    | PollFail(cause: string, retriable: bool, jitter: JitterDraw)
    | PollAborted(detail: string)
    | PollFinished
    | PollPending
    | ParentWait
    | ParentAbort(parentId: string, parentError: string)

  function AbortedError(detail: string): string {
    if detail != "" then "NAV reported ABORTED: " + detail else "NAV reported ABORTED"
  }

  function ParentError(parentId: string, parentError: string): string {
    "parent submission " + parentId + " terminally failed: " + parentError
  }

  /** The row a failed attempt leaves before its status is touched. */
  function Failed(row: Submission, cause: string): Submission {
    row.(attempts := row.attempts + 1, lastError := cause)
  }

  function BackedOff(pacing: Pacing, row: Submission, jitter: JitterDraw, now: Time): Submission {
    row.(nextAttemptAt := now + BackoffFor(pacing.baseBackoff, pacing.maxBackoff, row.attempts, jitter))
  }

  /** The row a command makes of row at time now, or None when its transition is refused. */
  function Mutated(pacing: Pacing, command: Command, row: Submission, now: Time): Option<Submission> {
    match command
    case SubmitOk(transactionId) =>
      Advanced(row.(transactionId := transactionId, lastError := "", attempts := row.attempts + 1,
                    nextAttemptAt := now + pacing.pollInterval), Submitted)
    case SubmitFail(cause, retriable, jitter) =>
      if retriable then Advanced(BackedOff(pacing, Failed(row, cause), jitter, now), Pending)
      else Advanced(Failed(row, cause), Rejected)
    case PollFail(cause, retriable, jitter) =>
      if retriable then Some(BackedOff(pacing, Failed(row, cause), jitter, now))
      else Advanced(Failed(row, cause), Rejected)
    case PollAborted(detail) =>
      Advanced(row.(lastError := AbortedError(detail)), Rejected)
    case PollFinished =>
      Advanced(row.(lastError := ""), Accepted)
    case PollPending =>
      Advanced(row.(nextAttemptAt := now + pacing.pollInterval), Processing)
    case ParentWait =>
      Some(row.(nextAttemptAt := now + pacing.maxSleep))
    case ParentAbort(parentId, parentError) =>
      Advanced(row.(lastError := ParentError(parentId, parentError)), Aborted)
  }

  /** Runs a command on a draft, field by field, ending in the transition that may still refuse it. */
  method Apply(pacing: Pacing, command: Command, draft: Draft, now: Time) returns (ok: bool)
    modifies draft
    ensures ok == Mutated(pacing, command, old(draft.row), now).Some?
    ensures ok ==> draft.row == Mutated(pacing, command, old(draft.row), now).value
  {
    match command {
      case SubmitOk(transactionId) =>
        draft.row := draft.row.(transactionId := transactionId);
        draft.row := draft.row.(lastError := "");
        draft.row := draft.row.(attempts := draft.row.attempts + 1);
        draft.row := draft.row.(nextAttemptAt := now + pacing.pollInterval);
        ok := draft.Transition(Submitted);
      case SubmitFail(cause, retriable, jitter) =>
        draft.row := draft.row.(attempts := draft.row.attempts + 1);
        draft.row := draft.row.(lastError := cause);
        if !retriable {
          ok := draft.Transition(Rejected);
        } else {
          var delay := BackoffFor(pacing.baseBackoff, pacing.maxBackoff, draft.row.attempts, jitter);
          draft.row := draft.row.(nextAttemptAt := now + delay);
          ok := draft.Transition(Pending);
        }
      case PollFail(cause, retriable, jitter) =>
        draft.row := draft.row.(attempts := draft.row.attempts + 1);
        draft.row := draft.row.(lastError := cause);
        if !retriable {
          ok := draft.Transition(Rejected);
        } else {
          var delay := BackoffFor(pacing.baseBackoff, pacing.maxBackoff, draft.row.attempts, jitter);
          draft.row := draft.row.(nextAttemptAt := now + delay);
          ok := true;
        }
      case PollAborted(detail) =>
        draft.row := draft.row.(lastError := AbortedError(detail));
        ok := draft.Transition(Rejected);
      case PollFinished =>
        draft.row := draft.row.(lastError := "");
        ok := draft.Transition(Accepted);
      case PollPending =>
        draft.row := draft.row.(nextAttemptAt := now + pacing.pollInterval);
        ok := draft.Transition(Processing);
      case ParentWait =>
        draft.row := draft.row.(nextAttemptAt := now + pacing.maxSleep);
        ok := true;
      case ParentAbort(parentId, parentError) =>
        draft.row := draft.row.(lastError := ParentError(parentId, parentError));
        ok := draft.Transition(Aborted);
    }
  }

  /** A command writes neither the claim nor the origin, and only ever lets a row evolve. */
  lemma CommandEvolves(pacing: Pacing, command: Command, row: Submission, now: Time)
    requires Mutated(pacing, command, row, now).Some?
    ensures var after := Mutated(pacing, command, row, now).value;
            && Evolves(row, after)
            && after.claimedBy == row.claimedBy && after.claimedUntil == row.claimedUntil
  {
    match command
    case _ =>
  }

  /** Which command is behind each status a row can enter: the eight mutators read backwards. */
  lemma CommandEffect(pacing: Pacing, command: Command, row: Submission, now: Time)
    requires Mutated(pacing, command, row, now).Some?
    ensures var after := Mutated(pacing, command, row, now).value;
            && (after.transactionId != row.transactionId ==> command == SubmitOk(after.transactionId))
            && (command.SubmitOk? <==> row.status == Pending && after.status == Submitted)
            && (after.status == Accepted ==> command.PollFinished? || row.status == Accepted)
            && (after.status == Aborted ==> command.ParentAbort? || row.status == Aborted)
            && (after.status == Pending ==> row.status == Pending)
  {
    match command
    case _ =>
  }

  /** How far ahead the pacing can push a row. */
  function Horizon(pacing: Pacing): (h: nat)
    ensures h >= pacing.maxSleep && h >= pacing.pollInterval && h >= pacing.maxBackoff
    ensures h == pacing.maxSleep || h == pacing.pollInterval || h == pacing.maxBackoff
  {
    var a := if pacing.maxSleep >= pacing.pollInterval then pacing.maxSleep else pacing.pollInterval;
    if a >= pacing.maxBackoff then a else pacing.maxBackoff
  }

  /** A command either leaves the due time alone or sets it at most one horizon ahead. */
  lemma CommandDueTime(pacing: Pacing, command: Command, row: Submission, now: Time)
    requires Mutated(pacing, command, row, now).Some?
    ensures var due := Mutated(pacing, command, row, now).value.nextAttemptAt;
            due == row.nextAttemptAt || now <= due <= now + Horizon(pacing)
  {
    match command
    case _ =>
  }
}
