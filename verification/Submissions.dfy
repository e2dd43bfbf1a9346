/** The persisted record of one reported event and its status machine. */
module Submissions {
  import opened Wrappers
  import opened Documents

  /** Instants and durations, in nanoseconds; 0 is Go's zero time. */
  type Time = nat

  const ZERO_TIME: Time := 0

  datatype Status = Pending | Submitted | Processing | Accepted | Rejected | Aborted

  datatype Kind = InvoiceKind | AnnulmentKind | CreditNoteKind

  datatype Submission = Submission(
    eventId: string,
    kind: Kind,
    invoiceNumber: string,
    operation: string,
    parentEventId: string,
    status: Status,
    attempts: int,
    lastError: string,
    transactionId: string,
    nextAttemptAt: Time,
    issuedAt: Time,
    createdAt: Time,
    updatedAt: Time,
    rawEvent: Payload,
    claimedBy: string,
    claimedUntil: Time)

  /** The transition table; a status without an entry is terminal. */
  const VALID_TRANSITIONS: map<Status, set<Status>> := map[
    Pending := {Pending, Submitted, Rejected, Aborted},
    Submitted := {Processing, Accepted, Rejected, Aborted},
    Processing := {Processing, Accepted, Rejected, Aborted}
  ]

  predicate Terminal(status: Status) {
    status == Accepted || status == Rejected || status == Aborted
  }

  predicate CanTransition(from: Status, next: Status) {
    (from == next && (next == Pending || next == Processing)) ||
    (from in VALID_TRANSITIONS && next in VALID_TRANSITIONS[from])
  }

  /** How far a status has progressed: pending, submitted, processing, then every end state. */
  function Rank(status: Status): (r: nat) {
    match status
    case Pending => 0
    case Submitted => 1
    case Processing => 2
    case _ => 3
  }

  /**
   The table grants exactly this: an end state moves nowhere; otherwise a status
   may stay (pending and processing only) or climb, except that a pending row
   can neither be polled nor accepted before it has been submitted.
   */
  lemma TransitionRule(from: Status, next: Status)
    ensures CanTransition(from, next) <==>
            && !Terminal(from)
            && (from == next ==> from == Pending || from == Processing)
            && (from != next ==> Rank(from) < Rank(next))
            && (from == Pending ==> next != Processing && next != Accepted)
  {
    match from
    case Pending =>
    case Submitted =>
    case Processing =>
    case _ =>
  }

  /** The row after a successful transition, or None when the table forbids it. */
  function Advanced(row: Submission, next: Status): Option<Submission> {
    if CanTransition(row.status, next) then Some(row.(status := next)) else None
  }

  /** The fields nothing writes after the row has been stored. */
  predicate SameOrigin(a: Submission, b: Submission) {
    && a.eventId == b.eventId
    && a.kind == b.kind
    && a.invoiceNumber == b.invoiceNumber
    && a.operation == b.operation
    && a.parentEventId == b.parentEventId
    && a.issuedAt == b.issuedAt
    && a.createdAt == b.createdAt
    && a.rawEvent == b.rawEvent
  }

  /**
   How a stored row may differ from any earlier version of itself: same origin,
   no step back in rank, end states absorbing, and a transaction id that is fixed
   from the moment the row leaves pending.
   */
  predicate Evolves(a: Submission, b: Submission) {
    && SameOrigin(a, b)
    && Rank(a.status) <= Rank(b.status)
    && (Terminal(a.status) ==> b.status == a.status)
    && (a.status != Pending ==> b.transactionId == a.transactionId)
  }

  lemma EvolvesTransitive(a: Submission, b: Submission, c: Submission)
    requires Evolves(a, b) && Evolves(b, c)
    ensures Evolves(a, c)
  {
  }

  /** Go's *Submission: a local copy of a row that a mutator writes field by field. */
  class Draft {
    var row: Submission

    constructor (row: Submission)
      ensures this.row == row
    {
      this.row := row;
    }

    /** Moves the draft to next, or reports that the table forbids it and leaves the draft alone. */
    method Transition(next: Status) returns (ok: bool)
      modifies this
      ensures ok == CanTransition(old(row.status), next)
      ensures row == if ok then old(row).(status := next) else old(row)
    {
      if row.status == next && (next == Pending || next == Processing) {
        row := row.(status := next);
        return true;
      }
      if row.status !in VALID_TRANSITIONS {
        return false;
      }
      if next !in VALID_TRANSITIONS[row.status] {
        return false;
      }
      row := row.(status := next);
      return true;
    }
  }
}
