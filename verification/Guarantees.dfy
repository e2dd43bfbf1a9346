/** The protocol's safety guarantees, stated for every run from an empty store. */
module Guarantees {
  import opened Submissions
  import opened Mutators
  import opened Verdicts
  import opened Protocol
  import opened Safety

  ghost predicate Reached(pacing: Pacing, clock: Time, steps: seq<Step>, s: State) {
    Runs(pacing, Start(clock), steps) && s == Exec(pacing, Start(clock), steps)
  }

  lemma ReachedConsistent(pacing: Pacing, clock: Time, steps: seq<Step>, s: State)
    requires Reached(pacing, clock, steps, s)
    ensures Consistent(s)
  {
    RunKeepsConsistent(pacing, Start(clock), steps);
  }

  /**
   Between any two points of a run, under any interleaving and any staleness: a
   row never moves back, an end state stays, a pending row carries no
   transaction id, and an id once written is never replaced.
   */
  lemma StatusAndIdAreMonotone(pacing: Pacing, clock: Time, steps: seq<Step>, s: State, more: seq<Step>, id: string)
    requires Reached(pacing, clock, steps, s) && Runs(pacing, s, more)
    requires id in s.rows
    ensures var later := Exec(pacing, s, more).rows;
            && id in later
            && Rank(s.rows[id].status) <= Rank(later[id].status)
            && (Terminal(s.rows[id].status) ==> later[id].status == s.rows[id].status)
            && (s.rows[id].status == Pending ==> s.rows[id].transactionId == "")
            && (s.rows[id].transactionId != "" ==> later[id].transactionId == s.rows[id].transactionId)
  {
    ReachedConsistent(pacing, clock, steps, s);
    RunGrows(pacing, s, more);
    assert RowOk(s, s.rows[id]);
    assert Evolves(s.rows[id], Exec(pacing, s, more).rows[id]);
  }

  /** The only step that writes an id records a submit: it takes a pending row to submitted, with the id NAV gave. */
  lemma IdWrittenOnlyBySubmit(pacing: Pacing, clock: Time, steps: seq<Step>, s: State, step: Step, id: string)
    requires Reached(pacing, clock, steps, s) && Enabled(pacing, s, step)
    requires id in s.rows && Do(pacing, s, step).rows[id].transactionId != s.rows[id].transactionId
    ensures var after := Do(pacing, s, step).rows[id];
            && s.rows[id].status == Pending && after.status == Submitted
            && Attempted(s.attempts, id, after.transactionId)
            && MaySend(s.rows, s.rows[id])
  {
    ReachedConsistent(pacing, clock, steps, s);
    RowChange(pacing, s, step, id);
    var phase := s.lifecycles[step.l].phase;
    assert PhaseOk(s, id, phase);
    CommandEffect(pacing, phase.command, s.rows[id], s.clock);
  }

  /** An accepted row was confirmed by NAV for exactly its own transaction, however stale the poller was. */
  lemma AcceptedWasConfirmed(pacing: Pacing, clock: Time, steps: seq<Step>, s: State, id: string)
    requires Reached(pacing, clock, steps, s)
    requires id in s.rows && s.rows[id].status == Accepted
    ensures s.rows[id].transactionId != ""
    ensures exists k :: && 0 <= k < |s.polls| && s.polls[k].transactionId == s.rows[id].transactionId
                        && |s.polls[k].statuses| > 0
                        && forall i :: 0 <= i < |s.polls[k].statuses| ==>
                             s.polls[k].statuses[i] == "FINISHED" || s.polls[k].statuses[i] == "DONE"
  {
    ReachedConsistent(pacing, clock, steps, s);
    assert RowOk(s, s.rows[id]);
    var k :| 0 <= k < |s.polls| && s.polls[k].transactionId == s.rows[id].transactionId &&
             Final(Overall(s.polls[k].statuses));
    FinalVerdict(s.polls[k].statuses);
    assert forall i :: 0 <= i < |s.polls[k].statuses| ==> Final(s.polls[k].statuses[i]);
  }

  /** NAV is never called for a child before its parent has been accepted, not even by a stale lifecycle. */
  lemma SubmittedAfterParent(pacing: Pacing, clock: Time, steps: seq<Step>, s: State, step: Step)
    requires Reached(pacing, clock, steps, s) && Enabled(pacing, s, step) && step.Submit?
    ensures var row := s.rows[s.lifecycles[step.l].eventId];
            row.parentEventId != "" ==> row.parentEventId in s.rows && s.rows[row.parentEventId].status == Accepted
  {
    ReachedConsistent(pacing, clock, steps, s);
    var life := s.lifecycles[step.l];
    assert PhaseOk(s, life.eventId, life.phase);
  }

  /** An aborted row has a rejected or aborted parent, was never sent to NAV, and carries no id. */
  lemma AbortedWasNeverSent(pacing: Pacing, clock: Time, steps: seq<Step>, s: State, id: string)
    requires Reached(pacing, clock, steps, s)
    requires id in s.rows && s.rows[id].status == Aborted
    ensures s.rows[id].parentEventId in s.rows
    ensures var parent := s.rows[s.rows[id].parentEventId]; parent.status == Rejected || parent.status == Aborted
    ensures s.rows[id].transactionId == ""
    ensures forall k :: 0 <= k < |s.attempts| ==> s.attempts[k].eventId != id
  {
    ReachedConsistent(pacing, clock, steps, s);
    assert RowOk(s, s.rows[id]);
    forall k | 0 <= k < |s.attempts|
      ensures s.attempts[k].eventId != id
    {
      assert AttemptOk(s, s.attempts[k]);
    }
  }

  /** A row in flight or accepted carries an id NAV answered a submit of that row with. */
  lemma InFlightWasAnswered(pacing: Pacing, clock: Time, steps: seq<Step>, s: State, id: string)
    requires Reached(pacing, clock, steps, s)
    requires id in s.rows
    requires s.rows[id].status == Submitted || s.rows[id].status == Processing || s.rows[id].status == Accepted
    ensures Attempted(s.attempts, id, s.rows[id].transactionId)
  {
    ReachedConsistent(pacing, clock, steps, s);
    assert RowOk(s, s.rows[id]);
  }
}
