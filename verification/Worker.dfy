/**
 The worker's own code for one claimed row, run without interleaving. What NAV
 answers, how the clock advances and which store calls fail are inputs. Every
 method is shown to do nothing but steps of the transition system.
 */
module Worker {
  import opened Wrappers
  import opened Submissions
  import opened Mutators
  import opened Verdicts
  import opened StoreInMem
  import opened Protocol

  /** One tick of the renewal goroutine. */
  datatype Heartbeat = Heartbeat(at: Time, ok: bool)

  /** One pass of the lifecycle loop: what the outside world contributes to it. */
  datatype Turn = Turn(
    renewal: Option<Heartbeat>,
    parentOk: bool,
    deriveError: string,
    submitted: SubmitOutcome,
    polled: PollOutcome,
    jitter: JitterDraw,
    recordedAt: Time,
    updateOk: bool,
    rereadAt: Time,
    rereadOk: bool)

  /** Clock readings over a whole lifecycle never go back. */
  predicate Ordered(clock: Time, turns: seq<Turn>)
    decreases |turns|
  {
    turns == [] ||
    (clock <= TurnStart(clock, turns[0]) <= turns[0].recordedAt <= turns[0].rereadAt &&
     Ordered(turns[0].rereadAt, turns[1..]))
  }

  lemma OrderedNext(clock: Time, turns: seq<Turn>, i: nat)
    requires i < |turns| && Ordered(clock, turns[i..])
    ensures clock <= TurnStart(clock, turns[i]) <= turns[i].recordedAt <= turns[i].rereadAt
    ensures Ordered(turns[i].rereadAt, turns[i + 1..])
  {
    assert turns[i..][1..] == turns[i + 1..];
  }

  /** When a pass gets going, after the renewal that precedes it, if any. */
  function TurnStart(clock: Time, turn: Turn): Time {
    if turn.renewal.Some? then turn.renewal.value.at else clock
  }

  /** The lifecycle l of state s is the one this worker is about to act for. */
  ghost predicate Drives(s: State, l: nat, rows: Rows, phase: Phase, eventId: string, claimer: string) {
    && s.rows == rows
    && l < |s.lifecycles|
    && s.lifecycles[l].phase == phase
    && s.lifecycles[l].eventId == eventId
    && s.lifecycles[l].claimer == claimer
    && eventId in rows
  }

  /** steps is a run from s, ending with lifecycle l in the given phase and the store holding rows. */
  ghost predicate Refines(pacing: Pacing, s: State, steps: seq<Step>, l: nat, rows: Rows, phase: Phase,
                          eventId: string, claimer: string, clock: Time)
  {
    && Runs(pacing, s, steps)
    && Drives(Exec(pacing, s, steps), l, rows, phase, eventId, claimer)
    && Exec(pacing, s, steps).clock == clock
  }

  function SubmitTurn(sub: Submission, turn: Turn): Command {
    if Derive(sub).None? then SubmitFail(turn.deriveError, false, turn.jitter) else SubmitCommand(turn.submitted)
  }

  function PollTurn(sub: Submission, turn: Turn): Command {
    if sub.transactionId == "" then PollFail("submitted submission missing transactionId", false, turn.jitter)
    else PollCommand(turn.polled)
  }

  predicate Goes(rows: Rows, sub: Submission, turn: Turn) {
    ParentVerdict(rows, sub, turn.parentOk).None?
  }

  /** The command one pass of the loop records for a row. */
  function TurnCommand(rows: Rows, sub: Submission, turn: Turn): Command {
    if sub.status != Pending then PollTurn(sub, turn)
    else if Goes(rows, sub, turn) then SubmitTurn(sub, turn)
    else ParentVerdict(rows, sub, turn.parentOk).value
  }

  function ActRows(pacing: Pacing, rows: Rows, sub: Submission, turn: Turn): Rows
    requires sub.eventId in rows
  {
    if turn.updateOk then Updated(pacing, rows, sub.eventId, TurnCommand(rows, sub, turn), turn.recordedAt) else rows
  }

  predicate Leaves(rows: Rows, sub: Submission, turn: Turn) {
    sub.status == Pending && !Goes(rows, sub, turn)
  }

  function DecideSteps(rows: Rows, l: nat, sub: Submission, turn: Turn): seq<Step> {
    if sub.status != Pending then
      [if sub.transactionId == "" then MissingId(l, turn.jitter) else Poll(l, turn.polled)]
    else if !Goes(rows, sub, turn) then [CheckParent(l, turn.parentOk)]
    else [CheckParent(l, turn.parentOk)] +
         [if Derive(sub).None? then DeriveFails(l, turn.deriveError, turn.jitter) else Submit(l, turn.submitted)]
  }

  function ActSteps(rows: Rows, l: nat, sub: Submission, turn: Turn): seq<Step> {
    DecideSteps(rows, l, sub, turn) + [Tick(turn.recordedAt)] + [if turn.updateOk then Record(l) else LoseUpdate(l)]
  }

  lemma DecideOnPoll(pacing: Pacing, s: State, l: nat, sub: Submission, turn: Turn, claimer: string)
    requires !Terminal(sub.status) && sub.status != Pending
    requires Drives(s, l, s.rows, Deciding(sub), sub.eventId, claimer)
    ensures Refines(pacing, s, DecideSteps(s.rows, l, sub, turn), l, s.rows,
                    Recording(sub, PollTurn(sub, turn), false), sub.eventId, claimer, s.clock)
  {
    OneStep(pacing, s, if sub.transactionId == "" then MissingId(l, turn.jitter) else Poll(l, turn.polled));
  }

  lemma DecideOnParent(pacing: Pacing, s: State, l: nat, sub: Submission, turn: Turn, claimer: string)
    requires sub.status == Pending && Drives(s, l, s.rows, Deciding(sub), sub.eventId, claimer)
    ensures var verdict := ParentVerdict(s.rows, sub, turn.parentOk);
            Refines(pacing, s, [CheckParent(l, turn.parentOk)], l, s.rows,
                    if verdict.None? then Cleared(sub) else Recording(sub, verdict.value, true),
                    sub.eventId, claimer, s.clock)
  {
    OneStep(pacing, s, CheckParent(l, turn.parentOk));
  }

  lemma DecideOnSubmit(pacing: Pacing, s: State, l: nat, sub: Submission, turn: Turn, claimer: string)
    requires Drives(s, l, s.rows, Cleared(sub), sub.eventId, claimer)
    ensures Refines(pacing, s, [if Derive(sub).None? then DeriveFails(l, turn.deriveError, turn.jitter)
                                else Submit(l, turn.submitted)],
                    l, s.rows, Recording(sub, SubmitTurn(sub, turn), false), sub.eventId, claimer, s.clock)
  {
    OneStep(pacing, s, if Derive(sub).None? then DeriveFails(l, turn.deriveError, turn.jitter)
                       else Submit(l, turn.submitted));
  }

  /** Up to the UpdateStatus, a pass of the loop only talks to NAV and reads the store. */
  lemma DecideRefines(pacing: Pacing, s: State, l: nat, sub: Submission, turn: Turn, claimer: string)
    requires !Terminal(sub.status)
    requires Drives(s, l, s.rows, Deciding(sub), sub.eventId, claimer)
    ensures Refines(pacing, s, DecideSteps(s.rows, l, sub, turn), l, s.rows,
                    Recording(sub, TurnCommand(s.rows, sub, turn), Leaves(s.rows, sub, turn)),
                    sub.eventId, claimer, s.clock)
  {
    if sub.status != Pending {
      DecideOnPoll(pacing, s, l, sub, turn, claimer);
    } else {
      var check := [CheckParent(l, turn.parentOk)];
      DecideOnParent(pacing, s, l, sub, turn, claimer);
      if Goes(s.rows, sub, turn) {
        var send := if Derive(sub).None? then DeriveFails(l, turn.deriveError, turn.jitter) else Submit(l, turn.submitted);
        DecideOnSubmit(pacing, Exec(pacing, s, check), l, sub, turn, claimer);
        RefinesJoin(pacing, s, check, [send], l, s.rows, Recording(sub, SubmitTurn(sub, turn), false),
                    sub.eventId, claimer, s.clock);
      }
    }
  }

  lemma ActRefines(pacing: Pacing, s: State, l: nat, sub: Submission, turn: Turn, claimer: string)
    requires !Terminal(sub.status)
    requires Drives(s, l, s.rows, Deciding(sub), sub.eventId, claimer)
    requires s.clock <= turn.recordedAt
    ensures Refines(pacing, s, ActSteps(s.rows, l, sub, turn), l, ActRows(pacing, s.rows, sub, turn),
                    if Leaves(s.rows, sub, turn) then Leaving else Recorded, sub.eventId, claimer, turn.recordedAt)
  {
    var decided := DecideSteps(s.rows, l, sub, turn);
    DecideRefines(pacing, s, l, sub, turn, claimer);
    RunSnoc(pacing, s, decided, Tick(turn.recordedAt));
    RunSnoc(pacing, s, decided + [Tick(turn.recordedAt)], if turn.updateOk then Record(l) else LoseUpdate(l));
  }

  function RereadSteps(l: nat, turn: Turn): seq<Step> {
    [Tick(turn.rereadAt)] + [if turn.rereadOk then Reread(l) else Abandon(l)]
  }

  lemma RereadRefines(pacing: Pacing, s: State, l: nat, turn: Turn, eventId: string, claimer: string)
    requires Drives(s, l, s.rows, Recorded, eventId, claimer)
    requires s.clock <= turn.rereadAt
    ensures Refines(pacing, s, RereadSteps(l, turn), l, s.rows,
                    if turn.rereadOk then AfterReread(pacing, s.rows[eventId], turn.rereadAt) else Leaving,
                    eventId, claimer, turn.rereadAt)
  {
    OneStep(pacing, s, Tick(turn.rereadAt));
    RunSnoc(pacing, s, [Tick(turn.rereadAt)], if turn.rereadOk then Reread(l) else Abandon(l));
  }

  lemma RefinesJoin(pacing: Pacing, s: State, a: seq<Step>, b: seq<Step>, l: nat, rows: Rows, phase: Phase,
                    eventId: string, claimer: string, clock: Time)
    requires Runs(pacing, s, a) && Refines(pacing, Exec(pacing, s, a), b, l, rows, phase, eventId, claimer, clock)
    ensures Refines(pacing, s, a + b, l, rows, phase, eventId, claimer, clock)
  {
    RunJoins(pacing, s, a, b);
  }

  /** A renewal the store accepts extends the lease; one that fails cancels the lifecycle. */
  predicate Lost(rows: Rows, eventId: string, claimer: string, beat: Heartbeat)
    requires eventId in rows
  {
    !beat.ok || claimer == "" || rows[eventId].claimedBy != claimer
  }

  function AfterBeat(pacing: Pacing, rows: Rows, eventId: string, claimer: string, beat: Heartbeat): Rows
    requires eventId in rows
  {
    if Lost(rows, eventId, claimer, beat) then rows
    else rows[eventId := Stamped(rows[eventId], claimer, beat.at + pacing.leaseDuration, beat.at)]
  }

  function BeatSteps(rows: Rows, l: nat, eventId: string, claimer: string, beat: Heartbeat): seq<Step>
    requires eventId in rows
  {
    [Tick(beat.at)] + [if Lost(rows, eventId, claimer, beat) then Abandon(l) else Renew(l, beat.at)]
  }

  lemma BeatRefines(pacing: Pacing, s: State, l: nat, sub: Submission, claimer: string, beat: Heartbeat)
    requires Drives(s, l, s.rows, Deciding(sub), sub.eventId, claimer) && s.clock <= beat.at
    ensures Refines(pacing, s, BeatSteps(s.rows, l, sub.eventId, claimer, beat), l,
                    AfterBeat(pacing, s.rows, sub.eventId, claimer, beat),
                    if Lost(s.rows, sub.eventId, claimer, beat) then Leaving else Deciding(sub),
                    sub.eventId, claimer, beat.at)
  {
    OneStep(pacing, s, Tick(beat.at));
    RunSnoc(pacing, s, [Tick(beat.at)],
            if Lost(s.rows, sub.eventId, claimer, beat) then Abandon(l) else Renew(l, beat.at));
  }

  /** Leaving the loop early. */
  lemma AbandonRefines(pacing: Pacing, s: State, steps: seq<Step>, l: nat, rows: Rows, sub: Submission,
                       claimer: string, clock: Time)
    requires Refines(pacing, s, steps, l, rows, Deciding(sub), sub.eventId, claimer, clock)
    ensures Refines(pacing, s, steps + [Abandon(l)], l, rows, Leaving, sub.eventId, claimer, clock)
  {
    RunSnoc(pacing, s, steps, Abandon(l));
  }

  /** A pass that does not stop at the parent, and re-reads its row. */
  predicate MayStay(rows: Rows, sub: Submission, turn: Turn) {
    turn.rereadOk &&
    (sub.status == Pending && sub.parentEventId != "" ==>
       turn.parentOk && sub.parentEventId in rows && rows[sub.parentEventId].status == Accepted)
  }

  /** The row is still open, and due within one poll interval. */
  predicate DueSoon(pacing: Pacing, rows: Rows, id: string, now: Time) {
    && id in rows
    && (rows[id].status == Pending || rows[id].status == Submitted || rows[id].status == Processing)
    && rows[id].nextAttemptAt <= now + pacing.pollInterval
  }

  /** What ReleaseClaim leaves in the store. */
  function AfterRelease(rows: Rows, eventId: string, claimer: string, now: Time): Rows
    requires eventId in rows
  {
    if rows[eventId].claimedBy != claimer then rows else rows[eventId := Released(rows[eventId], now)]
  }

  /** The deferred release on the way out; one that does not reach the store is a crash to everybody else. */
  lemma ReleaseRefines(pacing: Pacing, s: State, steps: seq<Step>, l: nat, rows: Rows, eventId: string,
                       claimer: string, clock: Time, ok: bool)
    requires Refines(pacing, s, steps, l, rows, Leaving, eventId, claimer, clock)
    ensures Refines(pacing, s, steps + [if ok then Release(l) else Crash(l)], l,
                    if ok then AfterRelease(rows, eventId, claimer, clock) else rows, Gone, eventId, claimer, clock)
  {
    RunSnoc(pacing, s, steps, if ok then Release(l) else Crash(l));
  }

  lemma ActJoins(pacing: Pacing, s: State, steps: seq<Step>, l: nat, rows: Rows, sub: Submission, turn: Turn,
                 claimer: string)
    requires !Terminal(sub.status)
    requires Runs(pacing, s, steps) && Exec(pacing, s, steps).clock <= turn.recordedAt
    requires Drives(Exec(pacing, s, steps), l, rows, Deciding(sub), sub.eventId, claimer)
    ensures Refines(pacing, s, steps + ActSteps(rows, l, sub, turn), l, ActRows(pacing, rows, sub, turn),
                    if Leaves(rows, sub, turn) then Leaving else Recorded, sub.eventId, claimer, turn.recordedAt)
  {
    ActRefines(pacing, Exec(pacing, s, steps), l, sub, turn, claimer);
    RefinesJoin(pacing, s, steps, ActSteps(rows, l, sub, turn), l, ActRows(pacing, rows, sub, turn),
                if Leaves(rows, sub, turn) then Leaving else Recorded, sub.eventId, claimer, turn.recordedAt);
  }

  lemma RereadJoins(pacing: Pacing, s: State, steps: seq<Step>, l: nat, rows: Rows, turn: Turn, eventId: string,
                    claimer: string, clock: Time)
    requires Refines(pacing, s, steps, l, rows, Recorded, eventId, claimer, clock) && clock <= turn.rereadAt
    ensures Refines(pacing, s, steps + RereadSteps(l, turn), l, rows,
                    if turn.rereadOk && DueSoon(pacing, rows, eventId, turn.rereadAt) then Deciding(rows[eventId])
                    else Leaving, eventId, claimer, turn.rereadAt)
  {
    RereadRefines(pacing, Exec(pacing, s, steps), l, turn, eventId, claimer);
    RefinesJoin(pacing, s, steps, RereadSteps(l, turn), l, rows,
                if turn.rereadOk then AfterReread(pacing, rows[eventId], turn.rereadAt) else Leaving,
                eventId, claimer, turn.rereadAt);
  }

  /** A pass stops at the parent unless there is none to wait for, or a stored and accepted one. */
  lemma LeavesRule(rows: Rows, sub: Submission, turn: Turn)
    ensures MayStay(rows, sub, turn) <==> turn.rereadOk && !Leaves(rows, sub, turn)
  {
  }

  class Worker {
    const pacing: Pacing
    const claimer: string
    const store: Store

    constructor (pacing: Pacing, claimer: string, store: Store)
      ensures this.pacing == pacing && this.claimer == claimer && this.store == store
    {
      this.pacing := pacing;
      this.claimer := claimer;
      this.store := store;
    }

    /** updateStatus: a failed update changes nothing and is only logged. */
    method UpdateStatus(eventId: string, command: Command, now: Time, ok: bool)
      requires store.Valid() && eventId in store.rows
      modifies store
      ensures store.Valid()
      ensures store.rows == if ok then Updated(pacing, old(store.rows), eventId, command, now) else old(store.rows)
    {
      var r := store.UpdateStatus(!ok, pacing, eventId, command, now);
    }

    /** parentReady: go ahead, or record why not. */
    method ParentReady(sub: Submission, turn: Turn) returns (ready: bool)
      requires store.Valid() && sub.eventId in store.rows
      modifies store
      ensures store.Valid()
      ensures ready == ParentVerdict(old(store.rows), sub, turn.parentOk).None?
      ensures ready <==> sub.parentEventId == "" ||
                         (turn.parentOk && sub.parentEventId in old(store.rows) &&
                          old(store.rows)[sub.parentEventId].status == Accepted)
      ensures store.rows ==
              if ready || !turn.updateOk then old(store.rows)
              else Updated(pacing, old(store.rows), sub.eventId,
                           ParentVerdict(old(store.rows), sub, turn.parentOk).value, turn.recordedAt)
    {
      if sub.parentEventId == "" {
        return true;
      }
      var parent := store.Get(!turn.parentOk, sub.parentEventId);
      if parent.Err? {
        UpdateStatus(sub.eventId, ParentWait, turn.recordedAt, turn.updateOk);
        return false;
      }
      match parent.value.status {
        case Accepted =>
          return true;
        case Rejected =>
          UpdateStatus(sub.eventId, ParentAbort(parent.value.eventId, parent.value.lastError),
                       turn.recordedAt, turn.updateOk);
          return false;
        case Aborted =>
          UpdateStatus(sub.eventId, ParentAbort(parent.value.eventId, parent.value.lastError),
                       turn.recordedAt, turn.updateOk);
          return false;
        case _ =>
          UpdateStatus(sub.eventId, ParentWait, turn.recordedAt, turn.updateOk);
          return false;
      }
    }

    /** attemptSubmit: derive, call NAV, record the answer or the failure. */
    method AttemptSubmit(sub: Submission, turn: Turn)
      requires store.Valid() && sub.eventId in store.rows
      modifies store
      ensures store.Valid()
      ensures store.rows == if turn.updateOk
                            then Updated(pacing, old(store.rows), sub.eventId, SubmitTurn(sub, turn), turn.recordedAt)
                            else old(store.rows)
    {
      if Derive(sub).None? {
        UpdateStatus(sub.eventId, SubmitFail(turn.deriveError, false, turn.jitter), turn.recordedAt, turn.updateOk);
        return;
      }
      match turn.submitted {
        case SubmitError(cause, retriable, jitter) =>
          UpdateStatus(sub.eventId, SubmitFail(cause, retriable, jitter), turn.recordedAt, turn.updateOk);
        case SubmitAccepted(transactionId) =>
          UpdateStatus(sub.eventId, SubmitOk(transactionId), turn.recordedAt, turn.updateOk);
      }
    }

    /** pollStatus: ask NAV about the stored transaction and record its verdict. */
    method PollStatus(sub: Submission, turn: Turn)
      requires store.Valid() && sub.eventId in store.rows
      modifies store
      ensures store.Valid()
      ensures store.rows == if turn.updateOk
                            then Updated(pacing, old(store.rows), sub.eventId, PollTurn(sub, turn), turn.recordedAt)
                            else old(store.rows)
    {
      if sub.transactionId == "" {
        UpdateStatus(sub.eventId, PollFail("submitted submission missing transactionId", false, turn.jitter),
                     turn.recordedAt, turn.updateOk);
        return;
      }
      match turn.polled {
        case PollError(cause, retriable, jitter) =>
          UpdateStatus(sub.eventId, PollFail(cause, retriable, jitter), turn.recordedAt, turn.updateOk);
        case PollResults(statuses, detail) =>
          var overall := OverallStatus(statuses);
          if overall == "ABORTED" {
            UpdateStatus(sub.eventId, PollAborted(detail), turn.recordedAt, turn.updateOk);
          } else if overall == "FINISHED" || overall == "DONE" {
            UpdateStatus(sub.eventId, PollFinished, turn.recordedAt, turn.updateOk);
          } else {
            UpdateStatus(sub.eventId, PollPending, turn.recordedAt, turn.updateOk);
          }
      }
    }

    /** The switch at the head of the loop. */
    method Act(sub: Submission, turn: Turn) returns (leave: bool)
      requires store.Valid() && !Terminal(sub.status) && sub.eventId in store.rows
      modifies store
      ensures store.Valid()
      ensures leave == Leaves(old(store.rows), sub, turn)
      ensures store.rows == ActRows(pacing, old(store.rows), sub, turn)
    {
      if sub.status == Pending {
        var ready := ParentReady(sub, turn);
        if !ready {
          return true;
        }
        AttemptSubmit(sub, turn);
      } else {
        PollStatus(sub, turn);
      }
      return false;
    }

    /** One pass of the loop: act on the row, re-read it, decide whether to stay. */
    method Pass(sub: Submission, turn: Turn, ghost s: State, ghost l: nat, ghost steps: seq<Step>)
      returns (leaving: bool, next: Submission, now: Time, ghost more: seq<Step>)
      requires store.Valid() && !Terminal(sub.status)
      requires Runs(pacing, s, steps) && Exec(pacing, s, steps).clock <= turn.recordedAt <= turn.rereadAt
      requires Drives(Exec(pacing, s, steps), l, store.rows, Deciding(sub), sub.eventId, claimer)
      modifies store
      ensures store.Valid() && next.eventId == sub.eventId
      ensures !leaving ==> !Terminal(next.status) && now == turn.rereadAt
      ensures Refines(pacing, s, more, l, store.rows, if leaving then Leaving else Deciding(next),
                      sub.eventId, claimer, now)
      ensures !leaving <==> MayStay(old(store.rows), sub, turn) && DueSoon(pacing, store.rows, sub.eventId, turn.rereadAt)
      ensures !leaving ==> sub.eventId in store.rows && next == store.rows[sub.eventId]
    {
      ghost var rows := store.rows;
      next := sub;
      ActJoins(pacing, s, steps, l, rows, sub, turn, claimer);
      LeavesRule(rows, sub, turn);
      leaving := Act(sub, turn);
      now := turn.recordedAt;
      more := steps + ActSteps(rows, l, sub, turn);
      if leaving {
        return;
      }
      now := turn.rereadAt;
      RereadJoins(pacing, s, more, l, store.rows, turn, sub.eventId, claimer, turn.recordedAt);
      more := more + RereadSteps(l, turn);
      leaving, next := Reread(sub, turn);
    }

    /** After acting: read the row again, and stay only if it is still open and due soon. */
    method Reread(sub: Submission, turn: Turn) returns (leaving: bool, next: Submission)
      requires store.Valid() && sub.eventId in store.rows
      ensures !leaving <==> turn.rereadOk && DueSoon(pacing, store.rows, sub.eventId, turn.rereadAt)
      ensures next == if turn.rereadOk then store.rows[sub.eventId] else sub
    {
      next := sub;
      var current := store.Get(!turn.rereadOk, sub.eventId);
      if current.Err? {
        return true, next;
      }
      next := current.value;
      if Terminal(next.status) {
        return true, next;
      }
      leaving := next.nextAttemptAt > turn.rereadAt + pacing.pollInterval;
    }

    /** One tick of renewLease: a failed renewal means the claim is lost. */
    method RenewLease(eventId: string, beat: Heartbeat) returns (lost: bool)
      requires store.Valid() && eventId in store.rows
      modifies store
      ensures store.Valid()
      ensures lost == Lost(old(store.rows), eventId, claimer, beat)
      ensures store.rows == AfterBeat(pacing, old(store.rows), eventId, claimer, beat)
    {
      var r := store.RenewClaim(!beat.ok, eventId, claimer, pacing.leaseDuration, beat.at);
      return r.Err?;
    }

    /** The renewal before a pass, if one is due. */
    method Renewed(sub: Submission, turn: Turn, since: Time, ghost s: State, ghost l: nat, ghost steps: seq<Step>)
      returns (lost: bool, now: Time, ghost more: seq<Step>)
      requires store.Valid() && since <= TurnStart(since, turn)
      requires Refines(pacing, s, steps, l, store.rows, Deciding(sub), sub.eventId, claimer, since)
      modifies store
      ensures store.Valid() && now == TurnStart(since, turn)
      ensures Refines(pacing, s, more, l, store.rows, if lost then Leaving else Deciding(sub), sub.eventId, claimer, now)
    {
      lost, now, more := false, since, steps;
      if turn.renewal.Some? {
        var beat := turn.renewal.value;
        ghost var rows := store.rows;
        lost := RenewLease(sub.eventId, beat);
        now := beat.at;
        BeatRefines(pacing, Exec(pacing, s, steps), l, sub, claimer, beat);
        RefinesJoin(pacing, s, steps, BeatSteps(rows, l, sub.eventId, claimer, beat), l, store.rows,
                    if lost then Leaving else Deciding(sub), sub.eventId, claimer, now);
        more := steps + BeatSteps(rows, l, sub.eventId, claimer, beat);
      }
    }

    /** Once round the loop: the renewal, if one is due, and a pass. */
    method GoRound(sub: Submission, turn: Turn, since: Time, ghost s: State, ghost l: nat, ghost steps: seq<Step>)
      returns (leaving: bool, next: Submission, now: Time, ghost more: seq<Step>)
      requires store.Valid() && !Terminal(sub.status)
      requires since <= TurnStart(since, turn) <= turn.recordedAt <= turn.rereadAt
      requires Refines(pacing, s, steps, l, store.rows, Deciding(sub), sub.eventId, claimer, since)
      modifies store
      ensures store.Valid() && next.eventId == sub.eventId
      ensures !leaving ==> !Terminal(next.status) && now == turn.rereadAt
      ensures Refines(pacing, s, more, l, store.rows, if leaving then Leaving else Deciding(next),
                      sub.eventId, claimer, now)
    {
      next := sub;
      leaving, now, more := Renewed(sub, turn, since, s, l, steps);
      if !leaving {
        leaving, next, now, more := Pass(sub, turn, s, l, more);
      }
    }

    /** The deferred release; when it fails, the claim is left to run out. */
    method Leave(eventId: string, now: Time, releaseOk: bool, ghost s: State, ghost l: nat, ghost steps: seq<Step>)
      returns (ghost more: seq<Step>)
      requires store.Valid()
      requires Refines(pacing, s, steps, l, store.rows, Leaving, eventId, claimer, now)
      modifies store
      ensures store.Valid()
      ensures Refines(pacing, s, more, l, store.rows, Gone, eventId, claimer, now)
      ensures releaseOk && claimer != "" ==> store.rows[eventId].claimedBy != claimer
    {
      ReleaseRefines(pacing, s, steps, l, store.rows, eventId, claimer, now, releaseOk);
      more := steps + [if releaseOk then Release(l) else Crash(l)];
      var released := store.ReleaseClaim(!releaseOk, eventId, claimer, now);
    }

    /**
     runLifecycle: renew, act, re-read, decide whether to stay, and release on the
     way out. The context is cancelled when the given turns run out. The ghost
     result is the run of the transition system that the loop has carried out.
     */
    method RunLifecycle(initial: Submission, startedAt: Time, turns: seq<Turn>, releaseOk: bool,
                        ghost s: State, ghost l: nat)
      returns (ghost steps: seq<Step>)
      requires store.Valid()
      requires Drives(s, l, store.rows, Deciding(initial), initial.eventId, claimer)
      requires s.clock == startedAt && Ordered(startedAt, turns)
      modifies store
      ensures store.Valid()
      ensures Runs(pacing, s, steps)
      ensures Refines(pacing, s, steps, l, store.rows, Gone, initial.eventId, claimer, Exec(pacing, s, steps).clock)
      ensures releaseOk && claimer != "" ==> store.rows[initial.eventId].claimedBy != claimer
    {
      var sub := initial;
      var now: Time := startedAt;
      var i := 0;
      steps := [];
      var leaving := Terminal(sub.status);
      if leaving {
        AbandonRefines(pacing, s, steps, l, store.rows, sub, claimer, now);
        steps := steps + [Abandon(l)];
      }
      while i < |turns| && !leaving
        invariant 0 <= i <= |turns|
        invariant store.Valid() && sub.eventId == initial.eventId
        invariant !leaving ==> !Terminal(sub.status) && Ordered(now, turns[i..])
        invariant Refines(pacing, s, steps, l, store.rows, if leaving then Leaving else Deciding(sub),
                          initial.eventId, claimer, now)
        decreases |turns| - i
      {
        OrderedNext(now, turns, i);
        leaving, sub, now, steps := GoRound(sub, turns[i], now, s, l, steps);
        i := i + 1;
      }
      if !leaving {
        AbandonRefines(pacing, s, steps, l, store.rows, sub, claimer, now);
        steps := steps + [Abandon(l)];
      }
      steps := Leave(initial.eventId, now, releaseOk, s, l, steps);
    }
  }
}
