/**
 At most one successful submit per row, for runs in which every submit falls
 inside its lifecycle's own lease; and the four ways in which a late renewal or
 release, compared by claimer only, can break that.
 */
module AtMostOnce {
  import opened Submissions
  import opened Mutators
  import opened StoreInMem
  import opened Protocol
  import opened Safety

  /** How many submits of this row NAV has answered with a transaction id. */
  function Successes(attempts: seq<Attempt>, id: string): nat {
    if attempts == [] then 0
    else
      var last := attempts[|attempts| - 1];
      Successes(attempts[..|attempts| - 1], id) + if last.eventId == id && last.answer.Some? then 1 else 0
  }

  /** Between NAV's answer and the UpdateStatus that records it. */
  predicate InWindow(phase: Phase) {
    phase.Recording? && phase.command.SubmitOk?
  }

  /** By its own reckoning, from its claim and its successful renewals, the lifecycle still holds its lease. */
  predicate InOwnLease(s: State, life: Lifecycle) {
    s.clock < life.leaseEnd
  }

  ghost predicate LeaseCoversWindow(s: State) {
    forall l :: 0 <= l < |s.lifecycles| && InWindow(s.lifecycles[l].phase) ==> InOwnLease(s, s.lifecycles[l])
  }

  predicate LeavesWindow(s: State, step: Step) {
    match step
    case LoseUpdate(l) => l < |s.lifecycles| && InWindow(s.lifecycles[l].phase)
    case Abandon(l) => l < |s.lifecycles| && InWindow(s.lifecycles[l].phase)
    case Crash(l) => l < |s.lifecycles| && InWindow(s.lifecycles[l].phase)
    case _ => false
  }

  /** The step keeps every submit window inside the submitter's own lease and does not break one off. */
  ghost predicate Leased(pacing: Pacing, s: State, step: Step)
    requires Enabled(pacing, s, step)
  {
    LeaseCoversWindow(Do(pacing, s, step)) && !LeavesWindow(s, step)
  }

  ghost predicate LeasedRun(pacing: Pacing, s: State, steps: seq<Step>)
    requires Runs(pacing, s, steps)
    decreases |steps|
  {
    steps == [] || (Leased(pacing, s, steps[0]) && LeasedRun(pacing, Do(pacing, s, steps[0]), steps[1..]))
  }

  // ---------- interference ----------

  /** Still in its loop, and inside its own lease. */
  predicate Working(s: State, life: Lifecycle) {
    Active(life.phase) && InOwnLease(s, life)
  }

  /** Holds a snapshot on which it may yet call NAV. */
  predicate PlansSubmit(phase: Phase) {
    (phase.Deciding? || phase.Cleared?) && phase.snap.status == Pending
  }

  predicate PendingRow(s: State, id: string) {
    id in s.rows && s.rows[id].status == Pending
  }

  /** The store lets lifecycle l renew or release: it compares the claimer and nothing else. */
  predicate Accepts(s: State, l: nat) {
    Running(s, l) && s.rows[s.lifecycles[l].eventId].claimedBy == s.lifecycles[l].claimer
  }

  /** Another lifecycle is working on the row of l. */
  predicate WorkingTwin(s: State, l: nat, m: nat) {
    && l < |s.lifecycles| && m < |s.lifecycles| && m != l
    && s.lifecycles[m].eventId == s.lifecycles[l].eventId
    && Working(s, s.lifecycles[m])
  }

  /** A renewal at the given time puts a lifecycle that plans a submit back inside a lease. */
  predicate RevivesPlan(pacing: Pacing, s: State, l: nat, at: Time) {
    l < |s.lifecycles| && PlansSubmit(s.lifecycles[l].phase) && s.clock < at + pacing.leaseDuration
  }

  /** A renewal of l makes it a second worker, or cuts the lease of m short. */
  predicate Crowds(pacing: Pacing, s: State, l: nat, m: nat, at: Time) {
    WorkingTwin(s, l, m) &&
    (Active(s.lifecycles[l].phase) || at + pacing.leaseDuration < s.lifecycles[m].leaseEnd)
  }

  datatype Interference =
    | ReleaseUnderTwin
    | RenewBesideTwin
    | RenewSecondPlan
    | RenewAnsweredPlan
    | LateRelease
    | LateRenewal

  const INTERFERENCES: set<Interference> := {
    ReleaseUnderTwin, RenewBesideTwin, RenewSecondPlan, RenewAnsweredPlan
  }

  /** The two that the caller can rule out by looking at its own lease before it calls. */
  const LATE_CALLS: set<Interference> := { LateRelease, LateRenewal }

  /** The lifecycle's own lease has run out. */
  predicate Late(s: State, l: nat) {
    l < |s.lifecycles| && !InOwnLease(s, s.lifecycles[l])
  }

  /**
   The steps that endanger the next submit: releasing a pending row another
   lifecycle is working on; renewing beside such a lifecycle; renewing a stale plan
   to submit beside another one; and renewing one after NAV has answered a submit.
   The last two kinds say nothing of others: a release or a renewal outside the
   caller's own lease, whatever the store makes of it.
   */
  ghost predicate Interferes(pacing: Pacing, s: State, step: Step, kind: Interference) {
    match kind
    case ReleaseUnderTwin =>
      step.Release? && Accepts(s, step.l) && PendingRow(s, s.lifecycles[step.l].eventId) &&
      exists m: nat :: WorkingTwin(s, step.l, m)
    case RenewBesideTwin =>
      step.Renew? && Accepts(s, step.l) && PendingRow(s, s.lifecycles[step.l].eventId) &&
      exists m: nat :: Crowds(pacing, s, step.l, m, step.at)
    case RenewSecondPlan =>
      step.Renew? && Accepts(s, step.l) && !PendingRow(s, s.lifecycles[step.l].eventId) &&
      RevivesPlan(pacing, s, step.l, step.at) &&
      exists m: nat :: WorkingTwin(s, step.l, m) && PlansSubmit(s.lifecycles[m].phase)
    case RenewAnsweredPlan =>
      step.Renew? && Accepts(s, step.l) && RevivesPlan(pacing, s, step.l, step.at) &&
      Successes(s.attempts, s.lifecycles[step.l].eventId) > 0
    case LateRelease => step.Release? && Late(s, step.l)
    case LateRenewal => step.Renew? && Late(s, step.l)
  }

  /** The step interferes in none of the given ways. */
  ghost predicate Avoids(pacing: Pacing, s: State, step: Step, kinds: set<Interference>) {
    forall kind :: kind in kinds ==> !Interferes(pacing, s, step, kind)
  }

  ghost predicate AvoidingRun(pacing: Pacing, s: State, steps: seq<Step>, kinds: set<Interference>)
    requires Runs(pacing, s, steps)
    decreases |steps|
  {
    steps == [] ||
    (Avoids(pacing, s, steps[0], kinds) && AvoidingRun(pacing, Do(pacing, s, steps[0]), steps[1..], kinds))
  }

  // ---------- the invariant ----------

  /** A lifecycle working on a pending row is the recorded holder, for as long as it thinks. */
  predicate HoldsPending(s: State, life: Lifecycle) {
    Working(s, life) && PendingRow(s, life.eventId) ==>
      s.rows[life.eventId].claimedBy == life.claimer && life.leaseEnd <= s.rows[life.eventId].claimedUntil
  }

  predicate PlanIsFirst(s: State, life: Lifecycle) {
    Working(s, life) && PlansSubmit(life.phase) ==> Successes(s.attempts, life.eventId) == 0
  }

  ghost predicate LifeOk(s: State, life: Lifecycle) {
    life.claimer != "" && HoldsPending(s, life) && PlanIsFirst(s, life)
  }

  /** Both are working on one row, and either may go on to submit it. */
  predicate Clash(s: State, a: Lifecycle, b: Lifecycle) {
    && a.eventId == b.eventId && Working(s, a) && Working(s, b)
    && (PendingRow(s, a.eventId) || (PlansSubmit(a.phase) && PlansSubmit(b.phase)))
  }

  ghost predicate WindowOpen(s: State, id: string) {
    exists l :: 0 <= l < |s.lifecycles| && s.lifecycles[l].eventId == id && InWindow(s.lifecycles[l].phase)
  }

  /** NAV has answered at most one submit of the row, and its answer is recorded or about to be. */
  ghost predicate CountOk(s: State, id: string) {
    && Successes(s.attempts, id) <= 1
    && (Successes(s.attempts, id) > 0 ==> id in s.rows && (s.rows[id].status != Pending || WindowOpen(s, id)))
  }

  ghost predicate Clean(s: State) {
    && (forall l :: 0 <= l < |s.lifecycles| ==> LifeOk(s, s.lifecycles[l]))
    && (forall l, m :: 0 <= l < m < |s.lifecycles| ==> !Clash(s, s.lifecycles[l], s.lifecycles[m]))
    && (forall id :: CountOk(s, id))
  }

  // ---------- what one step does to lifecycles, claims and counts ----------

  lemma LifeChange(pacing: Pacing, s: State, step: Step, l: nat)
    requires Enabled(pacing, s, step) && l < |s.lifecycles|
    ensures var was, now := s.lifecycles[l], Do(pacing, s, step).lifecycles[l];
            && now.eventId == was.eventId && now.claimer == was.claimer
            && (Active(now.phase) ==> Active(was.phase))
            && (was.phase == Gone ==> now.phase == Gone)
            && (now.leaseEnd != was.leaseEnd ==>
                  step.Renew? && step.l == l && Accepts(s, l) && now.leaseEnd == step.at + pacing.leaseDuration)
            && (step.Renew? ==> now.phase == was.phase)
            && s.clock <= Do(pacing, s, step).clock
            && (step.Renew? ==> s.clock == Do(pacing, s, step).clock)
  {
  }

  /** A lifecycle starts working by claiming, or again by renewing. */
  lemma WorkingChange(pacing: Pacing, s: State, step: Step, l: nat)
    requires Enabled(pacing, s, step) && l < |s.lifecycles|
    requires Working(Do(pacing, s, step), Do(pacing, s, step).lifecycles[l])
    ensures Working(s, s.lifecycles[l]) ||
            (step.Renew? && step.l == l && Accepts(s, l) && s.clock < step.at + pacing.leaseDuration)
  {
    LifeChange(pacing, s, step, l);
  }

  /** A lifecycle comes to plan a submit by reading a pending row. */
  lemma PlanChange(pacing: Pacing, s: State, step: Step, l: nat)
    requires Enabled(pacing, s, step) && l < |s.lifecycles|
    requires PlansSubmit(Do(pacing, s, step).lifecycles[l].phase)
    ensures PlansSubmit(s.lifecycles[l].phase) ||
            (step.Reread? && s.lifecycles[l].phase == Recorded && PendingRow(s, s.lifecycles[l].eventId))
  {
  }

  lemma PendingWasPending(pacing: Pacing, s: State, step: Step, id: string)
    requires Enabled(pacing, s, step) && id in s.rows && PendingRow(Do(pacing, s, step), id)
    ensures PendingRow(s, id)
  {
    StepKeepsRows(pacing, s, step);
    assert Evolves(s.rows[id], Do(pacing, s, step).rows[id]);
  }

  /** How a step moves the claim on a row. */
  lemma ClaimChange(pacing: Pacing, s: State, step: Step, id: string)
    requires Enabled(pacing, s, step) && id in s.rows
    ensures var t := Do(pacing, s, step);
            && id in t.rows
            && (t.rows[id].claimedBy != s.rows[id].claimedBy || t.rows[id].claimedUntil != s.rows[id].claimedUntil ==>
                  match step
                  case Claim(other, _, _) => other == id
                  case Renew(l, at) => Accepts(s, l) && s.lifecycles[l].eventId == id &&
                                       t.rows[id].claimedBy == s.rows[id].claimedBy &&
                                       t.rows[id].claimedUntil == at + pacing.leaseDuration
                  case Release(l) => Accepts(s, l) && s.lifecycles[l].eventId == id
                  case _ => false)
  {
    if step.Record? {
      var life := s.lifecycles[step.l];
      if Mutated(pacing, life.phase.command, s.rows[life.eventId], s.clock).Some? {
        CommandEvolves(pacing, life.phase.command, s.rows[life.eventId], s.clock);
      }
    }
  }

  /** A newcomer claims a row that nobody holds, and plans a submit only if that row is pending. */
  lemma Newcomer(pacing: Pacing, s: State, step: Step)
    requires Enabled(pacing, s, step) && |Do(pacing, s, step).lifecycles| > |s.lifecycles|
    ensures var t := Do(pacing, s, step);
            && step.Claim? && |t.lifecycles| == |s.lifecycles| + 1 && t.clock == s.clock && t.attempts == s.attempts
            && var life := t.lifecycles[|s.lifecycles|];
               && life.eventId == step.eventId && life.claimer == step.claimer != ""
               && t.rows[step.eventId].claimedBy == life.claimer
               && t.rows[step.eventId].claimedUntil == life.leaseEnd
               && step.eventId in s.rows && !Held(s.rows[step.eventId], s.clock)
               && (PlansSubmit(life.phase) ==> PendingRow(s, step.eventId))
               && (PendingRow(t, step.eventId) ==> PendingRow(s, step.eventId))
  {
  }

  lemma SuccessesAppend(attempts: seq<Attempt>, attempt: Attempt, id: string)
    ensures Successes(attempts + [attempt], id) ==
            Successes(attempts, id) + if attempt.eventId == id && attempt.answer.Some? then 1 else 0
  {
    assert (attempts + [attempt])[..|attempts|] == attempts;
  }

  /** The number of successes changes only when a cleared lifecycle's submit is answered. */
  lemma SuccessChange(pacing: Pacing, s: State, step: Step, id: string)
    requires Consistent(s) && Enabled(pacing, s, step)
    ensures var t := Do(pacing, s, step);
            Successes(t.attempts, id) == Successes(s.attempts, id) ||
            (&& step.Submit? && s.lifecycles[step.l].eventId == id && PlansSubmit(s.lifecycles[step.l].phase)
             && InWindow(t.lifecycles[step.l].phase)
             && Successes(t.attempts, id) == Successes(s.attempts, id) + 1)
  {
    if step.Submit? {
      var t := Do(pacing, s, step);
      var life := s.lifecycles[step.l];
      assert PhaseOk(s, life.eventId, life.phase);
      SuccessesAppend(s.attempts, t.attempts[|s.attempts|], id);
    }
  }

  // ---------- consequences of the invariant ----------

  lemma NoClash(s: State, l: nat, m: nat)
    requires Clean(s) && l < |s.lifecycles| && m < |s.lifecycles| && l != m
    ensures !Clash(s, s.lifecycles[l], s.lifecycles[m])
  {
    if m < l {
      assert !Clash(s, s.lifecycles[m], s.lifecycles[l]);
    }
  }

  /** On a pending row there is one worker at most: any other lifecycle is past its lease or on its way out. */
  lemma WorkerIsAlone(s: State, l: nat, m: nat)
    requires Clean(s) && l < |s.lifecycles| && m < |s.lifecycles|
    requires s.lifecycles[l].eventId == s.lifecycles[m].eventId && PendingRow(s, s.lifecycles[l].eventId)
    requires Working(s, s.lifecycles[l]) && Working(s, s.lifecycles[m])
    ensures l == m
    ensures Held(s.rows[s.lifecycles[l].eventId], s.clock)
    ensures s.rows[s.lifecycles[l].eventId].claimedBy == s.lifecycles[l].claimer
  {
    assert LifeOk(s, s.lifecycles[l]);
    if l != m {
      NoClash(s, l, m);
    }
  }

  lemma NoSecondPlanner(s: State, l: nat, m: nat)
    requires Clean(s) && l < |s.lifecycles| && m < |s.lifecycles|
    requires s.lifecycles[l].eventId == s.lifecycles[m].eventId
    requires Working(s, s.lifecycles[l]) && Working(s, s.lifecycles[m])
    requires PlansSubmit(s.lifecycles[l].phase) && PlansSubmit(s.lifecycles[m].phase)
    ensures l == m
  {
    if l != m {
      NoClash(s, l, m);
    }
  }

  /** A success on a row that is still pending has its window open in a worker's hands. */
  lemma WindowHolder(s: State, id: string) returns (m: nat)
    requires Clean(s) && LeaseCoversWindow(s) && PendingRow(s, id) && Successes(s.attempts, id) > 0
    ensures m < |s.lifecycles| && s.lifecycles[m].eventId == id && InWindow(s.lifecycles[m].phase)
    ensures Working(s, s.lifecycles[m])
  {
    assert CountOk(s, id);
    m :| 0 <= m < |s.lifecycles| && s.lifecycles[m].eventId == id && InWindow(s.lifecycles[m].phase);
  }

  /** A worker on a pending row that is not itself recording an answer knows there is none. */
  lemma WorkerKnowsNone(s: State, l: nat)
    requires Clean(s) && LeaseCoversWindow(s) && l < |s.lifecycles|
    requires Working(s, s.lifecycles[l]) && !InWindow(s.lifecycles[l].phase)
    requires PendingRow(s, s.lifecycles[l].eventId)
    ensures Successes(s.attempts, s.lifecycles[l].eventId) == 0
  {
    if Successes(s.attempts, s.lifecycles[l].eventId) > 0 {
      var m := WindowHolder(s, s.lifecycles[l].eventId);
      WorkerIsAlone(s, l, m);
    }
  }

  /** So does whoever finds a pending row free. */
  lemma FreeMeansNone(s: State, id: string)
    requires Clean(s) && LeaseCoversWindow(s) && PendingRow(s, id) && !Held(s.rows[id], s.clock)
    ensures Successes(s.attempts, id) == 0
  {
    if Successes(s.attempts, id) > 0 {
      var m := WindowHolder(s, id);
      WorkerIsAlone(s, m, m);
    }
  }

  // ---------- leases ----------

  lemma RenewedHold(pacing: Pacing, s: State, step: Step, l: nat)
    requires Enabled(pacing, s, step) && Clean(s) && !Interferes(pacing, s, step, RenewBesideTwin)
    requires step.Renew? && l < |s.lifecycles|
    ensures HoldsPending(Do(pacing, s, step), Do(pacing, s, step).lifecycles[l])
  {
    var t := Do(pacing, s, step);
    var id := s.lifecycles[l].eventId;
    assert LifeOk(s, s.lifecycles[l]);
    if Working(t, t.lifecycles[l]) && PendingRow(t, id) && l != step.l {
      if s.lifecycles[step.l].eventId == id && Accepts(s, step.l) {
        assert WorkingTwin(s, step.l, l);
        assert !Crowds(pacing, s, step.l, l, step.at);
      }
    }
  }

  lemma ReleasedHold(pacing: Pacing, s: State, step: Step, l: nat)
    requires Enabled(pacing, s, step) && Clean(s) && !Interferes(pacing, s, step, ReleaseUnderTwin)
    requires step.Release? && l < |s.lifecycles|
    ensures HoldsPending(Do(pacing, s, step), Do(pacing, s, step).lifecycles[l])
  {
    var t := Do(pacing, s, step);
    var id := s.lifecycles[l].eventId;
    assert LifeOk(s, s.lifecycles[l]);
    if Working(t, t.lifecycles[l]) && PendingRow(t, id) && s.lifecycles[step.l].eventId == id && Accepts(s, step.l) {
      assert WorkingTwin(s, step.l, l);
    }
  }

  /** Claims reach free rows only, so nobody working on a pending row loses it to one. */
  lemma ClaimedHold(pacing: Pacing, s: State, step: Step, l: nat)
    requires Enabled(pacing, s, step) && Clean(s) && step.Claim? && l < |s.lifecycles|
    ensures HoldsPending(Do(pacing, s, step), Do(pacing, s, step).lifecycles[l])
  {
    Newcomer(pacing, s, step);
    if Working(s, s.lifecycles[l]) && PendingRow(s, s.lifecycles[l].eventId) {
      WorkerIsAlone(s, l, l);
    }
  }

  lemma StepKeepsHold(pacing: Pacing, s: State, step: Step, l: nat)
    requires Consistent(s) && Enabled(pacing, s, step) && Clean(s) && Avoids(pacing, s, step, INTERFERENCES)
    requires l < |s.lifecycles|
    ensures HoldsPending(Do(pacing, s, step), Do(pacing, s, step).lifecycles[l])
  {
    if step.Renew? {
      RenewedHold(pacing, s, step, l);
    } else if step.Release? {
      ReleasedHold(pacing, s, step, l);
    } else if step.Claim? {
      ClaimedHold(pacing, s, step, l);
    } else {
      UndisturbedHold(pacing, s, step, l);
    }
  }

  lemma UndisturbedHold(pacing: Pacing, s: State, step: Step, l: nat)
    requires Consistent(s) && Enabled(pacing, s, step) && Clean(s) && l < |s.lifecycles|
    requires !step.Renew? && !step.Release? && !step.Claim?
    ensures HoldsPending(Do(pacing, s, step), Do(pacing, s, step).lifecycles[l])
  {
    var t := Do(pacing, s, step);
    var id := s.lifecycles[l].eventId;
    assert id in s.rows;
    assert LifeOk(s, s.lifecycles[l]);
    LifeChange(pacing, s, step, l);
    ClaimChange(pacing, s, step, id);
    if Working(t, t.lifecycles[l]) && PendingRow(t, id) {
      WorkingChange(pacing, s, step, l);
      PendingWasPending(pacing, s, step, id);
    }
  }

  // ---------- plans ----------

  /** Whoever works on a row and plans to submit it had no predecessor that succeeded, before the step. */
  lemma PlannerWasFirst(pacing: Pacing, s: State, step: Step, l: nat)
    requires Clean(s) && LeaseCoversWindow(s) && Enabled(pacing, s, step)
    requires !Interferes(pacing, s, step, RenewAnsweredPlan)
    requires l < |s.lifecycles|
    requires Working(Do(pacing, s, step), Do(pacing, s, step).lifecycles[l])
    requires PlansSubmit(Do(pacing, s, step).lifecycles[l].phase)
    ensures Successes(s.attempts, s.lifecycles[l].eventId) == 0
  {
    WorkingChange(pacing, s, step, l);
    PlanChange(pacing, s, step, l);
    assert LifeOk(s, s.lifecycles[l]);
    if !PlansSubmit(s.lifecycles[l].phase) {
      WorkerKnowsNone(s, l);
    } else if !Working(s, s.lifecycles[l]) {
      assert RevivesPlan(pacing, s, l, step.at);
    }
  }

  /** A submit that NAV answers is made by a working planner. */
  lemma SubmitterPlanned(pacing: Pacing, s: State, step: Step)
    requires Consistent(s) && Enabled(pacing, s, step) && Leased(pacing, s, step)
    requires step.Submit? && InWindow(Do(pacing, s, step).lifecycles[step.l].phase)
    ensures Working(s, s.lifecycles[step.l]) && PlansSubmit(s.lifecycles[step.l].phase)
  {
    var life := s.lifecycles[step.l];
    LifeChange(pacing, s, step, step.l);
    assert PhaseOk(s, life.eventId, life.phase);
  }

  lemma StepKeepsPlan(pacing: Pacing, s: State, step: Step, l: nat)
    requires Consistent(s) && Clean(s) && LeaseCoversWindow(s) && Enabled(pacing, s, step) && Leased(pacing, s, step)
    requires Avoids(pacing, s, step, INTERFERENCES) && l < |s.lifecycles|
    ensures PlanIsFirst(Do(pacing, s, step), Do(pacing, s, step).lifecycles[l])
  {
    var t := Do(pacing, s, step);
    var id := s.lifecycles[l].eventId;
    LifeChange(pacing, s, step, l);
    if Working(t, t.lifecycles[l]) && PlansSubmit(t.lifecycles[l].phase) {
      PlannerWasFirst(pacing, s, step, l);
      SuccessChange(pacing, s, step, id);
      if Successes(t.attempts, id) > 0 {
        SubmitLeavesNoPlan(pacing, s, step, l);
      }
    }
  }

  /** An answered submit leaves nobody at work on the row with another plan to submit it. */
  lemma SubmitLeavesNoPlan(pacing: Pacing, s: State, step: Step, l: nat)
    requires Consistent(s) && Clean(s) && Enabled(pacing, s, step) && Leased(pacing, s, step)
    requires step.Submit? && InWindow(Do(pacing, s, step).lifecycles[step.l].phase)
    requires l < |s.lifecycles| && s.lifecycles[l].eventId == s.lifecycles[step.l].eventId
    ensures !(Working(Do(pacing, s, step), Do(pacing, s, step).lifecycles[l]) &&
              PlansSubmit(Do(pacing, s, step).lifecycles[l].phase))
  {
    var now := Do(pacing, s, step).lifecycles[l];
    SubmitterPlanned(pacing, s, step);
    if Working(Do(pacing, s, step), now) && PlansSubmit(now.phase) {
      WorkingChange(pacing, s, step, l);
      PlanChange(pacing, s, step, l);
      NoSecondPlanner(s, l, step.l);
    }
  }

  // ---------- no clashes ----------

  /** How one lifecycle at work after a step was already at work before it, with the same plan or none. */
  ghost predicate KeepsWorking(s: State, t: State, l: nat) {
    && l < |s.lifecycles| && l < |t.lifecycles|
    && t.lifecycles[l].eventId == s.lifecycles[l].eventId
    && (Working(t, t.lifecycles[l]) ==> Working(s, s.lifecycles[l]))
    && (PlansSubmit(t.lifecycles[l].phase) ==>
          PlansSubmit(s.lifecycles[l].phase) || PendingRow(s, s.lifecycles[l].eventId))
    && (PendingRow(t, s.lifecycles[l].eventId) ==> PendingRow(s, s.lifecycles[l].eventId))
  }

  lemma KeptApart(s: State, t: State, l: nat, m: nat)
    requires Clean(s) && KeepsWorking(s, t, l) && KeepsWorking(s, t, m) && l != m
    ensures !Clash(t, t.lifecycles[l], t.lifecycles[m])
  {
    NoClash(s, l, m);
  }

  lemma StepKeepsWorking(pacing: Pacing, s: State, step: Step, l: nat)
    requires Consistent(s) && Enabled(pacing, s, step) && l < |s.lifecycles| && !(step.Renew? && step.l == l)
    ensures KeepsWorking(s, Do(pacing, s, step), l)
  {
    var t := Do(pacing, s, step);
    LifeChange(pacing, s, step, l);
    assert s.lifecycles[l].eventId in s.rows;
    if PendingRow(t, s.lifecycles[l].eventId) {
      PendingWasPending(pacing, s, step, s.lifecycles[l].eventId);
    }
    if PlansSubmit(t.lifecycles[l].phase) {
      PlanChange(pacing, s, step, l);
    }
  }

  lemma RenewKeepsPending(pacing: Pacing, s: State, step: Step, id: string)
    requires Enabled(pacing, s, step) && step.Renew?
    ensures PendingRow(Do(pacing, s, step), id) == PendingRow(s, id)
    ensures !Accepts(s, step.l) ==> Do(pacing, s, step) == s
  {
  }

  /** A renewal that does not interfere brings nobody beside the renewed lifecycle. */
  lemma RenewKeepsApart(pacing: Pacing, s: State, step: Step, m: nat)
    requires Clean(s) && Enabled(pacing, s, step) && Avoids(pacing, s, step, INTERFERENCES)
    requires step.Renew? && m < |s.lifecycles| && m != step.l
    ensures !Clash(Do(pacing, s, step), Do(pacing, s, step).lifecycles[step.l], Do(pacing, s, step).lifecycles[m])
  {
    var t, l := Do(pacing, s, step), step.l;
    NoClash(s, l, m);
    RenewKeepsPending(pacing, s, step, s.lifecycles[l].eventId);
    if Accepts(s, l) && WorkingTwin(s, l, m) {
      assert !Interferes(pacing, s, step, RenewBesideTwin) && !Interferes(pacing, s, step, RenewSecondPlan);
      assert PendingRow(s, s.lifecycles[l].eventId) ==> !Crowds(pacing, s, l, m, step.at);
    }
  }

  lemma OldPairApart(pacing: Pacing, s: State, step: Step, l: nat, m: nat)
    requires Consistent(s) && Clean(s) && Enabled(pacing, s, step) && Avoids(pacing, s, step, INTERFERENCES)
    requires l < |s.lifecycles| && m < |s.lifecycles| && l != m
    ensures !Clash(Do(pacing, s, step), Do(pacing, s, step).lifecycles[l], Do(pacing, s, step).lifecycles[m])
  {
    if step.Renew? && step.l == l {
      RenewKeepsApart(pacing, s, step, m);
    } else if step.Renew? && step.l == m {
      RenewKeepsApart(pacing, s, step, l);
    } else {
      StepKeepsWorking(pacing, s, step, l);
      StepKeepsWorking(pacing, s, step, m);
      KeptApart(s, Do(pacing, s, step), l, m);
    }
  }

  // ---------- newcomers ----------

  lemma NewcomerOk(pacing: Pacing, s: State, step: Step)
    requires Clean(s) && LeaseCoversWindow(s) && Enabled(pacing, s, step)
    requires |Do(pacing, s, step).lifecycles| > |s.lifecycles|
    ensures LifeOk(Do(pacing, s, step), Do(pacing, s, step).lifecycles[|s.lifecycles|])
  {
    Newcomer(pacing, s, step);
    if PendingRow(s, step.eventId) {
      FreeMeansNone(s, step.eventId);
    }
  }

  lemma NewcomerApart(pacing: Pacing, s: State, step: Step, l: nat)
    requires Clean(s) && Enabled(pacing, s, step)
    requires |Do(pacing, s, step).lifecycles| > |s.lifecycles| && l < |s.lifecycles|
    ensures !Clash(Do(pacing, s, step), Do(pacing, s, step).lifecycles[l],
                   Do(pacing, s, step).lifecycles[|s.lifecycles|])
  {
    var t := Do(pacing, s, step);
    Newcomer(pacing, s, step);
    LifeChange(pacing, s, step, l);
    if Clash(t, t.lifecycles[l], t.lifecycles[|s.lifecycles|]) {
      WorkingChange(pacing, s, step, l);
      WorkerIsAlone(s, l, l);
    }
  }

  // ---------- counts ----------

  lemma SubmitIsFirst(pacing: Pacing, s: State, step: Step)
    requires Consistent(s) && Clean(s) && Enabled(pacing, s, step) && Leased(pacing, s, step)
    requires step.Submit? && InWindow(Do(pacing, s, step).lifecycles[step.l].phase)
    ensures Successes(s.attempts, s.lifecycles[step.l].eventId) == 0
  {
    SubmitterPlanned(pacing, s, step);
    assert LifeOk(s, s.lifecycles[step.l]);
  }

  lemma AtMostOneStays(pacing: Pacing, s: State, step: Step, id: string)
    requires Consistent(s) && Clean(s)
    requires Enabled(pacing, s, step) && Leased(pacing, s, step)
    ensures Successes(Do(pacing, s, step).attempts, id) <= 1
  {
    assert CountOk(s, id);
    SuccessChange(pacing, s, step, id);
    if Successes(Do(pacing, s, step).attempts, id) != Successes(s.attempts, id) {
      SubmitIsFirst(pacing, s, step);
    }
  }

  /** Recording an open window's id takes a pending row out of pending. */
  lemma RecordClosesWindow(pacing: Pacing, s: State, step: Step)
    requires Enabled(pacing, s, step) && step.Record? && InWindow(s.lifecycles[step.l].phase)
    ensures Do(pacing, s, step).rows[s.lifecycles[step.l].eventId].status != Pending
  {
  }

  lemma WindowChange(pacing: Pacing, s: State, step: Step, l: nat)
    requires Enabled(pacing, s, step) && !LeavesWindow(s, step)
    requires l < |s.lifecycles| && InWindow(s.lifecycles[l].phase)
    ensures InWindow(Do(pacing, s, step).lifecycles[l].phase) || (step.Record? && step.l == l)
  {
  }

  lemma WindowSurvives(pacing: Pacing, s: State, step: Step, id: string)
    requires Enabled(pacing, s, step) && !LeavesWindow(s, step)
    requires id in s.rows && WindowOpen(s, id)
    ensures WindowOpen(Do(pacing, s, step), id) ||
            (id in Do(pacing, s, step).rows && Do(pacing, s, step).rows[id].status != Pending)
  {
    var l :| 0 <= l < |s.lifecycles| && s.lifecycles[l].eventId == id && InWindow(s.lifecycles[l].phase);
    LifeChange(pacing, s, step, l);
    WindowChange(pacing, s, step, l);
    if step.Record? && step.l == l {
      RecordClosesWindow(pacing, s, step);
    }
  }

  lemma SubmitOpensWindow(pacing: Pacing, s: State, step: Step)
    requires Enabled(pacing, s, step) && step.Submit? && InWindow(Do(pacing, s, step).lifecycles[step.l].phase)
    ensures WindowOpen(Do(pacing, s, step), s.lifecycles[step.l].eventId)
  {
    LifeChange(pacing, s, step, step.l);
  }

  lemma SuccessAccountedFor(pacing: Pacing, s: State, step: Step, id: string)
    requires Consistent(s) && CountOk(s, id)
    requires Enabled(pacing, s, step) && !LeavesWindow(s, step)
    requires Successes(Do(pacing, s, step).attempts, id) > 0
    ensures var t := Do(pacing, s, step);
            id in t.rows && (t.rows[id].status != Pending || WindowOpen(t, id))
  {
    StepKeepsRows(pacing, s, step);
    SuccessChange(pacing, s, step, id);
    if Successes(s.attempts, id) == 0 {
      SubmitOpensWindow(pacing, s, step);
    } else if s.rows[id].status == Pending {
      WindowSurvives(pacing, s, step, id);
    } else {
      assert Evolves(s.rows[id], Do(pacing, s, step).rows[id]);
    }
  }

  lemma StepKeepsCount(pacing: Pacing, s: State, step: Step, id: string)
    requires Consistent(s) && Clean(s) && Enabled(pacing, s, step) && Leased(pacing, s, step)
    ensures CountOk(Do(pacing, s, step), id)
  {
    AtMostOneStays(pacing, s, step, id);
    assert CountOk(s, id);
    if Successes(Do(pacing, s, step).attempts, id) > 0 {
      SuccessAccountedFor(pacing, s, step, id);
    }
  }

  // ---------- every step ----------

  lemma StepKeepsLife(pacing: Pacing, s: State, step: Step, l: nat)
    requires Consistent(s) && Clean(s) && LeaseCoversWindow(s) && Enabled(pacing, s, step) && Leased(pacing, s, step)
    requires Avoids(pacing, s, step, INTERFERENCES) && l < |Do(pacing, s, step).lifecycles|
    ensures LifeOk(Do(pacing, s, step), Do(pacing, s, step).lifecycles[l])
  {
    if l < |s.lifecycles| {
      assert LifeOk(s, s.lifecycles[l]);
      LifeChange(pacing, s, step, l);
      StepKeepsHold(pacing, s, step, l);
      StepKeepsPlan(pacing, s, step, l);
    } else {
      Newcomer(pacing, s, step);
      NewcomerOk(pacing, s, step);
    }
  }

  lemma StepKeepsPair(pacing: Pacing, s: State, step: Step, l: nat, m: nat)
    requires Consistent(s) && Clean(s) && Enabled(pacing, s, step) && Avoids(pacing, s, step, INTERFERENCES)
    requires l < m < |Do(pacing, s, step).lifecycles|
    ensures !Clash(Do(pacing, s, step), Do(pacing, s, step).lifecycles[l], Do(pacing, s, step).lifecycles[m])
  {
    if m < |s.lifecycles| {
      OldPairApart(pacing, s, step, l, m);
    } else {
      Newcomer(pacing, s, step);
      NewcomerApart(pacing, s, step, l);
    }
  }

  lemma StepKeepsClean(pacing: Pacing, s: State, step: Step)
    requires Consistent(s) && Clean(s) && LeaseCoversWindow(s) && Enabled(pacing, s, step) && Leased(pacing, s, step)
    requires Avoids(pacing, s, step, INTERFERENCES)
    ensures Clean(Do(pacing, s, step))
  {
    var t := Do(pacing, s, step);
    forall l | 0 <= l < |t.lifecycles|
      ensures LifeOk(t, t.lifecycles[l])
    {
      StepKeepsLife(pacing, s, step, l);
    }
    forall l, m | 0 <= l < m < |t.lifecycles|
      ensures !Clash(t, t.lifecycles[l], t.lifecycles[m])
    {
      StepKeepsPair(pacing, s, step, l, m);
    }
    forall id
      ensures CountOk(t, id)
    {
      StepKeepsCount(pacing, s, step, id);
    }
  }

  lemma ReleaseSoils(pacing: Pacing, s: State, step: Step)
    requires Clean(s) && Enabled(pacing, s, step) && Interferes(pacing, s, step, ReleaseUnderTwin)
    ensures !Clean(Do(pacing, s, step))
  {
    var t := Do(pacing, s, step);
    var m: nat :| WorkingTwin(s, step.l, m);
    assert LifeOk(s, s.lifecycles[m]);
    assert t.lifecycles[m] == s.lifecycles[m];
    assert !HoldsPending(t, t.lifecycles[m]);
  }

  lemma CrowdingSoils(pacing: Pacing, s: State, step: Step)
    requires Clean(s) && Enabled(pacing, s, step) && Interferes(pacing, s, step, RenewBesideTwin)
    ensures !Clean(Do(pacing, s, step))
  {
    var t, l := Do(pacing, s, step), step.l;
    var m: nat :| Crowds(pacing, s, l, m, step.at);
    assert t.lifecycles[m] == s.lifecycles[m];
    RenewKeepsPending(pacing, s, step, s.lifecycles[m].eventId);
    if step.at + pacing.leaseDuration < s.lifecycles[m].leaseEnd {
      assert !HoldsPending(t, t.lifecycles[m]);
    } else {
      assert Clash(t, t.lifecycles[l], t.lifecycles[m]);
      if Clean(t) {
        NoClash(t, l, m);
      }
    }
  }

  lemma ReviveSoils(pacing: Pacing, s: State, step: Step)
    requires Clean(s) && Enabled(pacing, s, step)
    requires Interferes(pacing, s, step, RenewSecondPlan) || Interferes(pacing, s, step, RenewAnsweredPlan)
    ensures !Clean(Do(pacing, s, step))
  {
    var t, l := Do(pacing, s, step), step.l;
    assert Working(t, t.lifecycles[l]) && PlansSubmit(t.lifecycles[l].phase);
    if Interferes(pacing, s, step, RenewAnsweredPlan) {
      assert !PlanIsFirst(t, t.lifecycles[l]);
    } else {
      var m: nat :| WorkingTwin(s, l, m) && PlansSubmit(s.lifecycles[m].phase);
      assert t.lifecycles[m] == s.lifecycles[m];
      assert Clash(t, t.lifecycles[l], t.lifecycles[m]);
      if Clean(t) {
        NoClash(t, l, m);
      }
    }
  }

  lemma InterferenceSoils(pacing: Pacing, s: State, step: Step, kind: Interference)
    requires Clean(s) && Enabled(pacing, s, step) && Interferes(pacing, s, step, kind)
    requires kind != LateRelease && kind != LateRenewal
    ensures !Clean(Do(pacing, s, step))
  {
    match kind
    case ReleaseUnderTwin => ReleaseSoils(pacing, s, step);
    case RenewBesideTwin => CrowdingSoils(pacing, s, step);
    case RenewSecondPlan => ReviveSoils(pacing, s, step);
    case RenewAnsweredPlan => ReviveSoils(pacing, s, step);
  }

  lemma SomeInterference(pacing: Pacing, s: State, step: Step) returns (kind: Interference)
    requires !Avoids(pacing, s, step, INTERFERENCES)
    ensures kind != LateRelease && kind != LateRenewal && Interferes(pacing, s, step, kind)
  {
    kind :| kind in INTERFERENCES && Interferes(pacing, s, step, kind);
  }

  lemma InterferingSoils(pacing: Pacing, s: State, step: Step)
    requires Clean(s) && Enabled(pacing, s, step) && !Avoids(pacing, s, step, INTERFERENCES)
    ensures !Clean(Do(pacing, s, step))
  {
    var kind := SomeInterference(pacing, s, step);
    InterferenceSoils(pacing, s, step, kind);
  }

  /** Each of the four interferences breaks the invariant, and no other step that keeps to its lease does. */
  lemma StaysCleanIff(pacing: Pacing, s: State, step: Step)
    requires Consistent(s) && Clean(s) && LeaseCoversWindow(s) && Enabled(pacing, s, step) && Leased(pacing, s, step)
    ensures Clean(Do(pacing, s, step)) <==> Avoids(pacing, s, step, INTERFERENCES)
  {
    if Avoids(pacing, s, step, INTERFERENCES) {
      StepKeepsClean(pacing, s, step);
    } else {
      InterferingSoils(pacing, s, step);
    }
  }

  /** A lifecycle that renews in time, or leaves after its lease with nobody else at work, never interferes. */
  lemma OrdinaryStepsAvoid(pacing: Pacing, s: State, step: Step)
    requires Clean(s) && LeaseCoversWindow(s) && Enabled(pacing, s, step)
    requires match step
             case Renew(l, _) => Working(s, s.lifecycles[l])
             case Release(l) => forall m: nat :: !WorkingTwin(s, l, m)
             case _ => true
    ensures Avoids(pacing, s, step, INTERFERENCES)
  {
    if step.Renew? {
      var l := step.l;
      assert LifeOk(s, s.lifecycles[l]);
      forall m: nat | WorkingTwin(s, l, m)
        ensures !PendingRow(s, s.lifecycles[l].eventId)
        ensures !(PlansSubmit(s.lifecycles[l].phase) && PlansSubmit(s.lifecycles[m].phase))
      {
        NoClash(s, l, m);
      }
    }
  }

  lemma {:induction false} RunKeepsClean(pacing: Pacing, s: State, steps: seq<Step>)
    requires Consistent(s) && Clean(s) && LeaseCoversWindow(s)
    requires Runs(pacing, s, steps) && LeasedRun(pacing, s, steps) && AvoidingRun(pacing, s, steps, INTERFERENCES)
    ensures Clean(Exec(pacing, s, steps))
    decreases |steps|
  {
    if steps != [] {
      StepKeepsConsistent(pacing, s, steps[0]);
      StepKeepsClean(pacing, s, steps[0]);
      RunKeepsClean(pacing, Do(pacing, s, steps[0]), steps[1..]);
    }
  }

  /**
   In every run whose submits fall inside their own leases and that avoids the four
   interferences, NAV answers at most one submit per row, for any mix of failures,
   lapsed leases, re-scans by the same worker, crashes and restarts.
   */
  lemma AtMostOneSubmit(pacing: Pacing, clock: Time, steps: seq<Step>, id: string)
    requires Runs(pacing, Start(clock), steps) && LeasedRun(pacing, Start(clock), steps)
    requires AvoidingRun(pacing, Start(clock), steps, INTERFERENCES)
    ensures Successes(Exec(pacing, Start(clock), steps).attempts, id) <= 1
  {
    RunKeepsClean(pacing, Start(clock), steps);
    assert CountOk(Exec(pacing, Start(clock), steps), id);
  }
}
