/**
 Own-lease discipline for submits alone does not give at-most-once. Six runs keep
 every submit inside its submitter's own lease, commit one pair of missteps each and
 no other, and have NAV answer two submits of one row. Ruling out something of each
 pair is therefore exactly what at-most-once needs.
 */
module Duplicates {
  import opened Wrappers
  import opened Documents
  import opened Submissions
  import opened Mutators
  import opened StoreInMem
  import opened Protocol
  import opened AtMostOnce
  import opened Punctual

  // ---------- runs that commit one kind of interference ----------

  lemma {:induction false} Snoc(pacing: Pacing, s: State, steps: seq<Step>, step: Step, kinds: set<Interference>)
    requires Runs(pacing, s, steps) && LeasedRun(pacing, s, steps) && AvoidingRun(pacing, s, steps, kinds)
    requires Enabled(pacing, Exec(pacing, s, steps), step) && Leased(pacing, Exec(pacing, s, steps), step)
    requires Avoids(pacing, Exec(pacing, s, steps), step, kinds)
    ensures Runs(pacing, s, steps + [step]) && LeasedRun(pacing, s, steps + [step])
    ensures AvoidingRun(pacing, s, steps + [step], kinds)
    ensures Exec(pacing, s, steps + [step]) == Do(pacing, Exec(pacing, s, steps), step)
    decreases |steps|
  {
    if steps == [] {
      assert [] + [step] == [step];
      assert [step][1..] == [];
    } else {
      assert (steps + [step])[0] == steps[0];
      assert (steps + [step])[1..] == steps[1..] + [step];
      Snoc(pacing, Do(pacing, s, steps[0]), steps[1..], step, kinds);
    }
  }

  ghost predicate Arrives(pacing: Pacing, steps: seq<Step>, s: State, kinds: set<Interference>) {
    && Runs(pacing, Start(0), steps) && LeasedRun(pacing, Start(0), steps)
    && AvoidingRun(pacing, Start(0), steps, kinds) && Exec(pacing, Start(0), steps) == s
  }

  lemma Onward(pacing: Pacing, steps: seq<Step>, s: State, step: Step, kinds: set<Interference>)
    requires Arrives(pacing, steps, s, kinds) && Enabled(pacing, s, step) && Leased(pacing, s, step)
    requires Avoids(pacing, s, step, kinds)
    ensures Arrives(pacing, steps + [step], Do(pacing, s, step), kinds)
  {
    Snoc(pacing, Start(0), steps, step, kinds);
  }

  /** One stored row, and whoever is at work on it. */
  datatype Scene = Scene(clock: Time, row: Submission, lives: seq<Lifecycle>, attempts: seq<Attempt>)

  function Staged(event: Event, put: Submission, scene: Scene): State {
    State(scene.clock, map[put.eventId := scene.row], scene.lives,
          [Delivery(event, Acknowledged(StoredNow))], [PutRecord(0, put)], scene.attempts, [])
  }

  /** What the run under construction is about: its pacing, its one delivery, and what it must avoid. */
  datatype Plot = Plot(pacing: Pacing, event: Event, put: Submission, kinds: set<Interference>) {
    ghost predicate Valid() {
      && pacing.Valid() && FreshRow(map[], 0, event, put)
      && put.parentEventId == "" && Derive(put).Some?
    }

    ghost predicate Reaches(steps: seq<Step>, scene: Scene) {
      Arrives(pacing, steps, Staged(event, put, scene), kinds)
    }
  }

  predicate Covered(scene: Scene) {
    forall l :: 0 <= l < |scene.lives| && InWindow(scene.lives[l].phase) ==> scene.clock < scene.lives[l].leaseEnd
  }

  predicate OnStage(p: Plot, scene: Scene, l: nat) {
    l < |scene.lives| && scene.lives[l].eventId == p.put.eventId
  }

  /** Any step that turns one scene into another. */
  lemma Moves(p: Plot, steps: seq<Step>, scene: Scene, step: Step, next: Scene)
    requires p.Reaches(steps, scene) && Enabled(p.pacing, Staged(p.event, p.put, scene), step)
    requires Do(p.pacing, Staged(p.event, p.put, scene), step) == Staged(p.event, p.put, next)
    requires Covered(next) && !LeavesWindow(Staged(p.event, p.put, scene), step)
    requires Avoids(p.pacing, Staged(p.event, p.put, scene), step, p.kinds)
    ensures p.Reaches(steps + [step], next)
  {
    Onward(p.pacing, steps, Staged(p.event, p.put, scene), step, p.kinds);
  }

  function Delivering(p: Plot, stage: Stage): State {
    Start(0).(deliveries := [Delivery(p.event, stage)])
  }

  lemma LooksUp(p: Plot) returns (steps: seq<Step>)
    requires p.Valid()
    ensures Arrives(p.pacing, steps, Delivering(p, Absent), p.kinds)
  {
    Onward(p.pacing, [], Start(0), Arrive(p.event), p.kinds);
    steps := [] + [Arrive(p.event)];
    assert Do(p.pacing, Start(0), Arrive(p.event)) == Delivering(p, Arrived);
    Onward(p.pacing, steps, Delivering(p, Arrived), Lookup(0, true), p.kinds);
    steps := steps + [Lookup(0, true)];
    assert Do(p.pacing, Delivering(p, Arrived), Lookup(0, true)) == Delivering(p, Absent);
  }

  lemma StoreOne(p: Plot) returns (steps: seq<Step>)
    requires p.Valid()
    ensures p.Reaches(steps, Scene(0, p.put, [], []))
  {
    steps := LooksUp(p);
    Onward(p.pacing, steps, Delivering(p, Absent), Prepare(0, Ready(p.put)), p.kinds);
    steps := steps + [Prepare(0, Ready(p.put))];
    var ready := Delivering(p, Prepared(p.put));
    assert Do(p.pacing, Delivering(p, Absent), Prepare(0, Ready(p.put))) == ready;
    Onward(p.pacing, steps, ready, Persist(0, true), p.kinds);
    steps := steps + [Persist(0, true)];
    assert Do(p.pacing, ready, Persist(0, true)) == Staged(p.event, p.put, Scene(0, p.put, [], []));
  }

  // ---------- one step on stage ----------

  lemma Ticks(p: Plot, steps: seq<Step>, scene: Scene, to: Time)
    requires p.Reaches(steps, scene) && scene.clock <= to && Covered(scene.(clock := to))
    ensures p.Reaches(steps + [Tick(to)], scene.(clock := to))
  {
    Moves(p, steps, scene, Tick(to), scene.(clock := to));
  }

  function ClaimedBy(p: Plot, scene: Scene, claimer: string): Scene {
    var until := scene.clock + p.pacing.leaseDuration;
    var row := Stamped(scene.row, claimer, until, scene.clock);
    scene.(row := row, lives := scene.lives + [Lifecycle(p.put.eventId, claimer, until, Deciding(row))])
  }

  lemma Claims(p: Plot, steps: seq<Step>, scene: Scene, claimer: string)
    requires p.Reaches(steps, scene) && claimer != "" && Eligible(scene.row, scene.clock) && Covered(scene)
    ensures p.Reaches(steps + [Claim(p.put.eventId, claimer, scene.clock)], ClaimedBy(p, scene, claimer))
  {
    Moves(p, steps, scene, Claim(p.put.eventId, claimer, scene.clock), ClaimedBy(p, scene, claimer));
  }

  function WithPhase(scene: Scene, l: nat, phase: Phase): Scene
    requires l < |scene.lives|
  {
    scene.(lives := scene.lives[l := scene.lives[l].(phase := phase)])
  }

  lemma Clears(p: Plot, steps: seq<Step>, scene: Scene, l: nat, snap: Submission)
    requires p.Reaches(steps, scene) && OnStage(p, scene, l) && Covered(scene)
    requires scene.lives[l].phase == Deciding(snap) && snap.status == Pending && snap.parentEventId == ""
    ensures p.Reaches(steps + [CheckParent(l, true)], WithPhase(scene, l, Cleared(snap)))
  {
    Moves(p, steps, scene, CheckParent(l, true), WithPhase(scene, l, Cleared(snap)));
  }

  function AfterSubmit(p: Plot, scene: Scene, l: nat, submitted: SubmitOutcome): Scene
    requires l < |scene.lives| && scene.lives[l].phase.Cleared? && Derive(scene.lives[l].phase.snap).Some?
  {
    var snap := scene.lives[l].phase.snap;
    var sent := Derive(snap).value;
    WithPhase(scene, l, Recording(snap, SubmitCommand(submitted), false))
    .(attempts := scene.attempts +
                  [Attempt(snap.eventId, sent.0, sent.1,
                           if submitted.SubmitAccepted? then Some(submitted.transactionId) else None)])
  }

  lemma Submits(p: Plot, steps: seq<Step>, scene: Scene, l: nat, submitted: SubmitOutcome)
    requires p.Reaches(steps, scene) && OnStage(p, scene, l) && Covered(scene)
    requires scene.lives[l].phase.Cleared? && Derive(scene.lives[l].phase.snap).Some?
    requires scene.clock < scene.lives[l].leaseEnd
    ensures p.Reaches(steps + [Submit(l, submitted)], AfterSubmit(p, scene, l, submitted))
  {
    Moves(p, steps, scene, Submit(l, submitted), AfterSubmit(p, scene, l, submitted));
  }

  function AfterRenewal(p: Plot, scene: Scene, l: nat, at: Time): Scene
    requires l < |scene.lives|
  {
    var until := at + p.pacing.leaseDuration;
    scene.(row := Stamped(scene.row, scene.lives[l].claimer, until, at),
           lives := scene.lives[l := scene.lives[l].(leaseEnd := until)])
  }

  lemma Renews(p: Plot, steps: seq<Step>, scene: Scene, l: nat, at: Time)
    requires p.Reaches(steps, scene) && OnStage(p, scene, l) && scene.lives[l].phase != Gone && Covered(scene)
    requires scene.row.claimedBy == scene.lives[l].claimer && at <= scene.clock && !InWindow(scene.lives[l].phase)
    requires Avoids(p.pacing, Staged(p.event, p.put, scene), Renew(l, at), p.kinds)
    ensures p.Reaches(steps + [Renew(l, at)], AfterRenewal(p, scene, l, at))
  {
    Moves(p, steps, scene, Renew(l, at), AfterRenewal(p, scene, l, at));
  }

  lemma Abandons(p: Plot, steps: seq<Step>, scene: Scene, l: nat)
    requires p.Reaches(steps, scene) && OnStage(p, scene, l) && Covered(scene)
    requires Active(scene.lives[l].phase) && !InWindow(scene.lives[l].phase)
    ensures p.Reaches(steps + [Abandon(l)], WithPhase(scene, l, Leaving))
  {
    Moves(p, steps, scene, Abandon(l), WithPhase(scene, l, Leaving));
  }

  lemma Releases(p: Plot, steps: seq<Step>, scene: Scene, l: nat)
    requires p.Reaches(steps, scene) && OnStage(p, scene, l) && Covered(scene)
    requires scene.lives[l].phase == Leaving && scene.row.claimedBy == scene.lives[l].claimer
    requires Avoids(p.pacing, Staged(p.event, p.put, scene), Release(l), p.kinds)
    ensures p.Reaches(steps + [Release(l)], WithPhase(scene, l, Gone).(row := Released(scene.row, scene.clock)))
  {
    Moves(p, steps, scene, Release(l), WithPhase(scene, l, Gone).(row := Released(scene.row, scene.clock)));
  }

  function AfterRecord(p: Plot, scene: Scene, l: nat): Scene
    requires l < |scene.lives| && scene.lives[l].phase.Recording? && !scene.lives[l].phase.leave
    requires Mutated(p.pacing, scene.lives[l].phase.command, scene.row, scene.clock).Some?
  {
    var after := Mutated(p.pacing, scene.lives[l].phase.command, scene.row, scene.clock).value;
    WithPhase(scene, l, Recorded).(row := after.(updatedAt := scene.clock))
  }

  lemma Records(p: Plot, steps: seq<Step>, scene: Scene, l: nat)
    requires p.Reaches(steps, scene) && OnStage(p, scene, l) && Covered(scene)
    requires scene.lives[l].phase.Recording? && !scene.lives[l].phase.leave
    requires Mutated(p.pacing, scene.lives[l].phase.command, scene.row, scene.clock).Some?
    ensures p.Reaches(steps + [Record(l)], AfterRecord(p, scene, l))
  {
    Moves(p, steps, scene, Record(l), AfterRecord(p, scene, l));
  }

  /** The first of two answered submits leaves room for the second. */
  lemma BothAnswered(p: Plot, steps: seq<Step>, scene: Scene, l: nat, m: nat) returns (more: seq<Step>)
    requires p.Reaches(steps, scene) && OnStage(p, scene, l) && OnStage(p, scene, m) && l != m && Covered(scene)
    requires scene.lives[l].phase.Cleared? && Derive(scene.lives[l].phase.snap).Some?
    requires scene.lives[m].phase.Cleared? && Derive(scene.lives[m].phase.snap).Some?
    requires scene.lives[l].phase.snap.eventId == scene.lives[m].phase.snap.eventId == p.put.eventId
    requires scene.clock < scene.lives[l].leaseEnd && scene.clock < scene.lives[m].leaseEnd
    requires Successes(scene.attempts, p.put.eventId) == 0
    ensures Twice(p, more)
  {
    var first, second := SubmitAccepted("T1"), SubmitAccepted("T2");
    Submits(p, steps, scene, l, first);
    var next := AfterSubmit(p, scene, l, first);
    Submits(p, steps + [Submit(l, first)], next, m, second);
    more := steps + [Submit(l, first)] + [Submit(m, second)];
    SuccessesAppend(scene.attempts, next.attempts[|scene.attempts|], p.put.eventId);
    SuccessesAppend(next.attempts, AfterSubmit(p, next, m, second).attempts[|next.attempts|], p.put.eventId);
  }

  /** A leased run that avoids what the plot says, with two answered submits of the row. */
  ghost predicate Twice(p: Plot, steps: seq<Step>) {
    && Runs(p.pacing, Start(0), steps) && LeasedRun(p.pacing, Start(0), steps)
    && AvoidingRun(p.pacing, Start(0), steps, p.kinds)
    && Successes(Exec(p.pacing, Start(0), steps).attempts, p.put.eventId) == 2
  }

  // ---------- the common opening ----------

  function Claimed1(p: Plot): Submission {
    Stamped(p.put, "w", p.pacing.leaseDuration, 0)
  }

  function Claimed2(p: Plot): Submission {
    var lease := p.pacing.leaseDuration;
    Stamped(Claimed1(p), "w", lease + lease, lease)
  }

  function FirstOf(p: Plot, phase: Phase): Lifecycle {
    Lifecycle(p.put.eventId, "w", p.pacing.leaseDuration, phase)
  }

  function SecondOf(p: Plot, phase: Phase): Lifecycle {
    Lifecycle(p.put.eventId, "w", p.pacing.leaseDuration + p.pacing.leaseDuration, phase)
  }

  /** Worker w has claimed the row, lost its lease, and claimed it again for a second lifecycle. */
  function Rescanned(p: Plot, first: Phase, second: Phase): Scene {
    Scene(p.pacing.leaseDuration, Claimed2(p), [FirstOf(p, first), SecondOf(p, second)], [])
  }

  lemma FirstClaim(p: Plot) returns (steps: seq<Step>)
    requires p.Valid()
    ensures p.Reaches(steps, Scene(0, Claimed1(p), [FirstOf(p, Deciding(Claimed1(p)))], []))
  {
    steps := StoreOne(p);
    var stored := Scene(0, p.put, [], []);
    Claims(p, steps, stored, "w");
    steps := steps + [Claim(p.put.eventId, "w", 0)];
    assert ClaimedBy(p, stored, "w") == Scene(0, Claimed1(p), [FirstOf(p, Deciding(Claimed1(p)))], []);
  }

  lemma Rescan(p: Plot) returns (steps: seq<Step>)
    requires p.Valid()
    ensures p.Reaches(steps, Rescanned(p, Deciding(Claimed1(p)), Deciding(Claimed2(p))))
  {
    var lease := p.pacing.leaseDuration;
    steps := FirstClaim(p);
    var scene := Scene(0, Claimed1(p), [FirstOf(p, Deciding(Claimed1(p)))], []);
    Ticks(p, steps, scene, lease);
    steps := steps + [Tick(lease)];
    Claims(p, steps, scene.(clock := lease), "w");
    steps := steps + [Claim(p.put.eventId, "w", lease)];
    assert ClaimedBy(p, scene.(clock := lease), "w") == Rescanned(p, Deciding(Claimed1(p)), Deciding(Claimed2(p)));
  }

  /** Both lifecycles have read the row as pending and are about to call NAV. */
  lemma BothPlan(p: Plot) returns (steps: seq<Step>)
    requires p.Valid()
    ensures p.Reaches(steps, Rescanned(p, Cleared(Claimed1(p)), Cleared(Claimed2(p))))
  {
    steps := Rescan(p);
    var s0 := Rescanned(p, Deciding(Claimed1(p)), Deciding(Claimed2(p)));
    Clears(p, steps, s0, 0, Claimed1(p));
    steps := steps + [CheckParent(0, true)];
    var s1 := Rescanned(p, Cleared(Claimed1(p)), Deciding(Claimed2(p)));
    assert WithPhase(s0, 0, Cleared(Claimed1(p))) == s1;
    Clears(p, steps, s1, 1, Claimed2(p));
    steps := steps + [CheckParent(1, true)];
    assert WithPhase(s1, 1, Cleared(Claimed2(p))) == Rescanned(p, Cleared(Claimed1(p)), Cleared(Claimed2(p)));
  }

  // ---------- a freed row ----------

  /** A row that is free although a lifecycle is at work on it: another worker claims it, and both submit. */
  lemma FreeRowDuplicates(p: Plot, before: seq<Step>, scene: Scene, l: nat) returns (steps: seq<Step>)
    requires p.Reaches(before, scene) && OnStage(p, scene, l) && p.pacing.leaseDuration > 0
    requires forall m :: 0 <= m < |scene.lives| ==> !InWindow(scene.lives[m].phase)
    requires scene.lives[l].phase.Deciding? && Submittable(p, scene.lives[l].phase.snap)
    requires scene.clock < scene.lives[l].leaseEnd
    requires Submittable(p, scene.row) && Eligible(scene.row, scene.clock)
    requires Successes(scene.attempts, p.put.eventId) == 0
    ensures Twice(p, steps)
  {
    var newcomer, snap := |scene.lives|, scene.lives[l].phase.snap;
    var claimed := ClaimedBy(p, scene, "v");
    Claims(p, before, scene, "v");
    steps := before + [Claim(p.put.eventId, "v", scene.clock)];
    Clears(p, steps, claimed, l, snap);
    steps := steps + [CheckParent(l, true)];
    var cleared := WithPhase(claimed, l, Cleared(snap));
    Clears(p, steps, cleared, newcomer, claimed.row);
    steps := steps + [CheckParent(newcomer, true)];
    steps := BothAnswered(p, steps, WithPhase(cleared, newcomer, Cleared(claimed.row)), l, newcomer);
  }

  /** A pending snapshot of the row, with a payload NAV takes and no parent to wait for. */
  predicate Submittable(p: Plot, snap: Submission) {
    && snap.eventId == p.put.eventId && snap.status == Pending && snap.parentEventId == "" && Derive(snap).Some?
  }

  // ---------- a release under a working twin ----------

  /** The first lifecycle has gone, and its release has cleared the second one's hold. */
  lemma ReleasedUnderTwin(p: Plot) returns (steps: seq<Step>)
    requires p.Valid() && p.kinds !! {ReleaseUnderTwin, LateRelease}
    ensures p.Reaches(steps, Rescanned(p, Gone, Deciding(Claimed2(p)))
                             .(row := Released(Claimed2(p), p.pacing.leaseDuration)))
  {
    steps := Rescan(p);
    var s0 := Rescanned(p, Deciding(Claimed1(p)), Deciding(Claimed2(p)));
    Abandons(p, steps, s0, 0);
    steps := steps + [Abandon(0)];
    var s1 := Rescanned(p, Leaving, Deciding(Claimed2(p)));
    assert WithPhase(s0, 0, Leaving) == s1;
    Releases(p, steps, s1, 0);
    steps := steps + [Release(0)];
    assert WithPhase(s1, 0, Gone) == Rescanned(p, Gone, Deciding(Claimed2(p)));
  }

  /** A release by a lifecycle past its lease frees the row under its working twin; another worker submits too. */
  lemma ReleaseDuplicates(p: Plot) returns (steps: seq<Step>)
    requires p.Valid() && p.kinds !! {ReleaseUnderTwin, LateRelease}
    ensures Twice(p, steps)
  {
    steps := ReleasedUnderTwin(p);
    var scene := Rescanned(p, Gone, Deciding(Claimed2(p))).(row := Released(Claimed2(p), p.pacing.leaseDuration));
    steps := FreeRowDuplicates(p, steps, scene, 1);
  }

  // ---------- a release in time, after a late renewal ----------

  /** On its way out and past its lease, the first lifecycle renews, which harms nobody yet. */
  lemma RenewedOnTheWayOut(p: Plot) returns (steps: seq<Step>, scene: Scene)
    requires p.Valid() && LateRenewal !in p.kinds
    ensures p.Reaches(steps, scene) && scene.clock == p.pacing.leaseDuration && scene.attempts == []
    ensures scene.lives == [SecondOf(p, Leaving), SecondOf(p, Deciding(Claimed2(p)))]
    ensures scene.row.claimedBy == "w" && Submittable(p, scene.row) && scene.row.nextAttemptAt == 0
  {
    var lease := p.pacing.leaseDuration;
    steps := Rescan(p);
    var s0 := Rescanned(p, Deciding(Claimed1(p)), Deciding(Claimed2(p)));
    Abandons(p, steps, s0, 0);
    steps := steps + [Abandon(0)];
    var s1 := Rescanned(p, Leaving, Deciding(Claimed2(p)));
    assert WithPhase(s0, 0, Leaving) == s1;
    Renews(p, steps, s1, 0, lease);
    steps := steps + [Renew(0, lease)];
    scene := AfterRenewal(p, s1, 0, lease);
  }

  /** Its release then falls inside its own lease, and still frees the row under its twin. */
  lemma RenewedReleaseDuplicates(p: Plot) returns (steps: seq<Step>)
    requires p.Valid() && p.kinds !! {ReleaseUnderTwin, LateRenewal}
    ensures Twice(p, steps)
  {
    var scene: Scene;
    steps, scene := RenewedOnTheWayOut(p);
    Releases(p, steps, scene, 0);
    steps := steps + [Release(0)];
    var freed := WithPhase(scene, 0, Gone).(row := Released(scene.row, scene.clock));
    steps := FreeRowDuplicates(p, steps, freed, 1);
  }

  // ---------- a renewal in time, after a late release ----------

  /** The first lifecycle's late release has cleared the hold of the second, which was leaving too. */
  lemma ReleasedOnTheWayOut(p: Plot) returns (steps: seq<Step>, scene: Scene)
    requires p.Valid() && LateRelease !in p.kinds
    ensures p.Reaches(steps, scene) && scene.clock == p.pacing.leaseDuration && scene.attempts == []
    ensures scene.lives == [FirstOf(p, Gone), SecondOf(p, Leaving)]
    ensures Submittable(p, scene.row) && Eligible(scene.row, scene.clock)
  {
    steps := Rescan(p);
    var s0 := Rescanned(p, Deciding(Claimed1(p)), Deciding(Claimed2(p)));
    Abandons(p, steps, s0, 1);
    steps := steps + [Abandon(1)];
    var s1 := Rescanned(p, Deciding(Claimed1(p)), Leaving);
    assert WithPhase(s0, 1, Leaving) == s1;
    Abandons(p, steps, s1, 0);
    steps := steps + [Abandon(0)];
    var s2 := Rescanned(p, Leaving, Leaving);
    assert WithPhase(s1, 0, Leaving) == s2;
    Releases(p, steps, s2, 0);
    steps := steps + [Release(0)];
    scene := WithPhase(s2, 0, Gone).(row := Released(s2.row, s2.clock));
  }

  /**
   The worker claims the freed row again; the second lifecycle, leaving but still inside
   its own lease, renews with an older clock reading and cuts the new hold short.
   */
  lemma BackdatedRenewalDuplicates(p: Plot) returns (steps: seq<Step>)
    requires p.Valid() && p.kinds !! {RenewBesideTwin, LateRelease}
    ensures Twice(p, steps)
  {
    var scene: Scene;
    steps, scene := ReleasedOnTheWayOut(p);
    Claims(p, steps, scene, "w");
    steps := steps + [Claim(p.put.eventId, "w", scene.clock)];
    var claimed := ClaimedBy(p, scene, "w");
    Renews(p, steps, claimed, 1, 0);
    steps := steps + [Renew(1, 0)];
    steps := FreeRowDuplicates(p, steps, AfterRenewal(p, claimed, 1, 0), 2);
  }

  // ---------- a renewal beside a working twin ----------

  /** A late renewal puts the first lifecycle back to work beside the second; both submit. */
  lemma RenewalDuplicates(p: Plot) returns (steps: seq<Step>)
    requires p.Valid() && p.kinds !! {RenewBesideTwin, LateRenewal}
    ensures Twice(p, steps)
  {
    steps := BothPlan(p);
    var scene := Rescanned(p, Cleared(Claimed1(p)), Cleared(Claimed2(p)));
    Renews(p, steps, scene, 0, scene.clock);
    steps := steps + [Renew(0, scene.clock)];
    steps := BothAnswered(p, steps, AfterRenewal(p, scene, 0, scene.clock), 0, 1);
  }

  // ---------- a renewal after NAV's answer ----------

  lemma Counted(attempts: seq<Attempt>, attempt: Attempt, id: string)
    requires attempt.eventId == id
    ensures Successes(attempts + [attempt], id) == Successes(attempts, id) + if attempt.answer.Some? then 1 else 0
  {
    SuccessesAppend(attempts, attempt, id);
  }

  /** The second lifecycle has submitted the row and recorded NAV's answer; the first still plans on its old snapshot. */
  lemma SecondSubmitted(p: Plot) returns (steps: seq<Step>, scene: Scene)
    requires p.Valid()
    ensures p.Reaches(steps, scene) && scene.clock == p.pacing.leaseDuration
    ensures scene.lives == [FirstOf(p, Cleared(Claimed1(p))), SecondOf(p, Recorded)]
    ensures scene.row.status == Submitted && scene.row.claimedBy == "w"
    ensures Successes(scene.attempts, p.put.eventId) == 1
  {
    steps := BothPlan(p);
    var s0 := Rescanned(p, Cleared(Claimed1(p)), Cleared(Claimed2(p)));
    Submits(p, steps, s0, 1, SubmitAccepted("T1"));
    steps := steps + [Submit(1, SubmitAccepted("T1"))];
    var s1 := AfterSubmit(p, s0, 1, SubmitAccepted("T1"));
    Counted([], s1.attempts[0], p.put.eventId);
    Records(p, steps, s1, 1);
    steps := steps + [Record(1)];
    scene := AfterRecord(p, s1, 1);
  }

  lemma StaleRenewed(p: Plot) returns (steps: seq<Step>, scene: Scene)
    requires p.Valid() && p.kinds !! {RenewAnsweredPlan, LateRenewal}
    ensures p.Reaches(steps, scene) && Covered(scene) && OnStage(p, scene, 0)
    ensures scene.lives[0].phase == Cleared(Claimed1(p)) && scene.clock < scene.lives[0].leaseEnd
    ensures Successes(scene.attempts, p.put.eventId) == 1
  {
    var lease := p.pacing.leaseDuration;
    var s0: Scene;
    steps, s0 := SecondSubmitted(p);
    Ticks(p, steps, s0, lease + lease);
    steps := steps + [Tick(lease + lease)];
    var s1 := s0.(clock := lease + lease);
    Renews(p, steps, s1, 0, s1.clock);
    steps := steps + [Renew(0, s1.clock)];
    scene := AfterRenewal(p, s1, 0, s1.clock);
  }

  /** Nobody else is at work: the second lease has lapsed. A late renewal revives the first one's plan. */
  lemma StaleRenewalDuplicates(p: Plot) returns (steps: seq<Step>)
    requires p.Valid() && p.kinds !! {RenewAnsweredPlan, LateRenewal}
    ensures Twice(p, steps)
  {
    var scene: Scene;
    steps, scene := StaleRenewed(p);
    Submits(p, steps, scene, 0, SubmitAccepted("T2"));
    steps := steps + [Submit(0, SubmitAccepted("T2"))];
    var answered := AfterSubmit(p, scene, 0, SubmitAccepted("T2"));
    Counted(scene.attempts, answered.attempts[|scene.attempts|], p.put.eventId);
  }

  // ---------- a renewal beside another plan, on a row that is no longer pending ----------

  function ThirdOf(p: Plot, phase: Phase): Lifecycle {
    Lifecycle(p.put.eventId, "w", p.pacing.leaseDuration + p.pacing.leaseDuration + p.pacing.leaseDuration, phase)
  }

  /** The first lifecycle's submit has been refused for good, but it has not recorded that yet. */
  lemma FirstRefused(p: Plot) returns (steps: seq<Step>, scene: Scene)
    requires p.Valid()
    ensures p.Reaches(steps, scene) && scene.clock == 0 && scene.row == Claimed1(p)
    ensures scene.lives == [FirstOf(p, Recording(Claimed1(p), SubmitFail("", false, 1.0), false))]
    ensures Successes(scene.attempts, p.put.eventId) == 0
  {
    var refusal := SubmitError("", false, 1.0);
    steps := FirstClaim(p);
    var s0 := Scene(0, Claimed1(p), [FirstOf(p, Deciding(Claimed1(p)))], []);
    Clears(p, steps, s0, 0, Claimed1(p));
    steps := steps + [CheckParent(0, true)];
    var s1 := WithPhase(s0, 0, Cleared(Claimed1(p)));
    Submits(p, steps, s1, 0, refusal);
    steps := steps + [Submit(0, refusal)];
    scene := AfterSubmit(p, s1, 0, refusal);
    Counted([], scene.attempts[0], p.put.eventId);
  }

  /** The row is claimed again when the last lease has lapsed, and cleared for submission. */
  lemma ClaimsAndClears(p: Plot, before: seq<Step>, scene: Scene, to: Time) returns (steps: seq<Step>, next: Scene)
    requires p.Reaches(before, scene) && scene.clock <= to
    requires scene.row.eventId == p.put.eventId && scene.row.parentEventId == ""
    requires forall l :: 0 <= l < |scene.lives| ==> !InWindow(scene.lives[l].phase)
    requires scene.row.status == Pending && scene.row.nextAttemptAt == 0 && scene.row.claimedUntil <= to
    ensures var until := to + p.pacing.leaseDuration;
            && p.Reaches(steps, next) && next.clock == to && next.attempts == scene.attempts
            && next.row == Stamped(scene.row, "w", until, to)
            && next.lives == scene.lives + [Lifecycle(p.put.eventId, "w", until, Cleared(next.row))]
  {
    Ticks(p, before, scene, to);
    steps := before + [Tick(to)];
    Claims(p, steps, scene.(clock := to), "w");
    steps := steps + [Claim(p.put.eventId, "w", to)];
    var claimed := ClaimedBy(p, scene.(clock := to), "w");
    Clears(p, steps, claimed, |scene.lives|, claimed.row);
    steps := steps + [CheckParent(|scene.lives|, true)];
    next := WithPhase(claimed, |scene.lives|, Cleared(claimed.row));
  }

  /** The refusal is recorded under two later lifecycles that both plan to submit; the older one's lease has lapsed. */
  lemma RejectedUnderPlans(p: Plot) returns (steps: seq<Step>, scene: Scene, second: Submission, third: Submission)
    requires p.Valid()
    ensures p.Reaches(steps, scene) && scene.clock == p.pacing.leaseDuration + p.pacing.leaseDuration
    ensures scene.lives == [FirstOf(p, Recorded), SecondOf(p, Cleared(second)), ThirdOf(p, Cleared(third))]
    ensures scene.row.status == Rejected && scene.row.claimedBy == "w"
    ensures second.eventId == third.eventId == p.put.eventId && Derive(second).Some? && Derive(third).Some?
    ensures second.status == third.status == Pending
    ensures Successes(scene.attempts, p.put.eventId) == 0
  {
    var before: Scene;
    steps, before, second, third := PlansUnderRefusal(p);
    Records(p, steps, before, 0);
    steps := steps + [Record(0)];
    scene := AfterRecord(p, before, 0);
  }

  /** Two more claims have followed while the refusal is still on its way to the store. */
  lemma PlansUnderRefusal(p: Plot) returns (steps: seq<Step>, scene: Scene, second: Submission, third: Submission)
    requires p.Valid()
    ensures p.Reaches(steps, scene) && scene.clock == p.pacing.leaseDuration + p.pacing.leaseDuration
    ensures scene.lives == [FirstOf(p, Recording(Claimed1(p), SubmitFail("", false, 1.0), false)),
                            SecondOf(p, Cleared(second)), ThirdOf(p, Cleared(third))]
    ensures scene.row.status == Pending && scene.row.claimedBy == "w"
    ensures second.eventId == third.eventId == p.put.eventId && Derive(second).Some? && Derive(third).Some?
    ensures second.status == third.status == Pending
    ensures Successes(scene.attempts, p.put.eventId) == 0
  {
    var lease := p.pacing.leaseDuration;
    var s0, s1: Scene;
    steps, s0 := FirstRefused(p);
    steps, s1 := ClaimsAndClears(p, steps, s0, lease);
    steps, scene := ClaimsAndClears(p, steps, s1, lease + lease);
    second, third := s1.row, scene.row;
  }

  /** A late renewal revives the second lifecycle's plan beside the third's, on a rejected row; both submit. */
  lemma SecondPlanDuplicates(p: Plot) returns (steps: seq<Step>)
    requires p.Valid() && p.kinds !! {RenewSecondPlan, LateRenewal}
    ensures Twice(p, steps)
  {
    var scene: Scene, second, third;
    steps, scene, second, third := RejectedUnderPlans(p);
    Renews(p, steps, scene, 1, scene.clock);
    steps := steps + [Renew(1, scene.clock)];
    steps := BothAnswered(p, steps, AfterRenewal(p, scene, 1, scene.clock), 1, 2);
  }

  // ---------- exactly these ----------

  /**
   What it takes for a duplicate: each of these pairs alone. In the first four a late
   call does the harm; in the last two it only prepares it for a call made in time.
   */
  const FATAL_PAIRS: set<set<Interference>> := {
    {ReleaseUnderTwin, LateRelease}, {RenewBesideTwin, LateRenewal},
    {RenewSecondPlan, LateRenewal}, {RenewAnsweredPlan, LateRenewal},
    {ReleaseUnderTwin, LateRenewal}, {RenewBesideTwin, LateRelease}
  }

  /** Every leased run that avoids the given interferences has at most one answered submit per row. */
  ghost predicate AtMostOnceUnder(pacing: Pacing, kinds: set<Interference>) {
    forall clock: Time, steps: seq<Step>, id: string ::
      Runs(pacing, Start(clock), steps) && LeasedRun(pacing, Start(clock), steps) &&
      AvoidingRun(pacing, Start(clock), steps, kinds) ==>
        Successes(Exec(pacing, Start(clock), steps).attempts, id) <= 1
  }

  /** For every pacing and every storable row without a parent, each pair that is not ruled out costs a duplicate. */
  lemma EachPairDuplicates(p: Plot, pair: set<Interference>) returns (steps: seq<Step>)
    requires p.Valid() && pair in FATAL_PAIRS && p.kinds !! pair
    ensures Twice(p, steps)
  {
    if pair == {ReleaseUnderTwin, LateRelease} {
      steps := ReleaseDuplicates(p);
    } else if pair == {RenewBesideTwin, LateRenewal} {
      steps := RenewalDuplicates(p);
    } else if pair == {RenewSecondPlan, LateRenewal} {
      steps := SecondPlanDuplicates(p);
    } else if pair == {RenewAnsweredPlan, LateRenewal} {
      steps := StaleRenewalDuplicates(p);
    } else if pair == {ReleaseUnderTwin, LateRenewal} {
      steps := RenewedReleaseDuplicates(p);
    } else {
      steps := BackdatedRenewalDuplicates(p);
    }
  }

  function SomeRow(event: Event): Submission {
    Submission(event.id, InvoiceKind, "", "CREATE", "", Pending, 0, "", "", 0, event.created, 0, 0,
               AnnulmentPayload(""), "", ZERO_TIME)
  }

  lemma SomePlot(pacing: Pacing, kinds: set<Interference>) returns (p: Plot)
    requires pacing.Valid()
    ensures p.Valid() && p.pacing == pacing && p.kinds == kinds
  {
    var event := Event("evt", "invoice.finalized", 0);
    p := Plot(pacing, event, SomeRow(event), kinds);
  }

  /** Something of each fatal pair is ruled out. */
  ghost predicate RulesOutEachPair(kinds: set<Interference>) {
    forall pair :: pair in FATAL_PAIRS ==> !(kinds !! pair)
  }

  lemma PairRuledOut(kinds: set<Interference>, a: Interference, b: Interference)
    ensures !(kinds !! {a, b}) <==> a in kinds || b in kinds
  {
    if a in kinds || b in kinds {
      assert exists kind :: kind in kinds && kind in {a, b};
    }
  }

  /** Which comes to one of three disciplines. */
  lemma ThreeDisciplines(kinds: set<Interference>)
    ensures RulesOutEachPair(kinds) <==>
            LATE_CALLS <= kinds || INTERFERENCES <= kinds || {ReleaseUnderTwin, RenewBesideTwin, LateRenewal} <= kinds
  {
    PairRuledOut(kinds, ReleaseUnderTwin, LateRelease);
    PairRuledOut(kinds, RenewBesideTwin, LateRenewal);
    PairRuledOut(kinds, RenewSecondPlan, LateRenewal);
    PairRuledOut(kinds, RenewAnsweredPlan, LateRenewal);
    PairRuledOut(kinds, ReleaseUnderTwin, LateRenewal);
    PairRuledOut(kinds, RenewBesideTwin, LateRelease);
    assert {ReleaseUnderTwin, LateRelease} in FATAL_PAIRS && {RenewBesideTwin, LateRenewal} in FATAL_PAIRS;
    assert {RenewSecondPlan, LateRenewal} in FATAL_PAIRS && {RenewAnsweredPlan, LateRenewal} in FATAL_PAIRS;
    assert {ReleaseUnderTwin, LateRenewal} in FATAL_PAIRS && {RenewBesideTwin, LateRelease} in FATAL_PAIRS;
  }

  lemma {:induction false} FewerAvoided(pacing: Pacing, s: State, steps: seq<Step>, kinds: set<Interference>,
                                        fewer: set<Interference>)
    requires Runs(pacing, s, steps) && AvoidingRun(pacing, s, steps, kinds) && fewer <= kinds
    ensures AvoidingRun(pacing, s, steps, fewer)
    decreases |steps|
  {
    if steps != [] {
      FewerAvoided(pacing, Do(pacing, s, steps[0]), steps[1..], kinds, fewer);
    }
  }

  lemma RuledOutSubmitsOnce(pacing: Pacing, clock: Time, steps: seq<Step>, kinds: set<Interference>, id: string)
    requires Runs(pacing, Start(clock), steps) && LeasedRun(pacing, Start(clock), steps)
    requires AvoidingRun(pacing, Start(clock), steps, kinds) && RulesOutEachPair(kinds)
    ensures Successes(Exec(pacing, Start(clock), steps).attempts, id) <= 1
  {
    ThreeDisciplines(kinds);
    if LATE_CALLS <= kinds {
      FewerAvoided(pacing, Start(clock), steps, kinds, LATE_CALLS);
      PunctualSubmitsOnce(pacing, clock, steps, id);
    } else if INTERFERENCES <= kinds {
      FewerAvoided(pacing, Start(clock), steps, kinds, INTERFERENCES);
      AtMostOneSubmit(pacing, clock, steps, id);
    } else {
      FewerAvoided(pacing, Start(clock), steps, kinds, {ReleaseUnderTwin, RenewBesideTwin, LateRenewal});
      PromptRunAvoids(pacing, Start(clock), steps);
      AtMostOneSubmit(pacing, clock, steps, id);
    }
  }

  lemma FatalPairDuplicates(pacing: Pacing, kinds: set<Interference>, pair: set<Interference>)
    requires pacing.Valid() && pair in FATAL_PAIRS && kinds !! pair
    ensures !AtMostOnceUnder(pacing, kinds)
  {
    var p := SomePlot(pacing, kinds);
    var steps := EachPairDuplicates(p, pair);
    assert Successes(Exec(pacing, Start(0), steps).attempts, p.put.eventId) == 2;
  }

  /** At-most-once holds of all leased runs that avoid a set of steps exactly when the set rules out each fatal pair. */
  lemma AtMostOnceIff(pacing: Pacing, kinds: set<Interference>)
    requires pacing.Valid()
    ensures AtMostOnceUnder(pacing, kinds) <==> RulesOutEachPair(kinds)
  {
    if RulesOutEachPair(kinds) {
      forall clock: Time, steps: seq<Step>, id: string |
        Runs(pacing, Start(clock), steps) && LeasedRun(pacing, Start(clock), steps) &&
        AvoidingRun(pacing, Start(clock), steps, kinds)
        ensures Successes(Exec(pacing, Start(clock), steps).attempts, id) <= 1
      {
        RuledOutSubmitsOnce(pacing, clock, steps, kinds, id);
      }
    } else {
      var pair :| pair in FATAL_PAIRS && kinds !! pair;
      FatalPairDuplicates(pacing, kinds, pair);
    }
  }

  /**
   Of the two rules a worker can keep by itself, no late renewal and no late release,
   both are needed and both together suffice; of the four interferences, all four.
   */
  lemma PunctualityIff(pacing: Pacing, kinds: set<Interference>)
    requires pacing.Valid()
    ensures kinds <= LATE_CALLS ==> (AtMostOnceUnder(pacing, kinds) <==> kinds == LATE_CALLS)
    ensures kinds <= INTERFERENCES ==> (AtMostOnceUnder(pacing, kinds) <==> kinds == INTERFERENCES)
  {
    AtMostOnceIff(pacing, kinds);
    ThreeDisciplines(kinds);
  }
}
