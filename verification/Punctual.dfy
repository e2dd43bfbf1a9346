/**
 At most once by a rule each worker can keep by itself: renew and release only
 inside one's own unexpired lease. No such call meets a live twin, so neither the
 leases nor the next submit are ever endangered.
 */
module Punctual {
  import opened Submissions
  import opened Mutators
  import opened Protocol
  import opened Safety
  import opened AtMostOnce
  import opened Twins

  /** No renewal or release of the run is made after the caller's own lease has run out. */
  ghost predicate PunctualRun(pacing: Pacing, s: State, steps: seq<Step>)
    requires Runs(pacing, s, steps)
  {
    AvoidingRun(pacing, s, steps, LATE_CALLS)
  }

  /** A lifecycle that calls in time is live, and so has no live twin. */
  lemma InTimeMeansAlone(s: State, l: nat, m: nat)
    requires LeasesSound(s) && l < |s.lifecycles| && m < |s.lifecycles| && l != m
    requires s.lifecycles[l].phase != Gone && !Late(s, l)
    requires s.lifecycles[m].eventId == s.lifecycles[l].eventId
    ensures !Live(s, s.lifecycles[m])
  {
    NoOverlap(s, l, m);
  }

  lemma PunctualIsNoTrespass(pacing: Pacing, s: State, step: Step)
    requires LeasesSound(s) && Enabled(pacing, s, step) && Avoids(pacing, s, step, LATE_CALLS)
    ensures !Trespasses(s, step)
  {
    if Trespasses(s, step) {
      assert !Interferes(pacing, s, step, LateRelease) && !Interferes(pacing, s, step, LateRenewal);
      var m: nat :| TwinAt(s, step.l, m);
      InTimeMeansAlone(s, step.l, m);
    }
  }

  /** In time, a plan to submit is already at work, so a renewal revives nothing. */
  lemma PunctualRenewalAvoids(pacing: Pacing, s: State, step: Step)
    requires LeasesSound(s) && Clean(s) && Enabled(pacing, s, step) && step.Renew? && !Late(s, step.l)
    ensures Avoids(pacing, s, step, INTERFERENCES)
  {
    var l := step.l;
    assert LifeOk(s, s.lifecycles[l]);
    forall m: nat
      ensures !WorkingTwin(s, l, m)
    {
      if WorkingTwin(s, l, m) {
        InTimeMeansAlone(s, l, m);
      }
    }
  }

  lemma PunctualAvoids(pacing: Pacing, s: State, step: Step)
    requires LeasesSound(s) && Clean(s) && Enabled(pacing, s, step) && Avoids(pacing, s, step, LATE_CALLS)
    ensures Avoids(pacing, s, step, INTERFERENCES)
  {
    assert !Interferes(pacing, s, step, LateRelease) && !Interferes(pacing, s, step, LateRenewal);
    if step.Renew? {
      PunctualRenewalAvoids(pacing, s, step);
    } else if step.Release? {
      forall m: nat
        ensures !WorkingTwin(s, step.l, m)
      {
        if WorkingTwin(s, step.l, m) {
          InTimeMeansAlone(s, step.l, m);
        }
      }
    }
  }

  /** Over whole runs, punctual calls keep every lease sound and avoid the four interferences. */
  lemma {:induction false} PunctualRunAvoids(pacing: Pacing, s: State, steps: seq<Step>)
    requires Consistent(s) && Clean(s) && LeaseCoversWindow(s) && LeasesSound(s)
    requires Runs(pacing, s, steps) && LeasedRun(pacing, s, steps) && PunctualRun(pacing, s, steps)
    ensures AvoidingRun(pacing, s, steps, INTERFERENCES) && SoundThroughout(pacing, s, steps)
    decreases |steps|
  {
    if steps != [] {
      PunctualAvoids(pacing, s, steps[0]);
      PunctualIsNoTrespass(pacing, s, steps[0]);
      StepSoundIff(pacing, s, steps[0]);
      StepKeepsConsistent(pacing, s, steps[0]);
      StepKeepsClean(pacing, s, steps[0]);
      PunctualRunAvoids(pacing, Do(pacing, s, steps[0]), steps[1..]);
    }
  }

  /**
   In every run whose submits, renewals and releases all fall inside the caller's own
   lease, NAV answers at most one submit per row, and every lifecycle inside its
   lease is its row's recorded holder and alone there.
   */
  lemma PunctualSubmitsOnce(pacing: Pacing, clock: Time, steps: seq<Step>, id: string)
    requires Runs(pacing, Start(clock), steps) && LeasedRun(pacing, Start(clock), steps)
    requires PunctualRun(pacing, Start(clock), steps)
    ensures Successes(Exec(pacing, Start(clock), steps).attempts, id) <= 1
    ensures SoundThroughout(pacing, Start(clock), steps)
  {
    PunctualRunAvoids(pacing, Start(clock), steps);
    AtMostOneSubmit(pacing, clock, steps, id);
  }

  // ---------- renewals in time, releases with nobody else at work ----------

  /** A lifecycle at work renews without reviving anything. */
  lemma PromptAvoids(pacing: Pacing, s: State, step: Step)
    requires Clean(s) && Enabled(pacing, s, step)
    requires Avoids(pacing, s, step, {ReleaseUnderTwin, RenewBesideTwin, LateRenewal})
    ensures Avoids(pacing, s, step, INTERFERENCES)
  {
    assert !Interferes(pacing, s, step, ReleaseUnderTwin) && !Interferes(pacing, s, step, RenewBesideTwin);
    assert !Interferes(pacing, s, step, LateRenewal);
    if step.Renew? {
      var l := step.l;
      assert LifeOk(s, s.lifecycles[l]);
      forall m: nat | WorkingTwin(s, l, m)
        ensures !(PlansSubmit(s.lifecycles[l].phase) && PlansSubmit(s.lifecycles[m].phase))
      {
        NoClash(s, l, m);
      }
    }
  }

  lemma {:induction false} PromptRunAvoids(pacing: Pacing, s: State, steps: seq<Step>)
    requires Consistent(s) && Clean(s) && LeaseCoversWindow(s)
    requires Runs(pacing, s, steps) && LeasedRun(pacing, s, steps)
    requires AvoidingRun(pacing, s, steps, {ReleaseUnderTwin, RenewBesideTwin, LateRenewal})
    ensures AvoidingRun(pacing, s, steps, INTERFERENCES)
    decreases |steps|
  {
    if steps != [] {
      PromptAvoids(pacing, s, steps[0]);
      StepKeepsConsistent(pacing, s, steps[0]);
      StepKeepsClean(pacing, s, steps[0]);
      PromptRunAvoids(pacing, Do(pacing, s, steps[0]), steps[1..]);
    }
  }
}
