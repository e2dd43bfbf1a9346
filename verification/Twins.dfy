/**
 Mutual exclusion on a row, pending or not. RenewClaim and ReleaseClaim compare
 the claimer only, so a lifecycle whose lease has lapsed can still renew or release
 the hold its own worker has since taken again for a newer lifecycle.
 */
module Twins {
  import opened Submissions
  import opened Mutators
  import opened Protocol
  import opened AtMostOnce

  predicate Live(s: State, life: Lifecycle) {
    life.phase != Gone && InOwnLease(s, life)
  }

  /** A live lifecycle is the recorded holder of its row, for as long as it thinks. */
  predicate HeldFor(s: State, life: Lifecycle) {
    Live(s, life) ==>
      && life.eventId in s.rows && s.rows[life.eventId].claimedBy == life.claimer
      && life.leaseEnd <= s.rows[life.eventId].claimedUntil
  }

  predicate Overlap(s: State, a: Lifecycle, b: Lifecycle) {
    a.eventId == b.eventId && Live(s, a) && Live(s, b)
  }

  /** Every lifecycle inside its own lease is held by the store, and no two of them share a row. */
  ghost predicate LeasesSound(s: State) {
    && (forall l :: 0 <= l < |s.lifecycles| ==> s.lifecycles[l].claimer != "" && HeldFor(s, s.lifecycles[l]))
    && (forall l, m :: 0 <= l < m < |s.lifecycles| ==> !Overlap(s, s.lifecycles[l], s.lifecycles[m]))
  }

  /** Another lifecycle of the same worker is on the same row, inside its own lease. */
  predicate TwinAt(s: State, l: nat, m: nat) {
    && l < |s.lifecycles| && m < |s.lifecycles| && m != l
    && s.lifecycles[m].eventId == s.lifecycles[l].eventId
    && s.lifecycles[m].claimer == s.lifecycles[l].claimer
    && Live(s, s.lifecycles[m])
  }

  ghost predicate HasLiveTwin(s: State, l: nat) {
    exists m: nat :: TwinAt(s, l, m)
  }

  lemma NoOverlap(s: State, l: nat, m: nat)
    requires LeasesSound(s) && l < |s.lifecycles| && m < |s.lifecycles| && l != m
    ensures !Overlap(s, s.lifecycles[l], s.lifecycles[m])
  {
    if m < l {
      assert !Overlap(s, s.lifecycles[m], s.lifecycles[l]);
    }
  }

  // ---------- releases ----------

  lemma ReleaseUnsound(pacing: Pacing, s: State, l: nat)
    requires LeasesSound(s) && Enabled(pacing, s, Release(l)) && HasLiveTwin(s, l)
    ensures !LeasesSound(Do(pacing, s, Release(l)))
  {
    var t := Do(pacing, s, Release(l));
    var m: nat :| TwinAt(s, l, m);
    assert HeldFor(s, s.lifecycles[m]);
    assert t.lifecycles[m] == s.lifecycles[m];
    assert !HeldFor(t, t.lifecycles[m]);
  }

  lemma ReleaseKeepsHeld(pacing: Pacing, s: State, l: nat, m: nat)
    requires LeasesSound(s) && Enabled(pacing, s, Release(l)) && !HasLiveTwin(s, l) && m < |s.lifecycles|
    ensures HeldFor(Do(pacing, s, Release(l)), Do(pacing, s, Release(l)).lifecycles[m])
  {
    assert HeldFor(s, s.lifecycles[m]);
    assert !TwinAt(s, l, m);
  }

  /** Releasing keeps everybody's lease sound exactly when no live twin holds the row. */
  lemma ReleaseSoundIff(pacing: Pacing, s: State, l: nat)
    requires LeasesSound(s) && Enabled(pacing, s, Release(l))
    ensures LeasesSound(Do(pacing, s, Release(l))) <==> !HasLiveTwin(s, l)
  {
    var t := Do(pacing, s, Release(l));
    if HasLiveTwin(s, l) {
      ReleaseUnsound(pacing, s, l);
    } else {
      forall m | 0 <= m < |t.lifecycles|
        ensures t.lifecycles[m].claimer != "" && HeldFor(t, t.lifecycles[m])
      {
        ReleaseKeepsHeld(pacing, s, l, m);
      }
      OthersStayApart(pacing, s, Release(l));
    }
  }

  // ---------- renewals ----------

  lemma RenewUnsound(pacing: Pacing, s: State, l: nat, at: Time)
    requires LeasesSound(s) && Enabled(pacing, s, Renew(l, at)) && HasLiveTwin(s, l)
    ensures !LeasesSound(Do(pacing, s, Renew(l, at)))
  {
    var t := Do(pacing, s, Renew(l, at));
    var m: nat :| TwinAt(s, l, m);
    assert HeldFor(s, s.lifecycles[m]);
    assert t.lifecycles[m] == s.lifecycles[m];
    if at + pacing.leaseDuration < s.lifecycles[m].leaseEnd {
      assert !HeldFor(t, t.lifecycles[m]);
    } else {
      assert Overlap(t, t.lifecycles[l], t.lifecycles[m]);
      if LeasesSound(t) {
        NoOverlap(t, l, m);
      }
    }
  }

  lemma RenewKeepsHeld(pacing: Pacing, s: State, l: nat, at: Time, m: nat)
    requires LeasesSound(s) && Enabled(pacing, s, Renew(l, at)) && !HasLiveTwin(s, l) && m < |s.lifecycles|
    ensures HeldFor(Do(pacing, s, Renew(l, at)), Do(pacing, s, Renew(l, at)).lifecycles[m])
  {
    assert HeldFor(s, s.lifecycles[m]);
    assert !TwinAt(s, l, m);
  }

  lemma RenewStaysApart(pacing: Pacing, s: State, l: nat, at: Time, m: nat)
    requires LeasesSound(s) && Enabled(pacing, s, Renew(l, at)) && !HasLiveTwin(s, l) && m < |s.lifecycles| && m != l
    ensures var t := Do(pacing, s, Renew(l, at)); !Overlap(t, t.lifecycles[l], t.lifecycles[m])
  {
    assert HeldFor(s, s.lifecycles[m]);
    NoOverlap(s, l, m);
    assert !TwinAt(s, l, m);
  }

  /** So does renewing. */
  lemma RenewSoundIff(pacing: Pacing, s: State, l: nat, at: Time)
    requires LeasesSound(s) && Enabled(pacing, s, Renew(l, at))
    ensures LeasesSound(Do(pacing, s, Renew(l, at))) <==> !HasLiveTwin(s, l)
  {
    var t := Do(pacing, s, Renew(l, at));
    if HasLiveTwin(s, l) {
      RenewUnsound(pacing, s, l, at);
    } else {
      forall m | 0 <= m < |t.lifecycles|
        ensures t.lifecycles[m].claimer != "" && HeldFor(t, t.lifecycles[m])
      {
        RenewKeepsHeld(pacing, s, l, at, m);
      }
      forall m, k | 0 <= m < k < |t.lifecycles|
        ensures !Overlap(t, t.lifecycles[m], t.lifecycles[k])
      {
        if m == l {
          RenewStaysApart(pacing, s, l, at, k);
        } else if k == l {
          RenewStaysApart(pacing, s, l, at, m);
        } else {
          assert t.lifecycles[m] == s.lifecycles[m] && t.lifecycles[k] == s.lifecycles[k];
          NoOverlap(s, m, k);
        }
      }
    }
  }

  // ---------- all other steps ----------

  lemma LiveChange(pacing: Pacing, s: State, step: Step, l: nat)
    requires Enabled(pacing, s, step) && l < |s.lifecycles| && !step.Renew?
    ensures var was, now := s.lifecycles[l], Do(pacing, s, step).lifecycles[l];
            && now.eventId == was.eventId && now.claimer == was.claimer && now.leaseEnd == was.leaseEnd
            && (Live(Do(pacing, s, step), now) ==> Live(s, was))
  {
    LifeChange(pacing, s, step, l);
  }

  /** Among the lifecycles there already are, only a renewal can make two overlap. */
  lemma OthersStayApart(pacing: Pacing, s: State, step: Step)
    requires LeasesSound(s) && Enabled(pacing, s, step) && !step.Renew?
    ensures forall l, m :: 0 <= l < m < |s.lifecycles| ==>
              !Overlap(Do(pacing, s, step), Do(pacing, s, step).lifecycles[l], Do(pacing, s, step).lifecycles[m])
  {
    forall l, m | 0 <= l < m < |s.lifecycles|
      ensures !Overlap(Do(pacing, s, step), Do(pacing, s, step).lifecycles[l], Do(pacing, s, step).lifecycles[m])
    {
      LiveChange(pacing, s, step, l);
      LiveChange(pacing, s, step, m);
      NoOverlap(s, l, m);
    }
  }

  lemma OtherKeepsHeld(pacing: Pacing, s: State, step: Step, l: nat)
    requires LeasesSound(s) && Enabled(pacing, s, step) && !step.Renew? && !step.Release? && l < |s.lifecycles|
    ensures Do(pacing, s, step).lifecycles[l].claimer != ""
    ensures HeldFor(Do(pacing, s, step), Do(pacing, s, step).lifecycles[l])
  {
    assert HeldFor(s, s.lifecycles[l]);
    LiveChange(pacing, s, step, l);
    if Live(s, s.lifecycles[l]) {
      ClaimChange(pacing, s, step, s.lifecycles[l].eventId);
      ClaimIsFree(pacing, s, step, l);
    }
  }

  /** A claim never takes a row from a live lifecycle. */
  lemma ClaimIsFree(pacing: Pacing, s: State, step: Step, l: nat)
    requires LeasesSound(s) && Enabled(pacing, s, step) && l < |s.lifecycles| && Live(s, s.lifecycles[l])
    ensures step.Claim? ==> step.eventId != s.lifecycles[l].eventId
  {
    assert HeldFor(s, s.lifecycles[l]);
  }

  lemma NewcomerHeld(pacing: Pacing, s: State, step: Step)
    requires LeasesSound(s) && Enabled(pacing, s, step) && |Do(pacing, s, step).lifecycles| > |s.lifecycles|
    ensures var t, n := Do(pacing, s, step), |s.lifecycles|;
            && |t.lifecycles| == n + 1 && t.lifecycles[n].claimer != "" && HeldFor(t, t.lifecycles[n])
            && forall l :: 0 <= l < n ==> !Overlap(t, t.lifecycles[l], t.lifecycles[n])
  {
    var t, n := Do(pacing, s, step), |s.lifecycles|;
    Newcomer(pacing, s, step);
    forall l | 0 <= l < n
      ensures !Overlap(t, t.lifecycles[l], t.lifecycles[n])
    {
      LiveChange(pacing, s, step, l);
      if Live(s, s.lifecycles[l]) {
        ClaimIsFree(pacing, s, step, l);
      }
    }
  }

  lemma OtherStepsSound(pacing: Pacing, s: State, step: Step)
    requires LeasesSound(s) && Enabled(pacing, s, step) && !step.Renew? && !step.Release?
    ensures LeasesSound(Do(pacing, s, step))
  {
    var t := Do(pacing, s, step);
    if |t.lifecycles| > |s.lifecycles| {
      NewcomerHeld(pacing, s, step);
    }
    forall l | 0 <= l < |s.lifecycles|
      ensures t.lifecycles[l].claimer != "" && HeldFor(t, t.lifecycles[l])
    {
      OtherKeepsHeld(pacing, s, step, l);
    }
    OthersStayApart(pacing, s, step);
  }

  // ---------- whole runs ----------

  /** A renewal or release by a lifecycle that has a live twin. */
  ghost predicate Trespasses(s: State, step: Step) {
    match step
    case Renew(l, _) => HasLiveTwin(s, l)
    case Release(l) => HasLiveTwin(s, l)
    case _ => false
  }

  ghost predicate TrespassFree(pacing: Pacing, s: State, steps: seq<Step>)
    requires Runs(pacing, s, steps)
    decreases |steps|
  {
    steps == [] || (!Trespasses(s, steps[0]) && TrespassFree(pacing, Do(pacing, s, steps[0]), steps[1..]))
  }

  ghost predicate SoundThroughout(pacing: Pacing, s: State, steps: seq<Step>)
    requires Runs(pacing, s, steps)
    decreases |steps|
  {
    LeasesSound(s) && (steps == [] || SoundThroughout(pacing, Do(pacing, s, steps[0]), steps[1..]))
  }

  lemma StepSoundIff(pacing: Pacing, s: State, step: Step)
    requires LeasesSound(s) && Enabled(pacing, s, step)
    ensures LeasesSound(Do(pacing, s, step)) <==> !Trespasses(s, step)
  {
    match step
    case Renew(l, at) => RenewSoundIff(pacing, s, l, at);
    case Release(l) => ReleaseSoundIff(pacing, s, l);
    case _ => OtherStepsSound(pacing, s, step);
  }

  lemma {:induction false} SoundThroughoutIff(pacing: Pacing, s: State, steps: seq<Step>)
    requires LeasesSound(s) && Runs(pacing, s, steps)
    ensures SoundThroughout(pacing, s, steps) <==> TrespassFree(pacing, s, steps)
    decreases |steps|
  {
    if steps != [] {
      StepSoundIff(pacing, s, steps[0]);
      if !Trespasses(s, steps[0]) {
        SoundThroughoutIff(pacing, Do(pacing, s, steps[0]), steps[1..]);
      } else {
        UnsoundAtOnce(pacing, Do(pacing, s, steps[0]), steps[1..]);
      }
    }
  }

  lemma UnsoundAtOnce(pacing: Pacing, s: State, steps: seq<Step>)
    requires !LeasesSound(s) && Runs(pacing, s, steps)
    ensures !SoundThroughout(pacing, s, steps)
  {
  }

  /**
   Mutual exclusion: in every run, each lifecycle inside its own lease is its row's
   recorded holder and the only one there, in all states of the run, exactly when
   no lifecycle of the run renews or releases while it has a live twin.
   */
  lemma MutualExclusionIff(pacing: Pacing, clock: Time, steps: seq<Step>)
    requires Runs(pacing, Start(clock), steps)
    ensures SoundThroughout(pacing, Start(clock), steps) <==> TrespassFree(pacing, Start(clock), steps)
  {
    SoundThroughoutIff(pacing, Start(clock), steps);
  }
}
