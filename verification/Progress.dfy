/** No row is abandoned: how far ahead a row can be due or held, and what silence from its holder leads to. */
module Progress {
  import opened Submissions
  import opened Mutators
  import opened StoreInMem
  import opened Protocol
  import opened Safety
  import opened AtMostOnce

  ghost predicate RowBounded(pacing: Pacing, clock: Time, row: Submission) {
    && row.nextAttemptAt <= clock + Horizon(pacing)
    && row.claimedUntil <= clock + pacing.leaseDuration
  }

  ghost predicate Bounded(pacing: Pacing, s: State) {
    && (forall id :: id in s.rows ==> RowBounded(pacing, s.clock, s.rows[id]))
    && (forall d :: 0 <= d < |s.deliveries| && s.deliveries[d].stage.Prepared? ==>
          RowBounded(pacing, s.clock, s.deliveries[d].stage.row))
  }

  lemma StepBoundsRow(pacing: Pacing, s: State, step: Step, id: string)
    requires Bounded(pacing, s) && Enabled(pacing, s, step) && id in Do(pacing, s, step).rows
    ensures RowBounded(pacing, Do(pacing, s, step).clock, Do(pacing, s, step).rows[id])
  {
    RowChange(pacing, s, step, id);
    if id in s.rows {
      ClaimChange(pacing, s, step, id);
      if step.Record? && Do(pacing, s, step).rows[id] != s.rows[id] {
        CommandDueTime(pacing, s.lifecycles[step.l].phase.command, s.rows[id], s.clock);
      }
    }
  }

  lemma StepKeepsBounded(pacing: Pacing, s: State, step: Step)
    requires Bounded(pacing, s) && Enabled(pacing, s, step)
    ensures Bounded(pacing, Do(pacing, s, step))
  {
    var t := Do(pacing, s, step);
    forall id | id in t.rows
      ensures RowBounded(pacing, t.clock, t.rows[id])
    {
      StepBoundsRow(pacing, s, step, id);
    }
  }

  lemma {:induction false} RunKeepsBounded(pacing: Pacing, s: State, steps: seq<Step>)
    requires Bounded(pacing, s) && Runs(pacing, s, steps)
    ensures Bounded(pacing, Exec(pacing, s, steps))
    decreases |steps|
  {
    if steps != [] {
      StepKeepsBounded(pacing, s, steps[0]);
      RunKeepsBounded(pacing, Do(pacing, s, steps[0]), steps[1..]);
    }
  }

  /** In every reachable state no row is due further ahead than one horizon, or held longer than one lease. */
  lemma NoRowIsFarAhead(pacing: Pacing, clock: Time, steps: seq<Step>, id: string)
    requires Runs(pacing, Start(clock), steps) && id in Exec(pacing, Start(clock), steps).rows
    ensures var s := Exec(pacing, Start(clock), steps);
            && s.rows[id].nextAttemptAt <= s.clock + Horizon(pacing)
            && s.rows[id].claimedUntil <= s.clock + pacing.leaseDuration
  {
    RunKeepsBounded(pacing, Start(clock), steps);
  }

  /** The step records nothing on the row, renews no lease on it and grants it to nobody. */
  predicate Silent(s: State, step: Step, id: string) {
    match step
    case Claim(other, _, _) => other != id
    case Record(l) => !(l < |s.lifecycles| && s.lifecycles[l].eventId == id)
    case Renew(l, _) => !(l < |s.lifecycles| && s.lifecycles[l].eventId == id)
    case _ => true
  }

  ghost predicate SilentRun(pacing: Pacing, s: State, steps: seq<Step>, id: string)
    requires Runs(pacing, s, steps)
    decreases |steps|
  {
    steps == [] || (Silent(s, steps[0], id) && SilentRun(pacing, Do(pacing, s, steps[0]), steps[1..], id))
  }

  ghost predicate Waiting(row: Submission, due: Time, free: Time) {
    !Terminal(row.status) && row.nextAttemptAt <= due && (row.claimedBy != "" ==> row.claimedUntil <= free)
  }

  lemma SilentStep(pacing: Pacing, s: State, step: Step, id: string, due: Time, free: Time)
    requires Enabled(pacing, s, step) && Silent(s, step, id)
    requires id in s.rows && Waiting(s.rows[id], due, free)
    ensures id in Do(pacing, s, step).rows && Waiting(Do(pacing, s, step).rows[id], due, free)
  {
    ClaimChange(pacing, s, step, id);
    RowChange(pacing, s, step, id);
  }

  lemma {:induction false} SilentRunWaits(pacing: Pacing, s: State, steps: seq<Step>, id: string, due: Time, free: Time)
    requires Runs(pacing, s, steps) && SilentRun(pacing, s, steps, id)
    requires id in s.rows && Waiting(s.rows[id], due, free)
    ensures id in Exec(pacing, s, steps).rows && Waiting(Exec(pacing, s, steps).rows[id], due, free)
    decreases |steps|
  {
    if steps != [] {
      SilentStep(pacing, s, steps[0], id, due, free);
      SilentRunWaits(pacing, Do(pacing, s, steps[0]), steps[1..], id, due, free);
    }
  }

  function Patience(pacing: Pacing): (p: nat)
    ensures p >= Horizon(pacing) && p >= pacing.leaseDuration
    ensures p == Horizon(pacing) || p == pacing.leaseDuration
  {
    if Horizon(pacing) >= pacing.leaseDuration then Horizon(pacing) else pacing.leaseDuration
  }

  /**
   From any reachable state, a row that is not in an end state becomes claimable
   once its holder has been silent for the longer of one lease and one horizon,
   whatever all the other lifecycles, deliveries and rows do meanwhile.
   */
  lemma SilentRowBecomesEligible(pacing: Pacing, clock: Time, steps: seq<Step>, more: seq<Step>, id: string)
    requires Runs(pacing, Start(clock), steps)
    requires var s := Exec(pacing, Start(clock), steps);
             && id in s.rows && !Terminal(s.rows[id].status)
             && Runs(pacing, s, more) && SilentRun(pacing, s, more, id)
             && Exec(pacing, s, more).clock >= s.clock + Patience(pacing)
    ensures var t := Exec(pacing, Exec(pacing, Start(clock), steps), more);
            id in t.rows && Eligible(t.rows[id], t.clock)
  {
    var s := Exec(pacing, Start(clock), steps);
    RunKeepsBounded(pacing, Start(clock), steps);
    SilentRunWaits(pacing, s, more, id, s.clock + Horizon(pacing), s.clock + pacing.leaseDuration);
  }

  function NoYounger(rows: Rows, now: Time, id: string): set<string>
    requires id in rows
  {
    set other | other in EligibleIds(rows, now) && rows[other].createdAt <= rows[id].createdAt
  }

  lemma SubsetSize<T>(a: set<T>, b: set<T>)
    requires a <= b
    ensures |a| <= |b|
    ensures |a| == |b| ==> a == b
  {
    assert b == a + (b - a);
  }

  /** ClaimBatch returns an eligible row whenever its limit covers the eligible rows that are no younger. */
  lemma ClaimReachesRow(rows: Rows, now: Time, claimer: string, limit: nat, lease: nat,
                        batch: seq<Submission>, after: Rows, id: string)
    requires Claimed(rows, now, claimer, limit, lease, batch, after)
    requires id in rows && Eligible(rows[id], now)
    requires limit >= |NoYounger(rows, now, id)|
    ensures id in Ids(batch)
  {
    if id !in Ids(batch) {
      IdCount(batch);
      var ahead := NoYounger(rows, now, id);
      forall other | other in Ids(batch)
        ensures other in ahead
      {
        var i :| 0 <= i < |batch| && batch[i].eventId == other;
        assert batch[i].createdAt <= rows[id].createdAt;
      }
      SubsetSize(Ids(batch) + {id}, ahead);
      SubsetSize(Ids(batch), EligibleIds(rows, now));
    }
  }

  // ---------- ClaimBatch is a run of single claims ----------

  ghost predicate ClaimedSoFar(pacing: Pacing, s: State, claimer: string, at: Time, done: set<string>, t: State) {
    && t.clock == s.clock
    && t.rows == Install(s.rows, done, claimer, at + pacing.leaseDuration, at)
  }

  function ClaimSteps(batch: seq<Submission>, claimer: string, at: Time): seq<Step> {
    seq(|batch|, i requires 0 <= i < |batch| => Claim(batch[i].eventId, claimer, at))
  }

  /** What ClaimBatch does to the store in one go is what the protocol's single-row claims do one after another. */
  lemma {:induction false} BatchIsClaims(pacing: Pacing, s: State, claimer: string, at: Time, done: set<string>,
                                         rest: seq<Submission>, t: State)
    requires claimer != "" && at <= s.clock
    requires ClaimedSoFar(pacing, s, claimer, at, done, t)
    requires DistinctIds(rest) && Ids(rest) <= EligibleIds(s.rows, at) && Ids(rest) !! done
    ensures Runs(pacing, t, ClaimSteps(rest, claimer, at))
    ensures ClaimedSoFar(pacing, s, claimer, at, done + Ids(rest), Exec(pacing, t, ClaimSteps(rest, claimer, at)))
    decreases |rest|
  {
    if rest == [] {
      assert done + Ids(rest) == done;
    } else {
      var id := rest[0].eventId;
      assert id in Ids(rest);
      var step := Claim(id, claimer, at);
      assert Enabled(pacing, t, step);
      var u := Do(pacing, t, step);
      assert ClaimedSoFar(pacing, s, claimer, at, done + {id}, u);
      IdsTail(rest);
      BatchIsClaims(pacing, s, claimer, at, done + {id}, rest[1..], u);
      assert ClaimSteps(rest, claimer, at)[1..] == ClaimSteps(rest[1..], claimer, at);
      assert done + {id} + Ids(rest[1..]) == done + Ids(rest);
    }
  }

  lemma IdsTail(rest: seq<Submission>)
    requires rest != [] && DistinctIds(rest)
    ensures Ids(rest) == {rest[0].eventId} + Ids(rest[1..])
    ensures rest[0].eventId !in Ids(rest[1..])
  {
    forall id | id in Ids(rest[1..])
      ensures id in Ids(rest) && id != rest[0].eventId
    {
      var i :| 0 <= i < |rest[1..]| && rest[1..][i].eventId == id;
      assert rest[i + 1].eventId == id;
    }
    forall id | id in Ids(rest) && id != rest[0].eventId
      ensures id in Ids(rest[1..])
    {
      var i :| 0 <= i < |rest| && rest[i].eventId == id;
      assert rest[1..][i - 1].eventId == id;
    }
  }

  /** ClaimBatch refines the protocol: its effect on the rows is reached by steps of the transition system. */
  lemma ClaimBatchRefines(pacing: Pacing, s: State, claimer: string, limit: nat, at: Time,
                          batch: seq<Submission>, after: Rows)
    requires claimer != "" && at <= s.clock
    requires Claimed(s.rows, at, claimer, limit, pacing.leaseDuration, batch, after)
    ensures Runs(pacing, s, ClaimSteps(batch, claimer, at))
    ensures Exec(pacing, s, ClaimSteps(batch, claimer, at)).rows == after
  {
    assert Install(s.rows, {}, claimer, at + pacing.leaseDuration, at) == s.rows;
    BatchIsClaims(pacing, s, claimer, at, {}, batch, s);
    assert {} + Ids(batch) == Ids(batch);
  }
}
