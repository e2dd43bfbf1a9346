/** Lease fencing over whole runs of store calls made by any mix of clients. */
module Leases {
  import opened Submissions
  import opened Mutators
  import opened StoreInMem

  datatype Call =
    | CallPut(row: Submission)
    | CallUpdate(eventId: string, command: Command)
    | CallClaim(claimer: string, limit: nat, batch: seq<Submission>)
    | CallRenew(eventId: string, claimer: string)
    | CallRelease(eventId: string, claimer: string)

  /** One store call, the clock reading it used and, for claims and renewals, the lease it asked for. */
  datatype Event = Event(call: Call, at: Time, lease: nat)

  predicate Grants(event: Event, id: string) {
    event.call.CallClaim? && id in Ids(event.call.batch)
  }

  predicate Renews(rows: Rows, event: Event, id: string) {
    && event.call.CallRenew? && event.call.eventId == id && event.call.claimer != ""
    && id in rows && rows[id].claimedBy == event.call.claimer
  }

  predicate Releases(rows: Rows, event: Event, id: string) {
    && event.call.CallRelease? && event.call.eventId == id
    && id in rows && rows[id].claimedBy == event.call.claimer
  }

  /** The effect of each store method, including the calls that fail and change nothing. */
  ghost predicate StoreStep(pacing: Pacing, rows: Rows, event: Event, after: Rows) {
    match event.call
    case CallPut(row) =>
      after == if row.eventId in rows then rows else rows[row.eventId := row]
    case CallUpdate(id, command) =>
      after == if id in rows && Mutated(pacing, command, rows[id], event.at).Some?
               then rows[id := Mutated(pacing, command, rows[id], event.at).value.(updatedAt := event.at)]
               else rows
    case CallClaim(claimer, limit, batch) =>
      claimer != "" && Claimed(rows, event.at, claimer, limit, event.lease, batch, after)
    case CallRenew(id, claimer) =>
      after == if Renews(rows, event, id)
               then rows[id := Stamped(rows[id], claimer, event.at + event.lease, event.at)] else rows
    case CallRelease(id, claimer) =>
      after == if Releases(rows, event, id) then rows[id := Released(rows[id], event.at)] else rows
  }

  /** A run: the stored rows before every call and after the last, with clock readings that never go back. */
  ghost predicate StoreRun(pacing: Pacing, states: seq<Rows>, events: seq<Event>) {
    && |states| == |events| + 1
    && Filed(states[0])
    && (forall k :: 0 <= k < |events| ==> StoreStep(pacing, states[k], events[k], states[k + 1]))
    && (forall i, j :: 0 <= i <= j < |events| ==> events[i].at <= events[j].at)
  }

  lemma StepKeepsFiled(pacing: Pacing, rows: Rows, event: Event, after: Rows)
    requires Filed(rows) && StoreStep(pacing, rows, event, after)
    ensures Filed(after)
    ensures rows.Keys <= after.Keys
  {
    if event.call.CallUpdate? {
      var id := event.call.eventId;
      if id in rows && Mutated(pacing, event.call.command, rows[id], event.at).Some? {
        CommandEvolves(pacing, event.call.command, rows[id], event.at);
      }
    }
  }

  lemma {:induction false} RunKeepsFiled(pacing: Pacing, states: seq<Rows>, events: seq<Event>, k: nat)
    requires StoreRun(pacing, states, events) && k < |states|
    ensures Filed(states[k])
  {
    if k > 0 {
      RunKeepsFiled(pacing, states, events, k - 1);
      StepKeepsFiled(pacing, states[k - 1], events[k - 1], states[k]);
    }
  }

  lemma GrantedWasEligible(pacing: Pacing, rows: Rows, event: Event, after: Rows, id: string)
    requires StoreStep(pacing, rows, event, after) && Grants(event, id)
    ensures id in rows && Eligible(rows[id], event.at)
  {
    assert id in EligibleIds(rows, event.at);
  }

  /** What one call does to the hold on one stored row. */
  lemma HoldAfter(pacing: Pacing, rows: Rows, event: Event, after: Rows, id: string)
    requires Filed(rows) && StoreStep(pacing, rows, event, after) && id in rows
    ensures id in after
    ensures Grants(event, id) ==>
              && !Held(rows[id], event.at)
              && after[id].claimedBy == event.call.claimer && after[id].claimedUntil == event.at + event.lease
    ensures Renews(rows, event, id) ==>
              after[id].claimedBy == rows[id].claimedBy && after[id].claimedUntil == event.at + event.lease
    ensures Releases(rows, event, id) ==> after[id].claimedBy == ""
    ensures !Grants(event, id) && !Renews(rows, event, id) && !Releases(rows, event, id) ==>
              after[id].claimedBy == rows[id].claimedBy && after[id].claimedUntil == rows[id].claimedUntil
  {
    match event.call
    case CallUpdate(other, command) =>
      if other in rows && Mutated(pacing, command, rows[other], event.at).Some? {
        CommandEvolves(pacing, command, rows[other], event.at);
      }
    case CallClaim(claimer, limit, batch) =>
      if Grants(event, id) {
        GrantedWasEligible(pacing, rows, event, after, id);
      }
    case _ =>
  }

  /** The last grant or renewal of id in events[i..m] is at k. */
  ghost predicate LastExtended(states: seq<Rows>, events: seq<Event>, id: string, k: nat, m: nat)
    requires m <= |events| < |states|
  {
    && k < m
    && (Grants(events[k], id) || Renews(states[k], events[k], id))
    && forall n :: k < n < m ==> !Grants(events[n], id) && !Renews(states[n], events[n], id)
  }

  ghost predicate ReleasedBetween(states: seq<Rows>, events: seq<Event>, id: string, i: nat, m: nat)
    requires m <= |events| < |states|
  {
    exists k :: i < k < m && Releases(states[k], events[k], id)
  }

  ghost predicate StillLeased(states: seq<Rows>, events: seq<Event>, id: string, i: nat, m: nat)
    requires m <= |events| < |states|
  {
    exists k :: && i <= k && LastExtended(states, events, id, k, m)
                && id in states[m] && states[m][id].claimedBy != ""
                && states[m][id].claimedUntil == events[k].at + events[k].lease
  }

  /** Since its grant at i, a row has either been released or carries the last granted or renewed lease. */
  lemma {:induction false} HoldHistory(pacing: Pacing, states: seq<Rows>, events: seq<Event>, id: string, i: nat, m: nat)
    requires StoreRun(pacing, states, events)
    requires i < m <= |events| && Grants(events[i], id)
    ensures id in states[m]
    ensures ReleasedBetween(states, events, id, i, m) || StillLeased(states, events, id, i, m)
    decreases m
  {
    var n := m - 1;
    RunKeepsFiled(pacing, states, events, n);
    if n == i {
      GrantedWasEligible(pacing, states[i], events[i], states[m], id);
      HoldAfter(pacing, states[n], events[n], states[m], id);
      assert LastExtended(states, events, id, i, m);
    } else {
      HoldHistory(pacing, states, events, id, i, n);
      HoldAfter(pacing, states[n], events[n], states[m], id);
      if ReleasedBetween(states, events, id, i, n) {
        var k :| i < k < n && Releases(states[k], events[k], id);
        assert i < k < m;
      } else if Releases(states[n], events[n], id) {
        assert i < n < m;
      } else if Grants(events[n], id) || Renews(states[n], events[n], id) {
        assert LastExtended(states, events, id, n, m);
      } else {
        LeaseCarries(states, events, id, i, n);
      }
    }
  }

  /** A call that leaves the hold alone leaves the row under its last granted or renewed lease. */
  lemma LeaseCarries(states: seq<Rows>, events: seq<Event>, id: string, i: nat, n: nat)
    requires n < |events| < |states| && StillLeased(states, events, id, i, n)
    requires !Grants(events[n], id) && !Renews(states[n], events[n], id)
    requires id in states[n + 1] && states[n + 1][id].claimedBy == states[n][id].claimedBy
    requires states[n + 1][id].claimedUntil == states[n][id].claimedUntil
    ensures StillLeased(states, events, id, i, n + 1)
  {
    var k :| i <= k && LastExtended(states, events, id, k, n)
             && id in states[n] && states[n][id].claimedBy != ""
             && states[n][id].claimedUntil == events[k].at + events[k].lease;
    assert LastExtended(states, events, id, k, n + 1);
  }

  /**
   Two grants of one row are separated by a successful release, or by the expiry
   of the lease that was last granted or renewed before the second.
   */
  lemma GrantsAreFenced(pacing: Pacing, states: seq<Rows>, events: seq<Event>, id: string, i: nat, j: nat)
    requires StoreRun(pacing, states, events)
    requires i < j < |events| && Grants(events[i], id) && Grants(events[j], id)
    ensures ReleasedBetween(states, events, id, i, j) ||
            exists k :: i <= k && LastExtended(states, events, id, k, j) && events[k].at + events[k].lease <= events[j].at
  {
    HoldHistory(pacing, states, events, id, i, j);
    RunKeepsFiled(pacing, states, events, j);
    HoldAfter(pacing, states[j], events[j], states[j + 1], id);
  }

  /** Once a row is granted to another claimer, a's renewals and releases of it fail until a is granted it again. */
  lemma {:induction false} OthersAreLockedOut(pacing: Pacing, states: seq<Rows>, events: seq<Event>,
                                              id: string, a: string, i: nat, j: nat)
    requires StoreRun(pacing, states, events)
    requires i < j <= |events| && Grants(events[i], id)
    requires a != "" && events[i].call.claimer != a
    requires forall k :: i < k < j && Grants(events[k], id) ==> events[k].call.claimer != a
    ensures id in states[j] && states[j][id].claimedBy != a
    ensures j < |events| && events[j].call.CallRenew? && events[j].call.claimer == a ==>
              !Renews(states[j], events[j], id)
    ensures j < |events| && events[j].call.CallRelease? && events[j].call.claimer == a ==>
              !Releases(states[j], events[j], id)
    decreases j
  {
    var n := j - 1;
    RunKeepsFiled(pacing, states, events, n);
    if n == i {
      GrantedWasEligible(pacing, states[i], events[i], states[j], id);
    } else {
      OthersAreLockedOut(pacing, states, events, id, a, i, n);
    }
    HoldAfter(pacing, states[n], events[n], states[j], id);
  }
}
