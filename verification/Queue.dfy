/** What ClaimBatch guarantees over any number of calls made at one clock reading. */
module Queue {
  import opened Submissions
  import opened StoreInMem

  datatype ClaimCall = ClaimCall(claimer: string, limit: nat)
  {
    predicate Valid() {
      claimer != "" && limit > 0
    }
  }

  /** Successive calls at the same instant; each one sees the claims the previous ones left. */
  ghost predicate ClaimRun(rows: Rows, now: Time, lease: nat, calls: seq<ClaimCall>,
                           batches: seq<seq<Submission>>, after: Rows)
    decreases |calls|
  {
    && |batches| == |calls|
    && if calls == [] then after == rows
       else
         && calls[0].Valid()
         && var mid := Install(rows, Ids(batches[0]), calls[0].claimer, now + lease, now);
            && Claimed(rows, now, calls[0].claimer, calls[0].limit, lease, batches[0], mid)
            && ClaimRun(mid, now, lease, calls[1..], batches[1..], after)
  }

  function Flatten(batches: seq<seq<Submission>>): seq<Submission> {
    if batches == [] then [] else batches[0] + Flatten(batches[1..])
  }

  function TotalLimit(calls: seq<ClaimCall>): nat {
    if calls == [] then 0 else calls[0].limit + TotalLimit(calls[1..])
  }

  /** A claimed row stops being eligible and nothing else changes standing. */
  lemma ClaimConsumes(rows: Rows, now: Time, claimer: string, limit: nat, lease: nat,
                      batch: seq<Submission>, after: Rows)
    requires lease > 0 && claimer != ""
    requires Claimed(rows, now, claimer, limit, lease, batch, after)
    ensures EligibleIds(after, now) == EligibleIds(rows, now) - Ids(batch)
    ensures |EligibleIds(after, now)| == |EligibleIds(rows, now)| - |batch|
  {
    IdCount(batch);
    forall id | id in rows
      ensures id in after && (Eligible(after[id], now) <==> Eligible(rows[id], now) && id !in Ids(batch))
    {
    }
    RestIsDifference(EligibleIds(rows, now), Ids(batch), EligibleIds(after, now));
  }

  lemma RestIsDifference(all: set<string>, taken: set<string>, rest: set<string>)
    requires taken <= all && rest == all - taken
    ensures |rest| == |all| - |taken|
  {
    assert all == rest + taken;
  }

  lemma IdsConcat(a: seq<Submission>, b: seq<Submission>)
    ensures Ids(a + b) == Ids(a) + Ids(b)
  {
    var s := a + b;
    forall id | id in Ids(a) + Ids(b)
      ensures id in Ids(s)
    {
      if id in Ids(a) {
        var i :| 0 <= i < |a| && a[i].eventId == id;
        assert s[i].eventId == id;
      } else {
        var i :| 0 <= i < |b| && b[i].eventId == id;
        assert s[|a| + i].eventId == id;
      }
    }
  }

  /** taken was handed out of rows, oldest first, and nothing but the claims on it changed. */
  ghost predicate HandedOut(rows: Rows, now: Time, taken: seq<Submission>, after: Rows) {
    && DistinctIds(taken)
    && OldestFirst(taken)
    && Ids(taken) <= EligibleIds(rows, now)
    && (forall i :: 0 <= i < |taken| ==>
          taken[i].eventId in rows && taken[i].createdAt == rows[taken[i].eventId].createdAt)
    && EligibleIds(after, now) == EligibleIds(rows, now) - Ids(taken)
    && after.Keys == rows.Keys
    && (forall id :: id in rows && id !in Ids(taken) ==> after[id] == rows[id])
  }

  /**
   The calls together hand out distinct rows, oldest first within and across
   batches, exactly as many as their limits allow; they take nothing but
   eligible rows and leave every other row as it was.
   */
  lemma {:induction false} ClaimRunOutcome(rows: Rows, now: Time, lease: nat, calls: seq<ClaimCall>,
                                           batches: seq<seq<Submission>>, after: Rows)
    requires lease > 0
    requires ClaimRun(rows, now, lease, calls, batches, after)
    ensures HandedOut(rows, now, Flatten(batches), after)
    decreases |calls|
  {
    if calls == [] {
      NothingHandedOut(rows, now);
    } else {
      var mid := Install(rows, Ids(batches[0]), calls[0].claimer, now + lease, now);
      ClaimConsumes(rows, now, calls[0].claimer, calls[0].limit, lease, batches[0], mid);
      ClaimRunOutcome(mid, now, lease, calls[1..], batches[1..], after);
      JoinBatches(rows, now, calls[0], lease, batches[0], mid, Flatten(batches[1..]), after);
    }
  }

  /** The calls return as many rows as their limits and the queue allow. */
  lemma {:induction false} ClaimRunCount(rows: Rows, now: Time, lease: nat, calls: seq<ClaimCall>,
                                         batches: seq<seq<Submission>>, after: Rows)
    requires lease > 0
    requires ClaimRun(rows, now, lease, calls, batches, after)
    ensures |Flatten(batches)| == MinNat(TotalLimit(calls), |EligibleIds(rows, now)|)
    decreases |calls|
  {
    if calls != [] {
      var mid := Install(rows, Ids(batches[0]), calls[0].claimer, now + lease, now);
      ClaimConsumes(rows, now, calls[0].claimer, calls[0].limit, lease, batches[0], mid);
      ClaimRunCount(mid, now, lease, calls[1..], batches[1..], after);
    }
  }

  lemma NothingHandedOut(rows: Rows, now: Time)
    ensures HandedOut(rows, now, [], rows)
  {
    assert Ids([]) == {};
  }

  lemma CrossOrder(rows: Rows, now: Time, call: ClaimCall, lease: nat, first: seq<Submission>, mid: Rows,
                   rest: seq<Submission>, i: nat, j: nat)
    requires lease > 0 && call.Valid() && i < |first| && j < |rest|
    requires Claimed(rows, now, call.claimer, call.limit, lease, first, mid)
    requires Ids(rest) <= EligibleIds(mid, now)
    requires rest[j].eventId in mid && rest[j].createdAt == mid[rest[j].eventId].createdAt
    ensures first[i].createdAt <= rest[j].createdAt
    ensures first[i].eventId != rest[j].eventId
  {
    ClaimConsumes(rows, now, call.claimer, call.limit, lease, first, mid);
    var id := rest[j].eventId;
    assert id in Ids(rest);
    assert id in EligibleIds(rows, now) && id !in Ids(first);
    assert first[i].eventId in Ids(first);
  }

  lemma JoinOrdered(first: seq<Submission>, rest: seq<Submission>)
    requires DistinctIds(first) && OldestFirst(first) && DistinctIds(rest) && OldestFirst(rest)
    requires forall i, j :: 0 <= i < |first| && 0 <= j < |rest| ==>
               first[i].createdAt <= rest[j].createdAt && first[i].eventId != rest[j].eventId
    ensures DistinctIds(first + rest) && OldestFirst(first + rest)
  {
  }

  lemma ClaimHandsOut(rows: Rows, now: Time, call: ClaimCall, lease: nat, first: seq<Submission>, mid: Rows)
    requires lease > 0 && call.Valid()
    requires Claimed(rows, now, call.claimer, call.limit, lease, first, mid)
    ensures HandedOut(rows, now, first, mid)
  {
    ClaimConsumes(rows, now, call.claimer, call.limit, lease, first, mid);
  }

  lemma SameCreation(rows: Rows, now: Time, call: ClaimCall, lease: nat, first: seq<Submission>, mid: Rows)
    requires Claimed(rows, now, call.claimer, call.limit, lease, first, mid)
    ensures mid.Keys == rows.Keys && forall id :: id in rows ==> mid[id].createdAt == rows[id].createdAt
  {
  }

  lemma JoinBatches(rows: Rows, now: Time, call: ClaimCall, lease: nat, first: seq<Submission>, mid: Rows,
                    rest: seq<Submission>, after: Rows)
    requires lease > 0 && call.Valid()
    requires Claimed(rows, now, call.claimer, call.limit, lease, first, mid)
    requires HandedOut(mid, now, rest, after)
    ensures HandedOut(rows, now, first + rest, after)
  {
    forall i, j | 0 <= i < |first| && 0 <= j < |rest|
      ensures first[i].createdAt <= rest[j].createdAt && first[i].eventId != rest[j].eventId
    {
      CrossOrder(rows, now, call, lease, first, mid, rest, i, j);
    }
    JoinOrdered(first, rest);
    IdsConcat(first, rest);
    SameCreation(rows, now, call, lease, first, mid);
    ClaimHandsOut(rows, now, call, lease, first, mid);
    JoinHandedOut(rows, now, first, mid, rest, after);
  }

  lemma JoinHandedOut(rows: Rows, now: Time, first: seq<Submission>, mid: Rows, rest: seq<Submission>, after: Rows)
    requires HandedOut(rows, now, first, mid) && HandedOut(mid, now, rest, after)
    requires forall id :: id in rows ==> mid[id].createdAt == rows[id].createdAt
    requires DistinctIds(first + rest) && OldestFirst(first + rest)
    requires Ids(first + rest) == Ids(first) + Ids(rest)
    ensures HandedOut(rows, now, first + rest, after)
  {
  }

  /** Two different calls never return the same row. */
  lemma {:induction false} BatchesDisjoint(rows: Rows, now: Time, lease: nat, calls: seq<ClaimCall>,
                                           batches: seq<seq<Submission>>, after: Rows, i: nat, j: nat)
    requires lease > 0
    requires ClaimRun(rows, now, lease, calls, batches, after)
    requires i < j < |calls|
    ensures Ids(batches[i]) !! Ids(batches[j])
    decreases |calls|
  {
    var mid := Install(rows, Ids(batches[0]), calls[0].claimer, now + lease, now);
    ClaimConsumes(rows, now, calls[0].claimer, calls[0].limit, lease, batches[0], mid);
    if i == 0 {
      ClaimRunOutcome(mid, now, lease, calls[1..], batches[1..], after);
      BatchInFlatten(batches[1..], j - 1);
    } else {
      BatchesDisjoint(mid, now, lease, calls[1..], batches[1..], after, i - 1, j - 1);
    }
  }

  lemma {:induction false} BatchInFlatten(batches: seq<seq<Submission>>, k: nat)
    requires k < |batches|
    ensures Ids(batches[k]) <= Ids(Flatten(batches))
  {
    IdsConcat(batches[0], Flatten(batches[1..]));
    if k > 0 {
      BatchInFlatten(batches[1..], k - 1);
    }
  }

  lemma {:induction false} UniformLimit(calls: seq<ClaimCall>, limit: nat)
    requires forall i :: 0 <= i < |calls| ==> calls[i].limit == limit
    ensures TotalLimit(calls) == |calls| * limit
  {
    if calls != [] {
      UniformLimit(calls[1..], limit);
      assert |calls| * limit == limit + |calls[1..]| * limit;
    }
  }

  lemma EligibleLeft(rows: Rows, now: Time, taken: seq<Submission>, after: Rows)
    requires HandedOut(rows, now, taken, after)
    ensures EligibleIds(after, now) == {} <==> |taken| == |EligibleIds(rows, now)|
  {
    IdCount(taken);
    assert EligibleIds(rows, now) == EligibleIds(after, now) + Ids(taken);
  }

  lemma Ceiling(eligible: nat, limit: nat, calls: nat, taken: nat)
    requires limit > 0 && taken == MinNat(calls * limit, eligible)
    ensures taken == eligible <==> calls >= (eligible + limit - 1) / limit
  {
    var q, product := CeilingParts(eligible, limit);
    if calls >= q {
      Scaled(q, calls, limit);
    } else {
      Scaled(calls + 1, q, limit);
      assert (calls + 1) * limit == calls * limit + limit;
    }
  }

  lemma CeilingParts(eligible: nat, limit: nat) returns (q: nat, product: nat)
    requires limit > 0
    ensures q == (eligible + limit - 1) / limit && product == q * limit
    ensures eligible <= product < eligible + limit
  {
    q := (eligible + limit - 1) / limit;
    product := q * limit;
    assert eligible + limit - 1 == product + (eligible + limit - 1) % limit;
  }

  lemma Scaled(a: nat, b: nat, n: nat)
    requires a <= b
    ensures a * n <= b * n
  {
  }

  /** How many rows there are to hand out, and how many a run with one limit hands out. */
  lemma UniformRun(rows: Rows, now: Time, lease: nat, limit: nat, calls: seq<ClaimCall>,
                   batches: seq<seq<Submission>>, after: Rows) returns (eligible: nat, taken: nat)
    requires lease > 0 && limit > 0
    requires ClaimRun(rows, now, lease, calls, batches, after)
    requires forall i :: 0 <= i < |calls| ==> calls[i].limit == limit
    ensures eligible == |EligibleIds(rows, now)| && taken == MinNat(|calls| * limit, eligible)
    ensures EligibleIds(after, now) == {} <==> taken == eligible
  {
    ClaimRunOutcome(rows, now, lease, calls, batches, after);
    ClaimRunCount(rows, now, lease, calls, batches, after);
    UniformLimit(calls, limit);
    EligibleLeft(rows, now, Flatten(batches), after);
    eligible, taken := |EligibleIds(rows, now)|, |Flatten(batches)|;
  }

  /** With one limit, the queue is drained exactly when the calls reach ceil(eligible / limit). */
  lemma DrainedIff(rows: Rows, now: Time, lease: nat, limit: nat, calls: seq<ClaimCall>,
                   batches: seq<seq<Submission>>, after: Rows)
    requires lease > 0 && limit > 0
    requires ClaimRun(rows, now, lease, calls, batches, after)
    requires forall i :: 0 <= i < |calls| ==> calls[i].limit == limit
    ensures EligibleIds(after, now) == {} <==> |calls| >= (|EligibleIds(rows, now)| + limit - 1) / limit
  {
    var eligible, taken := UniformRun(rows, now, lease, limit, calls, batches, after);
    Ceiling(eligible, limit, |calls|, taken);
  }
}
