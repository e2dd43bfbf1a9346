/** The in-memory submission store, which doubles as the work queue the workers claim from. */
module StoreInMem {
  import opened Wrappers
  import opened Submissions
  import opened Mutators
  import opened Sorting

  type Rows = map<string, Submission>

  datatype StoreError = Cancelled | AlreadyExists | NotFound | BadLimit | NoClaimer | ClaimLost | MutatorFailed

  /** Every row is filed under its own event id. */
  ghost predicate Filed(rows: Rows) {
    forall id :: id in rows ==> rows[id].eventId == id
  }

  /** Held under a lease that has not run out. */
  predicate Held(row: Submission, now: Time) {
    row.claimedBy != "" && row.claimedUntil > now
  }

  predicate Eligible(row: Submission, now: Time) {
    !Terminal(row.status) && row.nextAttemptAt <= now && !Held(row, now)
  }

  function EligibleIds(rows: Rows, now: Time): set<string> {
    set id | id in rows && Eligible(rows[id], now)
  }

  function Stamped(row: Submission, claimer: string, until: Time, now: Time): Submission {
    row.(claimedBy := claimer, claimedUntil := until, updatedAt := now)
  }

  function Released(row: Submission, now: Time): Submission {
    row.(claimedBy := "", claimedUntil := ZERO_TIME, updatedAt := now)
  }

  function Install(rows: Rows, ids: set<string>, claimer: string, until: Time, now: Time): Rows {
    map id | id in rows :: if id in ids then Stamped(rows[id], claimer, until, now) else rows[id]
  }

  function Ids(batch: seq<Submission>): set<string> {
    set i | 0 <= i < |batch| :: batch[i].eventId
  }

  predicate OldestFirst(batch: seq<Submission>) {
    forall i, j :: 0 <= i < j < |batch| ==> batch[i].createdAt <= batch[j].createdAt
  }

  predicate DistinctIds(batch: seq<Submission>) {
    forall i, j :: 0 <= i < j < |batch| ==> batch[i].eventId != batch[j].eventId
  }

  function MinNat(a: nat, b: nat): nat {
    if a <= b then a else b
  }

  /**
   What ClaimBatch promises. Rows with equal creation times may come in either
   order, so this is a relation rather than a function.
   */
  ghost predicate Claimed(rows: Rows, now: Time, claimer: string, limit: nat, lease: nat,
                          batch: seq<Submission>, after: Rows)
  {
    && DistinctIds(batch)
    && OldestFirst(batch)
    && Ids(batch) <= EligibleIds(rows, now)
    && |batch| == MinNat(limit, |EligibleIds(rows, now)|)
    && (forall i :: 0 <= i < |batch| ==>
          batch[i].eventId in rows && batch[i] == Stamped(rows[batch[i].eventId], claimer, now + lease, now))
    && (forall id, i :: id in EligibleIds(rows, now) && id !in Ids(batch) && 0 <= i < |batch| ==>
          batch[i].createdAt <= rows[id].createdAt)
    && after == Install(rows, Ids(batch), claimer, now + lease, now)
  }

  /** sort.Slice by CreatedAt. */
  function SortByCreated(batch: seq<Submission>): (r: seq<Submission>)
    ensures OldestFirst(r)
    ensures multiset(r) == multiset(batch)
  {
    var key := (row: Submission) => row.createdAt;
    SortSorts(batch, key);
    Sort(batch, key)
  }

  ghost predicate Drawn(rows: Rows, batch: seq<Submission>) {
    && DistinctIds(batch)
    && forall i :: 0 <= i < |batch| ==> batch[i].eventId in rows && batch[i] == rows[batch[i].eventId]
  }

  /** Sorting loses and duplicates nothing, so rows drawn from the map stay distinct. */
  lemma SortKeepsIds(rows: Rows, batch: seq<Submission>, sorted: seq<Submission>)
    requires multiset(sorted) == multiset(batch)
    requires Drawn(rows, batch)
    ensures Drawn(rows, sorted)
    ensures Ids(sorted) == Ids(batch)
    ensures |sorted| == |batch|
  {
    RearrangedDistinct(batch, sorted);
    assert forall i :: 0 <= i < |sorted| ==> sorted[i] in batch;
    assert forall i :: 0 <= i < |batch| ==> batch[i] in sorted;
  }

  lemma IdsAppend(batch: seq<Submission>, row: Submission)
    ensures Ids(batch + [row]) == Ids(batch) + {row.eventId}
  {
    var longer := batch + [row];
    assert longer[|batch|] == row;
    forall id | id in Ids(batch)
      ensures id in Ids(longer)
    {
      var i :| 0 <= i < |batch| && batch[i].eventId == id;
      assert longer[i].eventId == id;
    }
  }

  lemma {:induction false} IdCount(batch: seq<Submission>)
    requires DistinctIds(batch)
    ensures |Ids(batch)| == |batch|
  {
    if batch != [] {
      var last := |batch| - 1;
      IdCount(batch[..last]);
      IdsAppend(batch[..last], batch[last]);
      assert batch == batch[..last] + [batch[last]];
    }
  }

  lemma SameIds(a: seq<Submission>, b: seq<Submission>)
    requires |a| == |b| && forall i :: 0 <= i < |a| ==> a[i].eventId == b[i].eventId
    ensures Ids(a) == Ids(b)
  {
    forall id | id in Ids(a)
      ensures id in Ids(b)
    {
      var i :| 0 <= i < |a| && a[i].eventId == id;
      assert b[i].eventId == id;
    }
    forall id | id in Ids(b)
      ensures id in Ids(a)
    {
      var i :| 0 <= i < |b| && b[i].eventId == id;
      assert a[i].eventId == id;
    }
  }

  /** A row left out of a prefix of the sorted rows is no older than any row in it. */
  lemma PrefixIsOldest(rows: Rows, sorted: seq<Submission>, count: nat, id: string, i: nat)
    requires Drawn(rows, sorted) && OldestFirst(sorted) && i < count <= |sorted|
    requires id in Ids(sorted) && id !in Ids(sorted[..count])
    ensures id in rows && sorted[i].createdAt <= rows[id].createdAt
  {
    var k :| 0 <= k < |sorted| && sorted[k].eventId == id;
    assert forall j :: 0 <= j < count ==> sorted[..count][j].eventId in Ids(sorted[..count]);
  }

  /** Stamping a prefix of the sorted eligible rows leaves no older eligible row behind. */
  lemma OldestAreClaimed(rows: Rows, now: Time, claimer: string, lease: nat,
                         sorted: seq<Submission>, count: nat, batch: seq<Submission>)
    requires Drawn(rows, sorted) && OldestFirst(sorted) && Ids(sorted) == EligibleIds(rows, now)
    requires count <= |sorted| == |EligibleIds(rows, now)| && |batch| == count
    requires forall i :: 0 <= i < count ==> batch[i] == Stamped(sorted[i], claimer, now + lease, now)
    ensures Claimed(rows, now, claimer, count, lease, batch,
                    Install(rows, Ids(sorted[..count]), claimer, now + lease, now))
  {
    forall i | 0 <= i < count
      ensures batch[i].eventId == sorted[i].eventId && batch[i].createdAt == sorted[i].createdAt
      ensures sorted[i].eventId in Ids(sorted)
    {
    }
    SameIds(batch, sorted[..count]);
    forall id | id in Ids(batch)
      ensures id in EligibleIds(rows, now)
    {
      var i :| 0 <= i < count && batch[i].eventId == id;
    }
    forall id, i: nat | id in EligibleIds(rows, now) && id !in Ids(batch) && i < count
      ensures batch[i].createdAt <= rows[id].createdAt
    {
      PrefixIsOldest(rows, sorted, count, id, i);
    }
  }

  /** Whom a claim may take: nobody who is finished, nobody ahead of time, nobody else's. */
  lemma ClaimedWereDue(rows: Rows, now: Time, claimer: string, limit: nat, lease: nat,
                       batch: seq<Submission>, after: Rows)
    requires Claimed(rows, now, claimer, limit, lease, batch, after)
    ensures forall i :: 0 <= i < |batch| ==>
              batch[i].eventId in rows &&
              var was := rows[batch[i].eventId];
              && (was.status == Pending || was.status == Submitted || was.status == Processing)
              && was.nextAttemptAt <= now
              && (was.claimedBy == "" || was.claimedUntil <= now)
              && batch[i] == was.(claimedBy := claimer, claimedUntil := now + lease, updatedAt := now)
  {
    forall i | 0 <= i < |batch|
      ensures batch[i].eventId in EligibleIds(rows, now)
    {
      assert batch[i].eventId in Ids(batch);
    }
  }

  /** And whom it must: a row that is due and free is left only when the limit is used up on rows no younger. */
  lemma DueAreClaimed(rows: Rows, now: Time, claimer: string, limit: nat, lease: nat,
                      batch: seq<Submission>, after: Rows, id: string)
    requires Claimed(rows, now, claimer, limit, lease, batch, after) && id in rows
    requires var row := rows[id];
             && (row.status == Pending || row.status == Submitted || row.status == Processing)
             && row.nextAttemptAt <= now && (row.claimedBy == "" || row.claimedUntil <= now)
    ensures id in Ids(batch) ||
            (|batch| == limit && forall i :: 0 <= i < |batch| ==> batch[i].createdAt <= rows[id].createdAt)
  {
    assert id in EligibleIds(rows, now);
    if id !in Ids(batch) {
      IdCount(batch);
      if |batch| < limit {
        assert Ids(batch) < EligibleIds(rows, now);
        ProperSubset(Ids(batch), EligibleIds(rows, now));
      }
    }
  }

  lemma ProperSubset(a: set<string>, b: set<string>)
    requires a < b
    ensures |a| < |b|
  {
    assert |b| == |a| + |b - a| by { assert b == a + (b - a); }
  }

  /** The store after a claim: the returned copies in place, everything else untouched. */
  lemma ClaimedIsInstalled(rows: Rows, now: Time, claimer: string, limit: nat, lease: nat,
                           batch: seq<Submission>, after: Rows)
    requires Claimed(rows, now, claimer, limit, lease, batch, after)
    ensures after.Keys == rows.Keys
    ensures forall i :: 0 <= i < |batch| ==> batch[i].eventId in after && after[batch[i].eventId] == batch[i]
    ensures forall id :: id in rows && id !in Ids(batch) ==> after[id] == rows[id]
  {
    forall i | 0 <= i < |batch|
      ensures batch[i].eventId in Ids(batch)
    {
    }
  }

  class Store {
    var rows: Rows

    ghost predicate Valid()
      reads this
    {
      Filed(rows)
    }

    constructor ()
      ensures Valid() && rows == map[]
    {
      rows := map[];
    }

    method Put(cancelled: bool, row: Submission) returns (r: Result<(), StoreError>)
      requires Valid()
      modifies this
      ensures Valid()
      ensures r == if cancelled then Err(Cancelled)
                   else if row.eventId in old(rows) then Err(AlreadyExists)
                   else Ok(())
      ensures rows == if r.Ok? then old(rows)[row.eventId := row] else old(rows)
    {
      if cancelled {
        return Err(Cancelled);
      }
      if row.eventId in rows {
        return Err(AlreadyExists);
      }
      rows := rows[row.eventId := row];
      return Ok(());
    }

    method Get(cancelled: bool, eventId: string) returns (r: Result<Submission, StoreError>)
      ensures r == if cancelled then Err(Cancelled)
                   else if eventId !in rows then Err(NotFound)
                   else Ok(rows[eventId])
    {
      if cancelled {
        return Err(Cancelled);
      }
      if eventId !in rows {
        return Err(NotFound);
      }
      return Ok(rows[eventId]);
    }

    /** Runs the command on a copy; a refused command leaves no trace in the stored row. */
    method UpdateStatus(cancelled: bool, pacing: Pacing, eventId: string, command: Command, now: Time)
      returns (r: Result<(), StoreError>)
      requires Valid()
      modifies this
      ensures Valid()
      ensures r == if cancelled then Err(Cancelled)
                   else if eventId !in old(rows) then Err(NotFound)
                   else if Mutated(pacing, command, old(rows)[eventId], now).None? then Err(MutatorFailed)
                   else Ok(())
      ensures rows == if r.Ok?
                      then old(rows)[eventId :=
                                     Mutated(pacing, command, old(rows)[eventId], now).value.(updatedAt := now)]
                      else old(rows)
    {
      if cancelled {
        return Err(Cancelled);
      }
      if eventId !in rows {
        return Err(NotFound);
      }
      var draft := new Draft(rows[eventId]);
      var ok := Apply(pacing, command, draft, now);
      if !ok {
        return Err(MutatorFailed);
      }
      CommandEvolves(pacing, command, rows[eventId], now);
      rows := rows[eventId := draft.row.(updatedAt := now)];
      return Ok(());
    }

    /**
     Reserves up to limit due, unheld, non-terminal rows, oldest first. Every returned
     row had an open status, was due and free; every such row is returned, or is no
     older than any returned one when the limit is used up.
     */
    method ClaimBatch(cancelled: bool, claimer: string, limit: int, lease: nat, now: Time)
      returns (r: Result<seq<Submission>, StoreError>)
      requires Valid()
      modifies this
      ensures Valid()
      ensures r.Err? <==> cancelled || limit <= 0 || claimer == ""
      ensures r.Err? ==> rows == old(rows) &&
                         r.error == if cancelled then Cancelled else if limit <= 0 then BadLimit else NoClaimer
      ensures r.Ok? ==> limit > 0 && Claimed(old(rows), now, claimer, limit, lease, r.value, rows)
      ensures r.Ok? ==>
                forall i :: 0 <= i < |r.value| ==>
                  r.value[i].eventId in old(rows) &&
                  var was := old(rows)[r.value[i].eventId];
                  && (was.status == Pending || was.status == Submitted || was.status == Processing)
                  && was.nextAttemptAt <= now
                  && (was.claimedBy == "" || was.claimedUntil <= now)
                  && r.value[i] == was.(claimedBy := claimer, claimedUntil := now + lease, updatedAt := now)
      ensures r.Ok? ==>
                forall id :: id in old(rows) && id !in Ids(r.value) ==>
                  var left := old(rows)[id];
                  && rows[id] == left
                  && ((left.status == Pending || left.status == Submitted || left.status == Processing) &&
                      left.nextAttemptAt <= now && (left.claimedBy == "" || left.claimedUntil <= now) ==>
                        |r.value| == limit &&
                        forall i :: 0 <= i < |r.value| ==> r.value[i].createdAt <= left.createdAt)
    {
      if cancelled {
        return Err(Cancelled);
      }
      if limit <= 0 {
        return Err(BadLimit);
      }
      if claimer == "" {
        return Err(NoClaimer);
      }
      var candidates := Candidates(now);
      var sorted := SortByCreated(candidates);
      SortKeepsIds(rows, candidates, sorted);
      IdCount(sorted);
      var chosen := sorted;
      if |chosen| > limit {
        chosen := chosen[..limit];
      }
      var batch := Stamp(chosen, claimer, now + lease, now);
      OldestAreClaimed(old(rows), now, claimer, lease, sorted, |chosen|, batch);
      ClaimedWereDue(old(rows), now, claimer, limit, lease, batch, rows);
      ClaimedIsInstalled(old(rows), now, claimer, limit, lease, batch, rows);
      forall id | id in old(rows) && id !in Ids(batch) && old(rows)[id].nextAttemptAt <= now &&
                  (old(rows)[id].status == Pending || old(rows)[id].status == Submitted ||
                   old(rows)[id].status == Processing) &&
                  (old(rows)[id].claimedBy == "" || old(rows)[id].claimedUntil <= now)
        ensures |batch| == limit && forall i :: 0 <= i < |batch| ==> batch[i].createdAt <= old(rows)[id].createdAt
      {
        DueAreClaimed(old(rows), now, claimer, limit, lease, batch, rows, id);
      }
      return Ok(batch);
    }

    /** The filtering scan over the map, in whatever order the map yields its rows. */
    method Candidates(now: Time) returns (candidates: seq<Submission>)
      requires Valid()
      ensures Drawn(rows, candidates)
      ensures Ids(candidates) == EligibleIds(rows, now)
    {
      candidates := [];
      var todo := rows.Keys;
      while todo != {}
        invariant todo <= rows.Keys
        invariant Drawn(rows, candidates)
        invariant Ids(candidates) == EligibleIds(rows, now) - todo
        decreases todo
      {
        var id :| id in todo;
        todo := todo - {id};
        var sub := rows[id];
        ghost var before := candidates;
        if Terminal(sub.status) {
        } else if sub.nextAttemptAt > now {
        } else if sub.claimedBy != "" && sub.claimedUntil > now {
        } else {
          assert id !in Ids(before);
          candidates := candidates + [sub];
          IdsAppend(before, sub);
        }
      }
    }

    /** Writes the claim onto every chosen row and returns the stamped copies. */
    method Stamp(chosen: seq<Submission>, claimer: string, until: Time, now: Time)
      returns (batch: seq<Submission>)
      requires Valid() && Drawn(rows, chosen)
      modifies this
      ensures Valid()
      ensures |batch| == |chosen|
      ensures forall i :: 0 <= i < |batch| ==> batch[i] == Stamped(chosen[i], claimer, until, now)
      ensures Ids(batch) == Ids(chosen)
      ensures rows == Install(old(rows), Ids(chosen), claimer, until, now)
    {
      batch := [];
      var i := 0;
      while i < |chosen|
        invariant 0 <= i <= |chosen|
        invariant |batch| == i
        invariant forall j :: 0 <= j < i ==> batch[j] == Stamped(chosen[j], claimer, until, now)
        invariant rows == Install(old(rows), Ids(chosen[..i]), claimer, until, now)
      {
        var sub := chosen[i].(claimedBy := claimer, claimedUntil := until, updatedAt := now);
        IdsAppend(chosen[..i], chosen[i]);
        assert chosen[..i + 1] == chosen[..i] + [chosen[i]];
        rows := rows[sub.eventId := sub];
        batch := batch + [sub];
        i := i + 1;
      }
      assert chosen[..|chosen|] == chosen;
      assert forall j :: 0 <= j < |batch| ==> batch[j].eventId == chosen[j].eventId;
    }

    method RenewClaim(cancelled: bool, eventId: string, claimer: string, lease: nat, now: Time)
      returns (r: Result<(), StoreError>)
      requires Valid()
      modifies this
      ensures Valid()
      ensures r == if cancelled then Err(Cancelled)
                   else if claimer == "" then Err(NoClaimer)
                   else if eventId !in old(rows) then Err(NotFound)
                   else if old(rows)[eventId].claimedBy != claimer then Err(ClaimLost)
                   else Ok(())
      ensures rows == if r.Ok? then old(rows)[eventId := Stamped(old(rows)[eventId], claimer, now + lease, now)]
                      else old(rows)
      ensures r.Ok? ==> rows[eventId] == old(rows)[eventId].(claimedUntil := now + lease, updatedAt := now)
    {
      if cancelled {
        return Err(Cancelled);
      }
      if claimer == "" {
        return Err(NoClaimer);
      }
      if eventId !in rows {
        return Err(NotFound);
      }
      var sub := rows[eventId];
      if sub.claimedBy != claimer {
        return Err(ClaimLost);
      }
      sub := sub.(claimedUntil := now + lease);
      sub := sub.(updatedAt := now);
      rows := rows[eventId := sub];
      return Ok(());
    }

    method ReleaseClaim(cancelled: bool, eventId: string, claimer: string, now: Time)
      returns (r: Result<(), StoreError>)
      requires Valid()
      modifies this
      ensures Valid()
      ensures r == if cancelled then Err(Cancelled)
                   else if eventId !in old(rows) then Err(NotFound)
                   else if old(rows)[eventId].claimedBy != claimer then Err(ClaimLost)
                   else Ok(())
      ensures rows == if r.Ok? then old(rows)[eventId := Released(old(rows)[eventId], now)] else old(rows)
      ensures r.Ok? ==> rows[eventId] == old(rows)[eventId].(claimedBy := "", claimedUntil := ZERO_TIME, updatedAt := now)
    {
      if cancelled {
        return Err(Cancelled);
      }
      if eventId !in rows {
        return Err(NotFound);
      }
      var sub := rows[eventId];
      if sub.claimedBy != claimer {
        return Err(ClaimLost);
      }
      sub := sub.(claimedBy := "");
      sub := sub.(claimedUntil := ZERO_TIME);
      sub := sub.(updatedAt := now);
      rows := rows[eventId := sub];
      return Ok(());
    }

    /** Every row recorded for a NAV invoice number, oldest first. */
    method FindByInvoiceNumber(cancelled: bool, invoiceNumber: string)
      returns (r: Result<seq<Submission>, StoreError>)
      requires Valid()
      ensures r.Err? <==> cancelled
      ensures r.Err? ==> r.error == Cancelled
      ensures r.Ok? ==> FoundBy(rows, invoiceNumber, r.value)
      ensures r.Ok? ==> forall row: Submission :: row in r.value <==>
                          row.eventId in rows && rows[row.eventId] == row && row.invoiceNumber == invoiceNumber
    {
      if cancelled {
        return Err(Cancelled);
      }
      var out: seq<Submission> := [];
      var todo := rows.Keys;
      while todo != {}
        invariant todo <= rows.Keys
        invariant Drawn(rows, out)
        invariant Ids(out) == NumberedIds(rows, invoiceNumber) - todo
        decreases todo
      {
        var id :| id in todo;
        todo := todo - {id};
        ghost var before := out;
        if rows[id].invoiceNumber == invoiceNumber {
          assert id !in Ids(before);
          out := out + [rows[id]];
          IdsAppend(before, rows[id]);
        }
      }
      var sorted := SortByCreated(out);
      SortKeepsIds(rows, out, sorted);
      FoundSpelledOut(rows, invoiceNumber, sorted);
      return Ok(sorted);
    }
  }

  lemma FoundSpelledOut(rows: Rows, invoiceNumber: string, found: seq<Submission>)
    requires Filed(rows) && FoundBy(rows, invoiceNumber, found)
    ensures forall row: Submission :: row in found <==>
              row.eventId in rows && rows[row.eventId] == row && row.invoiceNumber == invoiceNumber
  {
    forall row | row in found
      ensures row.eventId in rows && rows[row.eventId] == row && row.invoiceNumber == invoiceNumber
    {
      assert row.eventId in Ids(found);
    }
    forall row: Submission | row.eventId in rows && rows[row.eventId] == row && row.invoiceNumber == invoiceNumber
      ensures row in found
    {
      assert row.eventId in NumberedIds(rows, invoiceNumber);
      var i :| 0 <= i < |found| && found[i].eventId == row.eventId;
    }
  }

  function NumberedIds(rows: Rows, invoiceNumber: string): set<string> {
    set id | id in rows && rows[id].invoiceNumber == invoiceNumber
  }

  /** found lists exactly the rows with the given invoice number, oldest first. */
  ghost predicate FoundBy(rows: Rows, invoiceNumber: string, found: seq<Submission>) {
    && Drawn(rows, found)
    && OldestFirst(found)
    && Ids(found) == NumberedIds(rows, invoiceNumber)
  }
}
