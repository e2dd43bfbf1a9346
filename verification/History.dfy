/** Deliveries and the order in which rows were stored: acknowledgement, deduplication and acyclic parents. */
module History {
  import opened Wrappers
  import opened Submissions
  import opened Mutators
  import opened StoreInMem
  import opened Protocol
  import opened Safety

  ghost predicate PutAt(s: State, k: nat, id: string) {
    k < |s.puts| && s.puts[k].row.eventId == id
  }

  ghost predicate EverPut(s: State, id: string, before: nat) {
    exists k: nat :: k < before && PutAt(s, k, id)
  }

  /** The put log mirrors the stored rows, one record each, parents first. */
  ghost predicate PutsOk(s: State) {
    && (forall j, k :: 0 <= j < k < |s.puts| ==> s.puts[j].row.eventId != s.puts[k].row.eventId)
    && (forall id :: id in s.rows ==> EverPut(s, id, |s.puts|))
    && (forall k :: 0 <= k < |s.puts| ==> PutBacked(s, s.puts[k].row, k))
  }

  /** The k-th put is stored, keeps its origin, and its parent was put before it. */
  ghost predicate PutBacked(s: State, row: Submission, k: nat) {
    && row.eventId in s.rows && SameOrigin(row, s.rows[row.eventId])
    && (row.parentEventId == "" || EverPut(s, row.parentEventId, k))
  }

  /** Each put was made by the one delivery that was answered for it, and by no other. */
  ghost predicate DeliveriesOk(s: State) {
    && (forall k :: 0 <= k < |s.puts| ==> PutAnswered(s, k))
    && (forall d :: 0 <= d < |s.deliveries| ==> DeliveryOk(s, s.deliveries[d]))
  }

  predicate PutAnswered(s: State, k: nat)
    requires k < |s.puts|
  {
    var d := s.puts[k].delivery;
    d < |s.deliveries| && s.deliveries[d].stage == Acknowledged(StoredNow) &&
    s.deliveries[d].event.id == s.puts[k].row.eventId
  }

  ghost predicate DeliveryOk(s: State, delivery: Delivery) {
    match delivery.stage
    case Acknowledged(AlreadyStored) => delivery.event.id in s.rows
    case Acknowledged(StoredNow) => delivery.event.id in s.rows
    case Acknowledged(Ignored) => delivery.event.eventType !in ELIGIBLE_EVENT_TYPES
    case Prepared(row) => row.eventId == delivery.event.id
    case _ => true
  }

  lemma PutsSurvive(a: State, b: State, id: string, before: nat)
    requires a.puts <= b.puts && EverPut(a, id, before)
    ensures EverPut(b, id, before)
  {
    var k: nat :| k < before && PutAt(a, k, id);
    assert PutAt(b, k, id);
  }

  /** A step stores at most one row: the one its delivery had prepared, under an id not yet taken. */
  lemma PutChange(pacing: Pacing, s: State, step: Step)
    requires Enabled(pacing, s, step)
    ensures var t := Do(pacing, s, step);
            if t.puts == s.puts then t.rows.Keys == s.rows.Keys
            else
              && step.Persist? && s.deliveries[step.d].stage.Prepared?
              && var row := s.deliveries[step.d].stage.row;
                 && row.eventId !in s.rows
                 && t.rows == s.rows[row.eventId := row]
                 && t.puts == s.puts + [PutRecord(step.d, row)]
                 && t.deliveries[step.d].stage == Acknowledged(StoredNow)
  {
  }

  /** How a step can move a delivery; an answered delivery stays as it was answered. */
  lemma DeliveryChange(pacing: Pacing, s: State, step: Step, d: nat)
    requires Enabled(pacing, s, step) && d < |Do(pacing, s, step).deliveries|
    ensures var t := Do(pacing, s, step);
            if d >= |s.deliveries| then t.deliveries[d].stage == Arrived
            else
              var was, now := s.deliveries[d], t.deliveries[d];
              && now.event == was.event
              && (now == was || Answer(was.stage) == None)
              && match now.stage
                 case Acknowledged(AlreadyStored) => now == was || now.event.id in s.rows ||
                                                     (was.stage.Prepared? && was.stage.row.eventId in s.rows)
                 case Acknowledged(StoredNow) => now == was || (was.stage.Prepared? && was.stage.row.eventId in t.rows)
                 case Acknowledged(Ignored) => now == was || now.event.eventType !in ELIGIBLE_EVENT_TYPES
                 case Prepared(row) => now == was || row.eventId == now.event.id
                 case _ => true
  {
  }

  lemma StepKeepsPuts(pacing: Pacing, s: State, step: Step)
    requires Consistent(s) && PutsOk(s) && Enabled(pacing, s, step)
    ensures PutsOk(Do(pacing, s, step))
  {
    var t := Do(pacing, s, step);
    StepGrows(pacing, s, step);
    PutChange(pacing, s, step);
    PutsStay(s, t);
    if t.puts != s.puts {
      var row := s.deliveries[step.d].stage.row;
      assert FreshRow(s.rows, s.clock, s.deliveries[step.d].event, row);
      NewPut(s, t, step.d, row);
    }
  }

  lemma PutsStay(s: State, t: State)
    requires PutsOk(s) && Grows(s, t)
    ensures forall id :: id in s.rows ==> EverPut(t, id, |s.puts|)
    ensures forall k :: 0 <= k < |s.puts| ==> PutBacked(t, t.puts[k].row, k)
  {
    forall id | id in s.rows
      ensures EverPut(t, id, |s.puts|)
    {
      PutsSurvive(s, t, id, |s.puts|);
    }
    forall k | 0 <= k < |s.puts|
      ensures PutBacked(t, t.puts[k].row, k)
    {
      var row := t.puts[k].row;
      assert s.puts[k] == t.puts[k];
      assert Evolves(s.rows[row.eventId], t.rows[row.eventId]);
      if row.parentEventId != "" {
        PutsSurvive(s, t, row.parentEventId, k);
      }
    }
  }

  lemma EverPutWeakens(s: State, id: string, before: nat, later: nat)
    requires EverPut(s, id, before) && before <= later
    ensures EverPut(s, id, later)
  {
    var k: nat :| k < before && PutAt(s, k, id);
    assert k < later && PutAt(s, k, id);
  }

  lemma NewPut(s: State, t: State, d: nat, row: Submission)
    requires PutsOk(s)
    requires row.eventId !in s.rows && t.rows == s.rows[row.eventId := row]
    requires t.puts == s.puts + [PutRecord(d, row)]
    requires row.parentEventId == "" || row.parentEventId in s.rows
    requires forall id :: id in s.rows ==> EverPut(t, id, |s.puts|)
    requires forall k :: 0 <= k < |s.puts| ==> PutBacked(t, t.puts[k].row, k)
    ensures PutsOk(t)
  {
    NewPutDistinct(s, t, d, row);
    NewPutCovered(s, t, row);
    NewPutBacked(s, t, row);
  }

  lemma NewPutBacked(s: State, t: State, row: Submission)
    requires row.eventId in t.rows && t.rows[row.eventId] == row
    requires |t.puts| == |s.puts| + 1 && t.puts[|s.puts|].row == row
    requires row.parentEventId == "" || EverPut(t, row.parentEventId, |s.puts|)
    requires forall k :: 0 <= k < |s.puts| ==> PutBacked(t, t.puts[k].row, k)
    ensures forall k :: 0 <= k < |t.puts| ==> PutBacked(t, t.puts[k].row, k)
  {
    assert PutBacked(t, row, |s.puts|);
  }

  lemma NewPutDistinct(s: State, t: State, d: nat, row: Submission)
    requires PutsOk(s)
    requires row.eventId !in s.rows
    requires t.puts == s.puts + [PutRecord(d, row)]
    ensures forall j, k :: 0 <= j < k < |t.puts| ==> t.puts[j].row.eventId != t.puts[k].row.eventId
  {
    assert forall k :: 0 <= k < |s.puts| ==> PutBacked(s, s.puts[k].row, k);
  }

  lemma NewPutCovered(s: State, t: State, row: Submission)
    requires t.rows.Keys == s.rows.Keys + {row.eventId}
    requires |t.puts| == |s.puts| + 1 && t.puts[|s.puts|].row == row
    requires forall id :: id in s.rows ==> EverPut(t, id, |s.puts|)
    ensures forall id :: id in t.rows ==> EverPut(t, id, |t.puts|)
  {
    forall id | id in t.rows
      ensures EverPut(t, id, |t.puts|)
    {
      if id == row.eventId {
        assert PutAt(t, |s.puts|, id);
      } else {
        EverPutWeakens(t, id, |s.puts|, |t.puts|);
      }
    }
  }

  lemma PutStaysAnswered(pacing: Pacing, s: State, step: Step, k: nat)
    requires DeliveriesOk(s) && Enabled(pacing, s, step) && k < |Do(pacing, s, step).puts|
    ensures PutAnswered(Do(pacing, s, step), k)
  {
    var t := Do(pacing, s, step);
    PutChange(pacing, s, step);
    if k < |s.puts| {
      assert PutAnswered(s, k);
      assert s.puts[k] == t.puts[k];
    }
    assert t.puts[k].delivery < |s.deliveries| <= |t.deliveries|;
    DeliveryChange(pacing, s, step, t.puts[k].delivery);
  }

  lemma DeliveryStaysOk(pacing: Pacing, s: State, step: Step, d: nat)
    requires DeliveriesOk(s) && Enabled(pacing, s, step) && d < |Do(pacing, s, step).deliveries|
    ensures DeliveryOk(Do(pacing, s, step), Do(pacing, s, step).deliveries[d])
  {
    StepGrows(pacing, s, step);
    DeliveryChange(pacing, s, step, d);
    if d < |s.deliveries| {
      assert DeliveryOk(s, s.deliveries[d]);
    }
  }

  lemma StepKeepsDeliveries(pacing: Pacing, s: State, step: Step)
    requires DeliveriesOk(s) && Enabled(pacing, s, step)
    ensures DeliveriesOk(Do(pacing, s, step))
  {
    var t := Do(pacing, s, step);
    forall k | 0 <= k < |t.puts|
      ensures PutAnswered(t, k)
    {
      PutStaysAnswered(pacing, s, step, k);
    }
    forall d | 0 <= d < |t.deliveries|
      ensures DeliveryOk(t, t.deliveries[d])
    {
      DeliveryStaysOk(pacing, s, step, d);
    }
  }

  ghost predicate Sound(s: State) {
    Consistent(s) && PutsOk(s) && DeliveriesOk(s)
  }

  /** A row that was put is stored, with what it was put with. */
  lemma PutIsStored(s: State, k: nat)
    requires Sound(s) && k < |s.puts|
    ensures s.puts[k].row.eventId in s.rows && SameOrigin(s.puts[k].row, s.rows[s.puts[k].row.eventId])
  {
    assert PutBacked(s, s.puts[k].row, k);
  }

  lemma {:induction false} RunKeepsSound(pacing: Pacing, s: State, steps: seq<Step>)
    requires Sound(s) && Runs(pacing, s, steps)
    ensures Sound(Exec(pacing, s, steps))
    decreases |steps|
  {
    if steps != [] {
      StepKeepsConsistent(pacing, s, steps[0]);
      StepKeepsPuts(pacing, s, steps[0]);
      StepKeepsDeliveries(pacing, s, steps[0]);
      RunKeepsSound(pacing, Do(pacing, s, steps[0]), steps[1..]);
    }
  }

  // ---------- acknowledgement ----------

  /**
   The webhook's promise, in every run: an eligible event answered 200 is stored,
   unless it can never be mapped, and stays stored whatever happens afterwards.
   */
  lemma AcknowledgedMeansStored(pacing: Pacing, clock: Time, steps: seq<Step>, more: seq<Step>, d: nat)
    requires Runs(pacing, Start(clock), steps) && Runs(pacing, Start(clock), steps + more)
    requires d < |Exec(pacing, Start(clock), steps).deliveries|
    requires var delivery := Exec(pacing, Start(clock), steps).deliveries[d];
             && Answer(delivery.stage) == Some(200)
             && delivery.event.eventType in ELIGIBLE_EVENT_TYPES
             && delivery.stage != Acknowledged(Unmappable)
    ensures Exec(pacing, Start(clock), steps).deliveries[d].event.id in Exec(pacing, Start(clock), steps + more).rows
  {
    var s := Exec(pacing, Start(clock), steps);
    RunKeepsSound(pacing, Start(clock), steps);
    RunSplits(pacing, Start(clock), steps, more);
    RunGrows(pacing, s, more);
    assert s.deliveries[d].event.id in s.rows;
  }

  /** A delivery answered 503 has stored nothing, and neither has any delivery but the one that won the Put. */
  lemma OnlyTheWinnerStored(pacing: Pacing, clock: Time, steps: seq<Step>, d: nat)
    requires Runs(pacing, Start(clock), steps)
    requires d < |Exec(pacing, Start(clock), steps).deliveries|
    ensures var s := Exec(pacing, Start(clock), steps);
            s.deliveries[d].stage != Acknowledged(StoredNow) ==>
              forall k :: 0 <= k < |s.puts| ==> s.puts[k].delivery != d
  {
    RunKeepsSound(pacing, Start(clock), steps);
    var s := Exec(pacing, Start(clock), steps);
    forall k | 0 <= k < |s.puts| && s.deliveries[d].stage != Acknowledged(StoredNow)
      ensures s.puts[k].delivery != d
    {
      assert PutAnswered(s, k);
    }
  }

  /** Duplicates and racing deliveries leave one put per event id, and one row per put. */
  lemma OneRowPerEvent(pacing: Pacing, clock: Time, steps: seq<Step>, id: string)
    requires Runs(pacing, Start(clock), steps)
    ensures var s := Exec(pacing, Start(clock), steps);
            && (id in s.rows <==> exists k: nat :: PutAt(s, k, id))
            && (forall j: nat, k: nat :: PutAt(s, j, id) && PutAt(s, k, id) ==> j == k)
  {
    RunKeepsSound(pacing, Start(clock), steps);
    var s := Exec(pacing, Start(clock), steps);
    if id in s.rows {
      assert EverPut(s, id, |s.puts|);
    }
    forall j: nat, k: nat | PutAt(s, j, id) && PutAt(s, k, id)
      ensures j == k
    {
    }
  }

  /** Every submit attempt, first try or retry, sends the operation and payload fixed by the first Put. */
  lemma AttemptsSendTheFirstPut(pacing: Pacing, clock: Time, steps: seq<Step>, a: nat, k: nat)
    requires Runs(pacing, Start(clock), steps)
    requires a < |Exec(pacing, Start(clock), steps).attempts|
    requires PutAt(Exec(pacing, Start(clock), steps), k, Exec(pacing, Start(clock), steps).attempts[a].eventId)
    ensures var s := Exec(pacing, Start(clock), steps);
            Derive(s.puts[k].row) == Some((s.attempts[a].operation, s.attempts[a].payload))
  {
    RunKeepsSound(pacing, Start(clock), steps);
    var s := Exec(pacing, Start(clock), steps);
    assert AttemptOk(s, s.attempts[a]);
    assert SameOrigin(s.puts[k].row, s.rows[s.puts[k].row.eventId]);
  }

  /** Every submit carries the document its event was stored with, under the operation named there. */
  lemma AttemptsCarryTheDocument(pacing: Pacing, clock: Time, steps: seq<Step>, a: nat, k: nat)
    requires Runs(pacing, Start(clock), steps)
    requires a < |Exec(pacing, Start(clock), steps).attempts|
    requires PutAt(Exec(pacing, Start(clock), steps), k, Exec(pacing, Start(clock), steps).attempts[a].eventId)
    ensures var s := Exec(pacing, Start(clock), steps);
            var attempt, put := s.attempts[a], s.puts[k].row;
            && attempt.payload == put.rawEvent && (put.rawEvent.InvoicePayload? || put.rawEvent.AnnulmentPayload?)
            && attempt.operation == if put.kind == AnnulmentKind then ""
                                    else if put.operation == "" then "CREATE" else put.operation
  {
    AttemptsSendTheFirstPut(pacing, clock, steps, a, k);
  }

  // ---------- parents ----------

  /** The n-th ancestor of a row. */
  function Ancestor(rows: Rows, id: string, n: nat): Option<string>
    decreases n
  {
    if id !in rows then None
    else if n == 0 then Some(id)
    else if rows[id].parentEventId == "" then None
    else Ancestor(rows, rows[id].parentEventId, n - 1)
  }

  /** Ancestors were stored strictly earlier, at least one put earlier per generation. */
  lemma {:induction false} AncestorStoredBefore(s: State, id: string, n: nat, k: nat) returns (j: nat)
    requires PutsOk(s) && PutAt(s, k, id)
    requires Ancestor(s.rows, id, n).Some?
    ensures PutAt(s, j, Ancestor(s.rows, id, n).value) && j + n <= k
    decreases n
  {
    j := k;
    if n > 0 {
      var parent := s.rows[id].parentEventId;
      assert s.puts[k].row.parentEventId == parent;
      assert EverPut(s, parent, k);
      var m: nat :| m < k && PutAt(s, m, parent);
      j := AncestorStoredBefore(s, parent, n - 1, m);
    }
  }

  /** No row is its own ancestor, and every line of descent is finite. */
  lemma ParentsAreAcyclic(pacing: Pacing, clock: Time, steps: seq<Step>, id: string, n: nat)
    requires Runs(pacing, Start(clock), steps)
    requires n > 0
    ensures var s := Exec(pacing, Start(clock), steps);
            && Ancestor(s.rows, id, n) != Some(id)
            && (n >= |s.puts| ==> Ancestor(s.rows, id, n) == None)
  {
    RunKeepsSound(pacing, Start(clock), steps);
    var s := Exec(pacing, Start(clock), steps);
    if Ancestor(s.rows, id, n).Some? {
      assert EverPut(s, id, |s.puts|);
      var k: nat :| k < |s.puts| && PutAt(s, k, id);
      var j := AncestorStoredBefore(s, id, n, k);
    }
  }

  /** An aborted row descends, through aborted rows only, from a row NAV or the worker rejected. */
  lemma {:induction false} AbortedFromRejected(s: State, id: string, k: nat) returns (n: nat)
    requires Sound(s) && PutAt(s, k, id) && s.rows[id].status == Aborted
    ensures n > 0 && AncestorIs(s.rows, id, n, Rejected)
    ensures AbortedLine(s.rows, id, n)
    decreases k
  {
    var parent := s.rows[id].parentEventId;
    AbortedParent(s, id, k);
    if s.rows[parent].status == Rejected {
      n := 1;
      AncestorOfParent(s.rows, id, 0, Rejected);
      FirstOfLine(s.rows, id);
    } else {
      var j: nat :| j < k && PutAt(s, j, parent);
      var p := AbortedFromRejected(s, parent, j);
      n := p + 1;
      LineExtends(s.rows, id, p);
    }
  }

  lemma FirstOfLine(rows: Rows, id: string)
    requires id in rows && rows[id].status == Aborted
    ensures AbortedLine(rows, id, 1)
  {
    assert Ancestor(rows, id, 0) == Some(id);
  }

  lemma LineExtends(rows: Rows, id: string, n: nat)
    requires id in rows && rows[id].parentEventId != "" && rows[id].status == Aborted
    requires AncestorIs(rows, rows[id].parentEventId, n, Rejected) && AbortedLine(rows, rows[id].parentEventId, n)
    ensures AncestorIs(rows, id, n + 1, Rejected) && AbortedLine(rows, id, n + 1)
  {
    AncestorOfParent(rows, id, n, Rejected);
    AbortedLineExtends(rows, id, n);
  }

  /** The n-th ancestor exists, is stored, and has the given status. */
  ghost predicate AncestorIs(rows: Rows, id: string, n: nat, status: Status) {
    var root := Ancestor(rows, id, n);
    root.Some? && root.value in rows && rows[root.value].status == status
  }

  /** The row and its nearest ancestors, n rows in all, are aborted. */
  ghost predicate AbortedLine(rows: Rows, id: string, n: nat) {
    forall m: nat :: m < n ==> AncestorIs(rows, id, m, Aborted)
  }

  lemma AbortedLineExtends(rows: Rows, id: string, n: nat)
    requires id in rows && rows[id].parentEventId != "" && rows[id].status == Aborted
    requires AbortedLine(rows, rows[id].parentEventId, n)
    ensures AbortedLine(rows, id, n + 1)
  {
    forall m: nat | m < n + 1
      ensures AncestorIs(rows, id, m, Aborted)
    {
      if m > 0 {
        AncestorOfParent(rows, id, m - 1, Aborted);
      }
    }
  }

  lemma AncestorOfParent(rows: Rows, id: string, n: nat, status: Status)
    requires id in rows && rows[id].parentEventId != ""
    ensures AncestorIs(rows, id, n + 1, status) <==> AncestorIs(rows, rows[id].parentEventId, n, status)
  {
  }

  /** The parent of an aborted row failed, and was put before it. */
  lemma AbortedParent(s: State, id: string, k: nat)
    requires Sound(s) && PutAt(s, k, id) && s.rows[id].status == Aborted
    ensures var parent := s.rows[id].parentEventId;
            && parent != "" && parent in s.rows && EverPut(s, parent, k)
            && (s.rows[parent].status == Rejected || s.rows[parent].status == Aborted)
  {
    assert RowOk(s, s.rows[id]);
    assert PutBacked(s, s.puts[k].row, k);
  }
}
