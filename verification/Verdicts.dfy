/** Collapsing NAV's per-operation statuses into one verdict for the transaction. */
module Verdicts {

  predicate Final(status: string) {
    status == "FINISHED" || status == "DONE"
  }

  /** The first status that still has a name among those that are not final. */
  function FirstPending(statuses: seq<string>): string {
    if statuses == [] then ""
    else if !Final(statuses[0]) && statuses[0] != "" then statuses[0]
    else FirstPending(statuses[1..])
  }

  function Overall(statuses: seq<string>): string {
    if statuses == [] then ""
    else if "ABORTED" in statuses then "ABORTED"
    else if forall i :: 0 <= i < |statuses| ==> Final(statuses[i]) then "FINISHED"
    else FirstPending(statuses)
  }

  lemma {:induction false} FirstPendingAppend(statuses: seq<string>, last: string)
    ensures FirstPending(statuses + [last]) ==
            if FirstPending(statuses) != "" then FirstPending(statuses)
            else if Final(last) then "" else last
  {
    if statuses == [] {
      assert [last][1..] == [];
    } else {
      assert (statuses + [last])[1..] == statuses[1..] + [last];
      FirstPendingAppend(statuses[1..], last);
    }
  }

  method OverallStatus(statuses: seq<string>) returns (verdict: string)
    ensures verdict == Overall(statuses)
  {
    if |statuses| == 0 {
      return "";
    }
    var allFinal := true;
    var pending := "";
    var i := 0;
    while i < |statuses|
      invariant 0 <= i <= |statuses|
      invariant forall j :: 0 <= j < i ==> statuses[j] != "ABORTED"
      invariant allFinal <==> forall j :: 0 <= j < i ==> Final(statuses[j])
      invariant pending == FirstPending(statuses[..i])
    {
      var status := statuses[i];
      FirstPendingAppend(statuses[..i], status);
      assert statuses[..i] + [status] == statuses[..i + 1];
      if status == "ABORTED" {
        return "ABORTED";
      } else if status == "FINISHED" || status == "DONE" {
      } else {
        allFinal := false;
        if pending == "" {
          pending := status;
        }
      }
      i := i + 1;
    }
    assert statuses[..|statuses|] == statuses;
    if allFinal {
      return "FINISHED";
    }
    return pending;
  }

  /** A verdict is a final one only for a non-empty answer whose every operation is final. */
  lemma FinalVerdict(statuses: seq<string>)
    ensures Final(Overall(statuses)) <==>
            |statuses| > 0 && forall i :: 0 <= i < |statuses| ==> Final(statuses[i])
  {
    PendingIsNotFinal(statuses);
    if |statuses| > 0 && forall i :: 0 <= i < |statuses| ==> Final(statuses[i]) {
      assert "ABORTED" !in statuses;
    }
  }

  lemma AbortedVerdict(statuses: seq<string>)
    ensures Overall(statuses) == "ABORTED" <==> "ABORTED" in statuses
  {
    PendingIsNotFinal(statuses);
  }

  lemma {:induction false} PendingIsNotFinal(statuses: seq<string>)
    ensures !Final(FirstPending(statuses))
    ensures FirstPending(statuses) != "" ==> FirstPending(statuses) in statuses
  {
    if statuses != [] {
      PendingIsNotFinal(statuses[1..]);
    }
  }

  /** The order in which NAV lists the operations cannot change whether the worker accepts, rejects or polls on. */
  lemma VerdictIgnoresOrder(a: seq<string>, b: seq<string>)
    requires multiset(a) == multiset(b)
    ensures Overall(a) == "ABORTED" <==> Overall(b) == "ABORTED"
    ensures Final(Overall(a)) <==> Final(Overall(b))
  {
    AbortedVerdict(a);
    AbortedVerdict(b);
    FinalVerdict(a);
    FinalVerdict(b);
    SameMembers(a, b);
    assert |a| == |multiset(a)| == |multiset(b)| == |b|;
  }

  lemma SameMembers(a: seq<string>, b: seq<string>)
    requires multiset(a) == multiset(b)
    ensures forall x :: x in a <==> x in b
    ensures (forall i :: 0 <= i < |a| ==> Final(a[i])) <==> (forall i :: 0 <= i < |b| ==> Final(b[i]))
  {
    assert forall x :: x in a <==> x in multiset(a);
    assert forall x :: x in b <==> x in multiset(b);
    assert forall i :: 0 <= i < |a| ==> a[i] in b;
    assert forall i :: 0 <= i < |b| ==> b[i] in a;
  }
}
