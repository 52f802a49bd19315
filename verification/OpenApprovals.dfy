/** The open approvals of one run, and what happens to them when approvals of
    this or of another run are requested and decided. */
module OpenApprovals {
  import opened Prelude
  import opened Nodes
  import opened Tables

  /** Both tables show the same open approvals of the run. */
  ghost predicate SameOpen(before: seq<Approval>, after: seq<Approval>, r: RunId) {
    && PendingFor(after, r) == PendingFor(before, r)
    && |before| <= |after|
    && forall i :: 0 <= i < |before| && before[i].run == r ==> after[i] == before[i]
  }

  lemma PendingSnoc(approvals: seq<Approval>, a: Approval, r: RunId)
    ensures PendingFor(approvals + [a], r) ==
              PendingFor(approvals, r) + if a.run == r && a.decision == None then [|approvals|] else []
    ensures a.run != r ==> SameOpen(approvals, approvals + [a], r)
  {
    assert (approvals + [a])[..|approvals|] == approvals;
  }

  lemma {:induction false} DecideForOther(approvals: seq<Approval>, i: nat, decision: Decision, reason: string, r: RunId)
    requires i < |approvals| && approvals[i].run != r
    ensures PendingFor(DecideAt(approvals, i, decision, reason), r) == PendingFor(approvals, r)
    decreases |approvals|
  {
    var n := |approvals| - 1;
    var after := DecideAt(approvals, i, decision, reason);
    if i < n {
      assert after[..n] == DecideAt(approvals[..n], i, decision, reason);
      DecideForOther(approvals[..n], i, decision, reason, r);
    } else {
      assert after[..n] == approvals[..n];
    }
  }

  lemma {:induction false} NoneOpen(approvals: seq<Approval>, r: RunId)
    requires forall i :: 0 <= i < |approvals| && approvals[i].run == r ==> approvals[i].decision.Some?
    ensures PendingFor(approvals, r) == []
    decreases |approvals|
  {
    if approvals != [] {
      NoneOpen(approvals[..|approvals| - 1], r);
    }
  }

  /** Deciding a run's only open approval leaves none open. */
  lemma DecideOnly(approvals: seq<Approval>, i: nat, decision: Decision, reason: string, r: RunId)
    requires PendingFor(approvals, r) == [i]
    ensures PendingFor(DecideAt(approvals, i, decision, reason), r) == []
  {
    var after := DecideAt(approvals, i, decision, reason);
    PendingForMeaning(approvals, r);
    forall k | 0 <= k < |after| && after[k].run == r ensures after[k].decision.Some? {
      assert k in PendingFor(approvals, r) <==> k == i;
    }
    NoneOpen(after, r);
  }

  lemma PendingAfterDecide(approvals: seq<Approval>, i: nat, decision: Decision, reason: string, r: RunId)
    requires i < |approvals|
    ensures var after := DecideAt(approvals, i, decision, reason);
            && (approvals[i].run != r ==> SameOpen(approvals, after, r))
            && (PendingFor(approvals, r) == [i] ==> PendingFor(after, r) == [])
  {
    if approvals[i].run != r {
      DecideForOther(approvals, i, decision, reason, r);
    }
    if PendingFor(approvals, r) == [i] {
      DecideOnly(approvals, i, decision, reason, r);
    }
  }

  lemma DecideElsewhere(approvals: seq<Approval>, t: nat, decision: Decision, reason: string, r: RunId)
    requires PendingFor(approvals, r) == [t] && t < |approvals| && approvals[t].run == r
    ensures PendingFor(DecideAt(approvals, t, decision, reason), r) == []
    ensures forall q :: q != r ==> SameOpen(approvals, DecideAt(approvals, t, decision, reason), q)
  {
    PendingAfterDecide(approvals, t, decision, reason, r);
    forall q | q != r ensures SameOpen(approvals, DecideAt(approvals, t, decision, reason), q) {
      PendingAfterDecide(approvals, t, decision, reason, q);
    }
  }

  lemma PendingFirst(approvals: seq<Approval>, r: RunId)
    requires |PendingFor(approvals, r)| == 1
    ensures var t := PendingFor(approvals, r)[0];
            PendingFor(approvals, r) == [t] && t < |approvals| && approvals[t].run == r
  {
    PendingForMeaning(approvals, r);
    assert PendingFor(approvals, r)[0] in PendingFor(approvals, r);
  }

  /** One open approval, the one the state asks for, or none. */
  ghost predicate OpenApproval(approvals: seq<Approval>, r: RunId, s: RunState) {
    if NeedsApproval(s) then
      && |PendingFor(approvals, r)| == 1
      && PendingFor(approvals, r)[0] < |approvals|
      && approvals[PendingFor(approvals, r)[0]] == RequestFor(r, s)
    else PendingFor(approvals, r) == []
  }

  lemma OpenStays(before: seq<Approval>, after: seq<Approval>, r: RunId, s: RunState)
    requires SameOpen(before, after, r)
    ensures OpenApproval(before, r, s) ==> OpenApproval(after, r, s)
  {
    PendingForMeaning(before, r);
    if PendingFor(before, r) != [] {
      assert PendingFor(before, r)[0] in PendingFor(before, r);
    }
  }

  lemma RequestOpens(approvals: seq<Approval>, r: RunId, s: RunState)
    requires NeedsApproval(s) && PendingFor(approvals, r) == []
    ensures OpenApproval(approvals + [RequestFor(r, s)], r, s)
  {
    PendingSnoc(approvals, RequestFor(r, s), r);
  }

  lemma NobodyAsks(approvals: seq<Approval>, r: RunId)
    requires forall i :: 0 <= i < |approvals| ==> approvals[i].run != r
    ensures PendingFor(approvals, r) == []
  {
    NoneOpen(approvals, r);
  }
}
