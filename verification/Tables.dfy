/** The runs, run_steps and approvals tables: what each SQL statement does to
    the row it touches, and the repositories that issue the statements. */
module Tables {
  import opened Prelude
  import opened RiskRegistry
  import opened Nodes
  import opened ApprovalPack

  type RunId = string
  type WorkerId = string
  type Time = int

  datatype Checkpoint = Checkpoint(state: RunState, persistedLen: nat)

  datatype Row = Row(
    workflowKey: string, vertical: Option<string>, createdAt: Time, status: Status,
    worker: Option<WorkerId>, lease: Option<Time>, checkpoint: Option<Checkpoint>, totalCost: real, stepCount: nat)

  datatype StepRow = StepRow(ok: bool, toolName: string, tier: Tier, latencyMs: nat, cost: Cost, output: TraceEntry)

  datatype Approval = Approval(
    run: RunId, action: string, role: string, pack: Pack, decision: Option<Decision>, reason: string)

  // ------------------------------------------------- statements on one row

  function NewRow(workflowKey: string, vertical: Option<string>, status: Status, now: Time): Row {
    Row(workflowKey, vertical, now, status, None, None, None, 0.0, 0)
  }

  predicate Stale(row: Row, now: Time) {
    row.status == Running && row.lease.Some? && row.lease.value < now
  }

  function ReleaseRow(row: Row, now: Time): Row {
    if Stale(row, now) then row.(status := Pending, worker := None, lease := None) else row
  }

  function ReleaseAll(rows: map<RunId, Row>, now: Time): map<RunId, Row> {
    map id | id in rows :: ReleaseRow(rows[id], now)
  }

  /** No pending run was created before this pending one. */
  ghost predicate OldestPending(rows: map<RunId, Row>, id: RunId) {
    && id in rows && rows[id].status == Pending
    && forall other :: other in rows && rows[other].status == Pending ==> rows[id].createdAt <= rows[other].createdAt
  }

  function ClaimRow(row: Row, worker: WorkerId, until: Time): Row {
    row.(status := Running, worker := Some(worker), lease := Some(until))
  }

  function RenewRow(row: Row, worker: WorkerId, until: Time): Row {
    if row.worker == Some(worker) && row.status == Running then row.(lease := Some(until)) else row
  }

  function SaveRow(row: Row, s: RunState, persistedLen: nat): Row {
    row.(status := s.status, checkpoint := Some(Checkpoint(s, persistedLen)), totalCost := s.cost,
         stepCount := s.stepCount, worker := None, lease := None)
  }

  function FailRow(row: Row): Row {
    row.(status := Failed)
  }

  function StepOf(e: TraceEntry): StepRow {
    StepRow(e.success, e.toolName, e.tier, e.latencyMs, e.cost, e)
  }

  function StepsOf(trace: seq<TraceEntry>): seq<StepRow> {
    seq(|trace|, i requires 0 <= i < |trace| => StepOf(trace[i]))
  }

  /** The undecided approvals of a run, oldest first, by position. */
  function PendingFor(approvals: seq<Approval>, run: RunId): seq<nat> {
    if approvals == [] then []
    else
      var n := |approvals| - 1;
      PendingFor(approvals[..n], run) + if approvals[n].run == run && approvals[n].decision == None then [n] else []
  }

  function DecideAt(approvals: seq<Approval>, i: nat, decision: Decision, reason: string): seq<Approval> {
    if i < |approvals| then approvals[i := approvals[i].(decision := Some(decision), reason := reason)] else approvals
  }

  function RoleOf(s: RunState): string {
    if s.approvalRole.Some? && s.approvalRole.value != "" then s.approvalRole.value else "operator"
  }

  /** The approval requested for a run that waits on a tool with a name. */
  function RequestFor(run: RunId, s: RunState): Approval
    requires s.pendingTool.Some?
  {
    Approval(run, s.pendingTool.value, RoleOf(s), BuildPack(run, s.pendingTool.value, RoleOf(s), s), None, "")
  }

  predicate NeedsApproval(s: RunState) {
    s.status == ApprovalRequired && s.pendingTool.Some? && s.pendingTool.value != ""
  }

  lemma {:induction false} PendingForMeaning(approvals: seq<Approval>, run: RunId)
    ensures forall i :: i in PendingFor(approvals, run) <==>
              0 <= i < |approvals| && approvals[i].run == run && approvals[i].decision == None
    ensures forall j, k :: 0 <= j < k < |PendingFor(approvals, run)| ==> PendingFor(approvals, run)[j] < PendingFor(approvals, run)[k]
    decreases |approvals|
  {
    if approvals != [] {
      var n := |approvals| - 1;
      PendingForMeaning(approvals[..n], run);
      var front := PendingFor(approvals[..n], run);
      assert forall j :: 0 <= j < |front| ==> front[j] in front;
    }
  }

  // ------------------------------------------------------- the repositories

  /** Some pending row is the oldest one. */
  lemma OldestPendingExists(rows: map<RunId, Row>, pending: set<RunId>)
    requires pending != {} && pending <= rows.Keys
    ensures exists id :: id in pending && forall other :: other in pending ==> rows[id].createdAt <= rows[other].createdAt
  {
    var id :| id in pending;
    if pending == {id} {
      assert forall other :: other in pending ==> rows[id].createdAt <= rows[other].createdAt;
    } else {
      OldestPendingExists(rows, pending - {id});
      var old' :| old' in pending - {id} && forall other :: other in pending - {id} ==> rows[old'].createdAt <= rows[other].createdAt;
      var least := if rows[id].createdAt <= rows[old'].createdAt then id else old';
      assert least in pending && forall other :: other in pending ==> rows[least].createdAt <= rows[other].createdAt;
    }
  }

  class RunRepository {
    var rows: map<RunId, Row>
    var steps: map<RunId, seq<StepRow>>
    var now: Time

    ghost predicate Valid()
      reads this
    {
      steps.Keys == rows.Keys
    }

    constructor ()
      ensures Valid() && rows == map[] && now == 0
    {
      rows, steps, now := map[], map[], 0;
    }

    /** The id is a fresh UUID. */
    method CreateRun(id: RunId, workflowKey: string, vertical: Option<string>, status: Status)
      requires Valid() && id !in rows
      modifies this
      ensures Valid() && now == old(now)
      ensures rows == old(rows)[id := NewRow(workflowKey, vertical, status, now)]
      ensures rows[id] == Row(workflowKey, vertical, now, status, None, None, None, 0.0, 0)
      ensures steps == old(steps)[id := []]
    {
      rows := rows[id := NewRow(workflowKey, vertical, status, now)];
      steps := steps[id := []];
    }

    method GetRun(id: RunId) returns (row: Option<Row>)
      ensures row.None? <==> id !in rows
      ensures row.Some? ==> rows[id] == row.value
    {
      row := if id in rows then Some(rows[id]) else None;
    }

    /** COALESCE keeps the totals that are not given. */
    method UpdateRunStatus(id: RunId, status: Status, totalCost: Option<real>, stepCount: Option<nat>)
      modifies this`rows
      ensures rows == if id in old(rows) then
                        old(rows)[id := old(rows)[id].(
                          status := status,
                          totalCost := if totalCost.Some? then totalCost.value else old(rows)[id].totalCost,
                          stepCount := if stepCount.Some? then stepCount.value else old(rows)[id].stepCount)]
                      else old(rows)
    {
      if id in rows {
        rows := rows[id := rows[id].(
          status := status,
          totalCost := if totalCost.Some? then totalCost.value else rows[id].totalCost,
          stepCount := if stepCount.Some? then stepCount.value else rows[id].stepCount)];
      }
    }

    method AppendStep(id: RunId, e: TraceEntry)
      requires Valid() && id in rows
      modifies this`steps
      ensures Valid() && steps == old(steps)[id := old(steps)[id] + [StepOf(e)]]
      ensures StepOf(e) == StepRow(e.success, e.toolName, e.tier, e.latencyMs, e.cost, e)
    {
      steps := steps[id := steps[id] + [StepOf(e)]];
    }

    /** One statement over the whole table. */
    method ReleaseStaleRunning() returns (released: nat)
      modifies this`rows
      ensures rows == ReleaseAll(old(rows), now)
      ensures released == |set id | id in old(rows) && Stale(old(rows)[id], now)|
      ensures forall id :: id in rows ==> !Stale(rows[id], now)
      ensures rows.Keys == old(rows).Keys
      ensures forall id :: id in old(rows) ==>
                var row := old(rows)[id];
                rows[id] == if row.status == Running && row.lease.Some? && row.lease.value < now
                            then row.(status := Pending, worker := None, lease := None) else row
    {
      var stale := set id | id in rows && Stale(rows[id], now);
      rows := ReleaseAll(rows, now);
      released := |stale|;
    }

    /** The oldest pending run, if there is one. */
    method ClaimNextPending(worker: WorkerId, seconds: int) returns (claimed: Option<RunId>)
      modifies this`rows
      ensures claimed == None <==> forall id :: id in old(rows) ==> old(rows)[id].status != Pending
      ensures claimed == None ==> rows == old(rows)
      ensures claimed.Some? ==>
                && OldestPending(old(rows), claimed.value)
                && (forall id :: id in old(rows) && old(rows)[id].status == Pending ==>
                      old(rows)[claimed.value].createdAt <= old(rows)[id].createdAt)
                && rows == old(rows)[claimed.value := ClaimRow(old(rows)[claimed.value], worker, now + seconds)]
                && rows[claimed.value] ==
                     old(rows)[claimed.value].(status := Running, worker := Some(worker), lease := Some(now + seconds))
    {
      var pending := set id | id in rows && rows[id].status == Pending;
      if pending == {} {
        assert forall id :: id in rows && rows[id].status == Pending ==> id in pending;
        return None;
      }
      OldestPendingExists(rows, pending);
      var id :| id in pending && forall other :: other in pending ==> rows[id].createdAt <= rows[other].createdAt;
      rows := rows[id := ClaimRow(rows[id], worker, now + seconds)];
      return Some(id);
    }

    method ClaimRunById(id: RunId, worker: WorkerId, seconds: int) returns (claimed: bool)
      modifies this`rows
      ensures claimed <==> id in old(rows) && old(rows)[id].status == Pending
      ensures rows == if claimed then old(rows)[id := ClaimRow(old(rows)[id], worker, now + seconds)] else old(rows)
      ensures claimed ==> rows[id] == old(rows)[id].(status := Running, worker := Some(worker), lease := Some(now + seconds))
    {
      claimed := id in rows && rows[id].status == Pending;
      if claimed {
        rows := rows[id := ClaimRow(rows[id], worker, now + seconds)];
      }
    }

    /** A lease held by another worker is not touched. */
    method RenewLease(id: RunId, worker: WorkerId, seconds: int)
      modifies this`rows
      ensures rows == if id in old(rows) then old(rows)[id := RenewRow(old(rows)[id], worker, now + seconds)] else old(rows)
      ensures forall other :: other in old(rows) && old(rows)[other].worker != Some(worker) ==>
                other in rows && rows[other] == old(rows)[other]
      ensures id in old(rows) && old(rows)[id].worker == Some(worker) && old(rows)[id].status == Running ==>
                id in rows && rows[id] == old(rows)[id].(lease := Some(now + seconds))
    {
      if id in rows {
        rows := rows[id := RenewRow(rows[id], worker, now + seconds)];
      }
    }

    method SaveCheckpoint(id: RunId, s: RunState, persistedLen: nat)
      modifies this`rows
      ensures rows == if id in old(rows) then old(rows)[id := SaveRow(old(rows)[id], s, persistedLen)] else old(rows)
      ensures id in old(rows) ==>
                id in rows && rows[id] == old(rows)[id].(
                  status := s.status, checkpoint := Some(Checkpoint(s, persistedLen)), totalCost := s.cost,
                  stepCount := s.stepCount, worker := None, lease := None)
    {
      if id in rows {
        rows := rows[id := SaveRow(rows[id], s, persistedLen)];
      }
    }
  }

  class ApprovalRepository {
    var approvals: seq<Approval>

    constructor ()
      ensures approvals == []
    {
      approvals := [];
    }

    method Create(approval: Approval) returns (id: nat)
      modifies this
      ensures id == |old(approvals)| && approvals == old(approvals) + [approval]
    {
      id := |approvals|;
      approvals := approvals + [approval];
    }

    method ListPendingForRun(run: RunId) returns (pending: seq<nat>)
      ensures forall i :: i in pending <==> 0 <= i < |approvals| && approvals[i].run == run && approvals[i].decision == None
      ensures forall j, k :: 0 <= j < k < |pending| ==> pending[j] < pending[k]
      ensures pending == PendingFor(approvals, run)
    {
      PendingForMeaning(approvals, run);
      pending := PendingFor(approvals, run);
    }

    method Decide(id: nat, decision: Decision, reason: string)
      modifies this
      ensures approvals == DecideAt(old(approvals), id, decision, reason)
      ensures |approvals| == |old(approvals)|
      ensures forall i :: 0 <= i < |approvals| ==>
                approvals[i] == if i == id then old(approvals)[i].(decision := Some(decision), reason := reason) else old(approvals)[i]
    {
      approvals := DecideAt(approvals, id, decision, reason);
    }
  }
}
