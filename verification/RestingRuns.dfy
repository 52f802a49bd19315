/** What clean histories promise of the runs that nobody works on: each step
    is recorded once, and whoever waits has asked. */
module RestingRuns {
  import opened Prelude
  import opened RiskRegistry
  import opened Nodes
  import opened GraphRuns
  import opened ApprovalPack
  import opened Tables
  import opened Protocol
  import opened Checkpoints
  import opened Lineage
  import opened CleanRuns

  function StepsCost(steps: seq<StepRow>): real {
    if steps == [] then 0.0 else StepsCost(steps[..|steps| - 1]) + steps[|steps| - 1].cost
  }

  lemma {:induction false} StepsCostIsTraceCost(steps: seq<StepRow>)
    requires forall i :: 0 <= i < |steps| ==> steps[i] == StepOf(steps[i].output)
    ensures StepsCost(steps) == TraceCost(Outputs(steps))
    decreases |steps|
  {
    if steps != [] {
      var n := |steps| - 1;
      StepsCostIsTraceCost(steps[..n]);
      assert Outputs(steps)[..n] == Outputs(steps[..n]);
    }
  }

  /** Each step of the checkpoint is in the table exactly once and in order. */
  ghost predicate RecordedOnce(e: RunEntry) {
    if e.row.checkpoint.Some? then Outputs(e.steps) == e.row.checkpoint.value.state.trace else e.steps == []
  }

  /** Of an idle run each step is recorded once, and the row's total is the sum
      of its steps. */
  lemma {:induction false} ExactlyOnce(cfg: Config, labels: seq<Label>, r: RunId)
    requires CleanHistory(cfg, StepsOnce, labels)
    requires r in History(cfg, labels).runs && Idle(History(cfg, labels), r)
    ensures var e := History(cfg, labels).runs[r];
            RecordedOnce(e) && e.row.totalCost == StepsCost(e.steps)
  {
    CleanAlways(cfg, StepsOnce, labels);
    LineageAlways(cfg, labels);
    CheckpointsAlways(cfg, labels);
    var s := History(cfg, labels);
    var e := s.runs[r];
    assert EntryInv(s, e) && RowFromGraph(cfg, e.row);
    assert IdleInv(StepsOnce, s.approvals, r, e);
    RowsByAll(e.steps, e.authors, e.lineage);
    StepsCostIsTraceCost(e.steps);
  }

  /** The registry's approver role, or the default one. */
  function ApproverOf(policy: ToolPolicy): string {
    if policy.approverRole.Some? && policy.approverRole.value != "" then policy.approverRole.value else "operator"
  }

  /** The approval names the state's pending tool, is addressed to that tool's
      approver, carries its registry tier, and has one item of evidence per
      citation and per recorded step of a named tool. */
  ghost predicate AsksWell(reg: Registry, r: RunId, state: RunState, a: Approval) {
    && state.pendingTool == Some(a.action)
    && a.action in reg
    && a.role == ApproverOf(reg[a.action])
    && a.pack.runId == r && a.pack.action == a.action && a.pack.role == a.role
    && a.pack.tier == reg[a.action].tier && GatedTier(a.pack.tier)
    && (a.pack.reversible <==> a.pack.tier == Financial)
    && |a.pack.evidence| == |state.citations| + |NamedSteps(state.trace)|
  }

  /** An idle run waits on a tool with a name exactly when one approval is open
      for it, and that approval asks well. If every gate has a name, it simply
      waits exactly when one approval is open. */
  lemma {:induction false} WaitsIffOneApproval(cfg: Config, labels: seq<Label>, r: RunId)
    requires CleanHistory(cfg, OneApproval, labels)
    requires r in History(cfg, labels).runs && Idle(History(cfg, labels), r)
    ensures var s := History(cfg, labels);
            var row, open := s.runs[r].row, PendingFor(s.approvals, r);
            && (row.status == ApprovalRequired ==> row.checkpoint.Some?)
            && (row.status == ApprovalRequired && row.checkpoint.value.state.pendingTool != Some("") <==> |open| == 1)
            && |open| <= 1
            && (|open| == 1 ==>
                  && open[0] < |s.approvals|
                  && row.checkpoint.Some? && AsksWell(cfg.registry, r, row.checkpoint.value.state, s.approvals[open[0]]))
            && (NamedPlans(cfg) ==> (row.status == ApprovalRequired <==> |open| == 1))
  {
    CleanAlways(cfg, OneApproval, labels);
    CheckpointsAlways(cfg, labels);
    var s := History(cfg, labels);
    var e := s.runs[r];
    assert RowFromGraph(cfg, e.row) && IdleInv(OneApproval, s.approvals, r, e);
    if e.row.checkpoint.Some? && e.row.status == ApprovalRequired {
      var state := e.row.checkpoint.value.state;
      PackOfWaitingRun(cfg.registry, state, r, RoleOf(state));
      if NamedPlans(cfg) {
        PendingIsNamed(cfg.registry, state);
      }
    }
  }
}
