/** What every checkpoint is, in every history: a state some run of the graph
    could be in. So whatever the workers do to each other, the trace that a
    checkpoint records follows its plan. */
module Checkpoints {
  import opened Prelude
  import opened Nodes
  import opened RunGraph
  import opened GraphRuns
  import opened GraphBudgets
  import opened Tables
  import opened Protocol

  /** The state ends a part of some run: its totals are those of its trace, it
      is within budget but for one entry, and it waits only at a proposal. If
      every gate has a name, it also follows its plan. */
  ghost predicate FromGraph(cfg: Config, s: RunState) {
    WithinBudget(cfg.registry, s) && (NamedPlans(cfg) ==> Answerable(cfg.registry, s))
  }

  lemma AnnotateFromGraph(cfg: Config, s: RunState, order: Order)
    requires FromGraph(cfg, s)
    ensures FromGraph(cfg, Annotate(s, order))
  {
  }

  lemma InvokeFromGraph(cfg: Config, q: Request, tools: Dispatcher)
    requires Invoke(cfg, q, tools).Some?
    ensures FromGraph(cfg, Invoke(cfg, q, tools).value)
  {
    RunWithinBudget(cfg, q, tools, []);
    if NamedPlans(cfg) {
      InvokeAnswerable(cfg, q, tools);
    }
  }

  lemma ResumeFromGraph(cfg: Config, s: RunState, decision: Decision, tools: Dispatcher)
    requires FromGraph(cfg, s)
    ensures Resume(cfg.registry, s, decision, tools).Some?
    ensures FromGraph(cfg, Resume(cfg.registry, s, decision, tools).value)
  {
    ResumeWithin(cfg.registry, s, decision, tools);
    if NamedPlans(cfg) {
      ResumeAnswerable(cfg.registry, s, decision, tools);
    }
  }

  lemma ResultFromGraph(cfg: Config, job: Job, tools: Dispatcher)
    requires job.base.Some? ==> FromGraph(cfg, job.base.value.state)
    ensures GraphResult(cfg, job, tools).Some? ==> FromGraph(cfg, GraphResult(cfg, job, tools).value)
    ensures job.order.Some? && job.base.Some? ==> GraphResult(cfg, job, tools).Some?
  {
    match job.order
    case None =>
      if Invoke(cfg, job.request, tools).Some? {
        InvokeFromGraph(cfg, job.request, tools);
      }
    case Some(order) =>
      if job.base.Some? {
        ResumeFromGraph(cfg, job.base.value.state, order.decision, tools);
        AnnotateFromGraph(cfg, Resume(cfg.registry, job.base.value.state, order.decision, tools).value, order);
      }
  }

  /** The state a job read and the state it is about to save. */
  ghost predicate JobFromGraph(cfg: Config, job: Job) {
    && (job.base.Some? ==> FromGraph(cfg, job.base.value.state))
    && match job.phase
       case Persisting(final, _) => FromGraph(cfg, final)
       case Saved(final) => FromGraph(cfg, final)
       case Approving(final) => FromGraph(cfg, final)
       case _ => true
  }

  ghost predicate RowFromGraph(cfg: Config, row: Row) {
    row.checkpoint.Some? ==> FromGraph(cfg, row.checkpoint.value.state)
  }

  ghost predicate CheckpointInv(cfg: Config, s: System) {
    && (forall r :: r in s.runs ==> RowFromGraph(cfg, s.runs[r].row))
    && (forall j :: j in s.jobs ==> JobFromGraph(cfg, s.jobs[j]))
  }

  lemma {:induction false} ExecuteCheckpoints(cfg: Config, s: System, j: JobId, tools: Dispatcher)
    requires CheckpointInv(cfg, s)
    ensures CheckpointInv(cfg, ExecuteStep(cfg, s, j, tools))
  {
    if j in s.jobs && ReadyToExecute(s.jobs[j]) {
      assert JobFromGraph(cfg, s.jobs[j]);
      ResultFromGraph(cfg, s.jobs[j], tools);
    }
  }

  lemma OpenCheckpoints(cfg: Config, s: System, run: RunId, approval: Option<nat>, order: Order)
    requires CheckpointInv(cfg, s)
    ensures CheckpointInv(cfg, OpenStep(s, run, approval, order))
  {
    assert run in s.runs ==> RowFromGraph(cfg, s.runs[run].row);
  }

  lemma SaveCheckpoints(cfg: Config, s: System, j: JobId)
    requires CheckpointInv(cfg, s)
    ensures CheckpointInv(cfg, SaveStep(s, j))
  {
    assert j in s.jobs ==> JobFromGraph(cfg, s.jobs[j]);
  }

  lemma {:induction false} QueueStepKeepsCheckpoints(cfg: Config, s: System, l: Label)
    requires CheckpointInv(cfg, s)
    requires l.Create? || l.Tick? || l.ReleaseStale? || l.Claim? || l.Renew? || l.Raise? || l.Crash?
    ensures CheckpointInv(cfg, Step(cfg, s, l))
  {
  }

  lemma {:induction false} StepKeepsCheckpoints(cfg: Config, s: System, l: Label)
    requires CheckpointInv(cfg, s)
    ensures CheckpointInv(cfg, Step(cfg, s, l))
  {
    match l
    case Execute(j, tools) => ExecuteCheckpoints(cfg, s, j, tools);
    case OpenResume(run, approval, order) => OpenCheckpoints(cfg, s, run, approval, order);
    case Save(j) => SaveCheckpoints(cfg, s, j);
    case _ =>
      if l.Create? || l.Tick? || l.ReleaseStale? || l.Claim? || l.Renew? || l.Raise? || l.Crash? {
        QueueStepKeepsCheckpoints(cfg, s, l);
      } else {
        MoveStepKeepsCheckpoints(cfg, s, l);
      }
  }

  lemma {:induction false} MoveStepKeepsCheckpoints(cfg: Config, s: System, l: Label)
    requires CheckpointInv(cfg, s)
    requires l.ListPending? || l.Decide? || l.Append? || l.Check? || l.RequestApproval?
    ensures CheckpointInv(cfg, Step(cfg, s, l))
  {
    assert l.job in s.jobs ==> JobFromGraph(cfg, s.jobs[l.job]);
  }

  lemma {:induction false} CheckpointsAlways(cfg: Config, labels: seq<Label>)
    ensures CheckpointInv(cfg, History(cfg, labels))
    decreases |labels|
  {
    if labels != [] {
      var n := |labels| - 1;
      CheckpointsAlways(cfg, labels[..n]);
      StepKeepsCheckpoints(cfg, History(cfg, labels[..n]), labels[n]);
    }
  }

  /** In every history a checkpoint's trace is a prefix of its expanded plan
      with every gated execution behind its own proposal, its steps and cost
      are those of the trace, and it ended for a stated reason. */
  lemma {:induction false} EveryCheckpointFollowsPlan(cfg: Config, labels: seq<Label>, r: RunId)
    requires NamedPlans(cfg)
    requires r in History(cfg, labels).runs && History(cfg, labels).runs[r].row.checkpoint.Some?
    ensures var f := History(cfg, labels).runs[r].row.checkpoint.value.state;
            && Ended(cfg.registry, f)
            && f.currentStep <= |f.plan|
            && Shapes(f.trace) <= Expand(cfg.registry, f.plan)
            && ExecutedTools(Shapes(f.trace)) == f.plan[..f.currentStep]
            && ProposalFirst(Shapes(f.trace))
            && f.stepCount == |f.trace| <= MAX_STEPS + 1 && f.cost == TraceCost(f.trace)
            && (f.status == Completed ==> Shapes(f.trace) == Expand(cfg.registry, f.plan) && f.citations != [])
  {
    CheckpointsAlways(cfg, labels);
    var f := History(cfg, labels).runs[r].row.checkpoint.value.state;
    assert RowFromGraph(cfg, History(cfg, labels).runs[r].row);
    SoundTrace(cfg.registry, f);
    SoundProposesFirst(cfg.registry, f);
  }

  /** In every history, whatever the gates are called: a checkpoint overshoots
      its budgets by no more than one step and one dispatch, and one that waits
      does so at the recorded proposal of a gated tool. */
  lemma {:induction false} EveryCheckpointWithinBudget(cfg: Config, labels: seq<Label>, r: RunId)
    requires r in History(cfg, labels).runs && History(cfg, labels).runs[r].row.checkpoint.Some?
    ensures var f := History(cfg, labels).runs[r].row.checkpoint.value.state;
            && f.stepCount == |f.trace| <= MAX_STEPS + 1
            && f.cost == TraceCost(f.trace) < MAX_COST_USD + LastCost(f.trace)
            && (f.status == ApprovalRequired ==> WaitsAtProposal(cfg.registry, f))
  {
    CheckpointsAlways(cfg, labels);
    assert RowFromGraph(cfg, History(cfg, labels).runs[r].row);
  }
}
