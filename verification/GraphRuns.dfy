/** What every run of the graph keeps: from the planner's output, through any
    number of human decisions, with any answers from the tools. */
module GraphRuns {
  import opened Prelude
  import opened RiskRegistry
  import opened Nodes
  import opened RunGraph

  // ---------------------------------------------- the plan, expanded by hand

  /** The parts of a trace entry that do not depend on the tool's answer. */
  datatype Shape = Shape(tool: string, tier: Tier, requiresApproval: bool, executed: bool)

  function ShapeOf(e: TraceEntry): Shape {
    Shape(e.toolName, e.tier, e.requiresApproval, e.executed)
  }

  function Shapes(trace: seq<TraceEntry>): seq<Shape> {
    if trace == [] then []
    else Shapes(trace[..|trace| - 1]) + [ShapeOf(trace[|trace| - 1])]
  }

  function Proposed(reg: Registry, tool: string): Shape
    requires tool in reg
  {
    Shape(tool, reg[tool].tier, true, false)
  }

  /** One execution for a read-only tool; proposal, then execution, for a
      gated one. */
  function ToolShapes(reg: Registry, tool: string): seq<Shape> {
    if tool !in reg then []
    else if Gated(reg, tool) then [Proposed(reg, tool), Shape(tool, reg[tool].tier, true, true)]
    else [Shape(tool, reg[tool].tier, false, true)]
  }

  function Expand(reg: Registry, plan: seq<string>): seq<Shape> {
    if plan == [] then []
    else Expand(reg, plan[..|plan| - 1]) + ToolShapes(reg, plan[|plan| - 1])
  }

  function TraceCost(trace: seq<TraceEntry>): real {
    if trace == [] then 0.0
    else TraceCost(trace[..|trace| - 1]) + trace[|trace| - 1].cost
  }

  /** Everything the executed policy searches returned, step by step. */
  function Cited(trace: seq<TraceEntry>, d: Dispatcher): seq<string> {
    if trace == [] then []
    else
      var n := |trace| - 1;
      Cited(trace[..n], d) +
      if trace[n].executed && !trace[n].requiresApproval && trace[n].toolName == "policy.search" then
        CitedBy("policy.search", d("policy.search", NoArgs, n))
      else []
  }

  lemma {:induction false} ExpandConcat(reg: Registry, a: seq<string>, b: seq<string>)
    ensures Expand(reg, a + b) == Expand(reg, a) + Expand(reg, b)
    decreases |b|
  {
    if b == [] {
      assert a + b == a;
    } else {
      var n := |b| - 1;
      assert (a + b)[..|a + b| - 1] == a + b[..n];
      ExpandConcat(reg, a, b[..n]);
    }
  }

  lemma ExpandSnoc(reg: Registry, plan: seq<string>, k: nat)
    requires k < |plan|
    ensures Expand(reg, plan[..k + 1]) == Expand(reg, plan[..k]) + ToolShapes(reg, plan[k])
  {
    assert plan[..k + 1][..k] == plan[..k];
  }

  lemma {:induction false} ExpandPrefix(reg: Registry, plan: seq<string>, k: nat)
    requires k <= |plan|
    ensures Expand(reg, plan[..k]) <= Expand(reg, plan)
    ensures k < |plan| ==> Expand(reg, plan[..k]) + ToolShapes(reg, plan[k]) <= Expand(reg, plan)
  {
    assert plan == plan[..k] + plan[k..];
    ExpandConcat(reg, plan[..k], plan[k..]);
    if k < |plan| {
      ExpandSnoc(reg, plan, k);
      assert plan == plan[..k + 1] + plan[k + 1..];
      ExpandConcat(reg, plan[..k + 1], plan[k + 1..]);
    }
  }

  // ------------------------------------------------------- the run invariant

  ghost predicate NothingPending(s: RunState) {
    s.pendingTool == None && !s.pendingApproval
  }

  /** A proposal for the next planned tool is the last thing recorded. */
  ghost predicate AtGate(s: RunState) {
    s.status == ApprovalRequired || s.status == Cancelled
  }

  /** The trace is the expansion of plan[..k], plus the open proposal. */
  ghost predicate FollowsPlan(reg: Registry, plan: seq<string>, k: nat, trace: seq<TraceEntry>, atGate: bool) {
    && k <= |plan|
    && (forall i :: 0 <= i < k ==> plan[i] in reg)
    && (if atGate then
          k < |plan| && Gated(reg, plan[k]) && Shapes(trace) == Expand(reg, plan[..k]) + [Proposed(reg, plan[k])]
        else Shapes(trace) == Expand(reg, plan[..k]))
  }

  ghost predicate Sound(reg: Registry, s: RunState) {
    && FollowsPlan(reg, s.plan, s.currentStep, s.trace, AtGate(s))
    && s.stepCount == |s.trace|
    && s.cost == TraceCost(s.trace)
    && s.stepCount <= (if AtGate(s) then MAX_STEPS else MAX_STEPS + 1)
    && (AtGate(s) ==> s.cost < MAX_COST_USD)
    && (if s.status == ApprovalRequired then
          && s.pendingTool == Some(s.plan[s.currentStep])
          && s.pendingApproval
        else NothingPending(s))
    && s.approvalRole == (if AtGate(s) then reg[s.plan[s.currentStep]].approverRole else None)
  }

  /** Why a failed run failed. */
  ghost predicate FailureExplained(reg: Registry, s: RunState) {
    if s.currentStep < |s.plan| then OverBudget(s) || s.plan[s.currentStep] !in reg
    else s.citations == []
  }

  /** What a graph call may return; in particular never running or pending. */
  ghost predicate Ended(reg: Registry, s: RunState) {
    && Sound(reg, s)
    && match s.status
       case ApprovalRequired => true
       case Cancelled => true
       case Completed => s.currentStep == |s.plan| && s.citations != []
       case Failed => FailureExplained(reg, s)
       case _ => false
  }

  /** The last recorded entry is the proposal of the pending tool, with the
      registry's tier and approver. */
  ghost predicate WaitsAtProposal(reg: Registry, s: RunState) {
    && s.pendingTool.Some? && s.pendingTool.value in reg
    && s.approvalRole == reg[s.pendingTool.value].approverRole
    && s.trace != [] && s.trace[|s.trace| - 1] == Proposal(s.pendingTool.value, reg[s.pendingTool.value])
    && GatedTier(reg[s.pendingTool.value].tier)
  }

  /** The citations are the first occurrences of what the searches returned. */
  ghost predicate CitationsFrom(d: Dispatcher, s: RunState) {
    s.stepCount == |s.trace| && s.citations == FirstOccurrences(Cited(s.trace, d))
  }

  /** Gated tools that really ran. */
  function GatedRuns(trace: seq<TraceEntry>): nat {
    if trace == [] then 0
    else
      var n := |trace| - 1;
      GatedRuns(trace[..n]) + if trace[n].executed && GatedTier(trace[n].tier) then 1 else 0
  }

  /** What one or more steps keep of the state they start from. */
  ghost predicate Extends(s: RunState, f: RunState) {
    && f.plan == s.plan && f.runId == s.runId && f.vertical == s.vertical && f.skillName == s.skillName
    && s.trace <= f.trace
    && s.currentStep <= f.currentStep
  }

  lemma TraceSnoc(trace: seq<TraceEntry>, e: TraceEntry, d: Dispatcher)
    ensures Shapes(trace + [e]) == Shapes(trace) + [ShapeOf(e)]
    ensures TraceCost(trace + [e]) == TraceCost(trace) + e.cost
    ensures Cited(trace + [e], d) == Cited(trace, d) +
              if e.executed && !e.requiresApproval && e.toolName == "policy.search" then
                CitedBy("policy.search", d("policy.search", NoArgs, |trace|)) else []
    ensures GatedRuns(trace + [e]) == GatedRuns(trace) + if e.executed && GatedTier(e.tier) then 1 else 0
  {
    assert (trace + [e])[..|trace|] == trace;
  }

  // ------------------------------------------------------------ single steps

  /** Recording a proposal, an ungated execution or an approved execution
      keeps the trace on the plan. */
  lemma RecordFollows(reg: Registry, plan: seq<string>, k: nat, trace: seq<TraceEntry>, atGate: bool, e: TraceEntry)
    requires FollowsPlan(reg, plan, k, trace, atGate)
    requires k < |plan| && plan[k] in reg
    ensures !atGate && Gated(reg, plan[k]) && ShapeOf(e) == Proposed(reg, plan[k]) ==>
              FollowsPlan(reg, plan, k, trace + [e], true)
    ensures !atGate && !Gated(reg, plan[k]) && ShapeOf(e) == Shape(plan[k], reg[plan[k]].tier, false, true) ==>
              FollowsPlan(reg, plan, k + 1, trace + [e], false)
    ensures atGate && ShapeOf(e) == Shape(plan[k], reg[plan[k]].tier, true, true) ==>
              FollowsPlan(reg, plan, k + 1, trace + [e], false)
  {
    assert (trace + [e])[..|trace|] == trace;
    ExpandSnoc(reg, plan, k);
  }

  /** The specialist has a known next tool and budget to use it. */
  predicate CanAct(reg: Registry, s: RunState) {
    s.currentStep < |s.plan| && !OverBudget(s) && s.plan[s.currentStep] in reg
  }

  lemma SpecialistExecutes(reg: Registry, s: RunState, d: Dispatcher)
    requires Sound(reg, s) && s.status == Running
    requires CanAct(reg, s) && !Gated(reg, s.plan[s.currentStep])
    ensures var f := Specialist(reg, s, d);
            Sound(reg, f) && Extends(s, f) && f.status == Running && f.currentStep == s.currentStep + 1
  {
    var tool := s.plan[s.currentStep];
    var e := Execution(tool, reg[tool], d(tool, BuildArgs(tool, s), s.stepCount), false);
    assert Specialist(reg, s, d).trace == s.trace + [e];
    RecordFollows(reg, s.plan, s.currentStep, s.trace, false, e);
    TraceSnoc(s.trace, e, d);
  }

  lemma SpecialistProposes(reg: Registry, s: RunState, d: Dispatcher)
    requires Sound(reg, s) && s.status == Running
    requires CanAct(reg, s) && Gated(reg, s.plan[s.currentStep])
    ensures var f := Specialist(reg, s, d);
            Sound(reg, f) && Extends(s, f) && f.status == ApprovalRequired && f.currentStep == s.currentStep
  {
    var tool := s.plan[s.currentStep];
    var e := Proposal(tool, reg[tool]);
    RecordFollows(reg, s.plan, s.currentStep, s.trace, false, e);
    TraceSnoc(s.trace, e, d);
  }

  lemma {:induction false} SpecialistSound(reg: Registry, s: RunState, d: Dispatcher)
    requires Sound(reg, s) && s.status == Running
    ensures var f := Specialist(reg, s, d);
            && Sound(reg, f) && Extends(s, f)
            && f.status in {Running, ApprovalRequired, Completed, Failed}
            && (f.status == Completed ==> f.currentStep == |f.plan|)
            && (f.status == Failed ==> f.currentStep < |f.plan| && FailureExplained(reg, f))
  {
    if CanAct(reg, s) {
      if Gated(reg, s.plan[s.currentStep]) {
        SpecialistProposes(reg, s, d);
      } else {
        SpecialistExecutes(reg, s, d);
      }
    }
  }

  /** Citing one more step keeps the citations the first occurrences. */
  lemma CiteSnoc(trace: seq<TraceEntry>, e: TraceEntry, citations: seq<string>, d: Dispatcher)
    requires citations == FirstOccurrences(Cited(trace, d))
    ensures FirstOccurrences(Cited(trace + [e], d)) ==
              if e.executed && !e.requiresApproval && e.toolName == "policy.search" then
                AppendNew(citations, CitedBy("policy.search", d("policy.search", NoArgs, |trace|)))
              else citations
  {
    TraceSnoc(trace, e, d);
    AppendNewConcat([], Cited(trace, d), CitedBy("policy.search", d("policy.search", NoArgs, |trace|)));
    assert Cited(trace, d) + [] == Cited(trace, d);
  }

  lemma SpecialistCites(reg: Registry, s: RunState, d: Dispatcher)
    requires CitationsFrom(d, s)
    ensures CitationsFrom(d, Specialist(reg, s, d))
  {
    var f := Specialist(reg, s, d);
    if f.trace != s.trace {
      var tool := s.plan[s.currentStep];
      var r := d(tool, BuildArgs(tool, s), s.stepCount);
      var e := if Gated(reg, tool) then Proposal(tool, reg[tool]) else Execution(tool, reg[tool], r, false);
      CiteSnoc(s.trace, e, s.citations, d);
      assert f.trace == s.trace + [e];
    }
  }

  lemma SpecialistPassesNoGate(reg: Registry, s: RunState, d: Dispatcher)
    ensures var f := Specialist(reg, s, d);
            && GatedRuns(f.trace) == GatedRuns(s.trace)
            && f.plan == s.plan && s.currentStep <= f.currentStep
            && (f.currentStep == s.currentStep || f.currentStep <= |s.plan|)
            && (forall i :: s.currentStep <= i < f.currentStep ==> !Gated(reg, s.plan[i]))
  {
    var f := Specialist(reg, s, d);
    if f.trace != s.trace {
      var tool := s.plan[s.currentStep];
      var r := d(tool, BuildArgs(tool, s), s.stepCount);
      var e := if Gated(reg, tool) then Proposal(tool, reg[tool]) else Execution(tool, reg[tool], r, false);
      assert (s.trace + [e])[..|s.trace|] == s.trace;
    }
  }

  lemma {:induction false} LoopSound(reg: Registry, s: RunState, d: Dispatcher)
    requires Sound(reg, s) && s.status == Running
    ensures var f := SpecialistLoop(reg, s, d);
            && Sound(reg, f) && Extends(s, f)
            && f.status in {ApprovalRequired, Completed, Failed}
            && (f.status == Completed ==> f.currentStep == |f.plan|)
            && (f.status == Failed ==> f.currentStep < |f.plan| && FailureExplained(reg, f))
    decreases StepsLeft(s)
  {
    SpecialistSound(reg, s, d);
    var next := Specialist(reg, s, d);
    if next.status == Running {
      LoopSound(reg, next, d);
    }
  }

  lemma {:induction false} LoopCites(reg: Registry, s: RunState, d: Dispatcher)
    requires CitationsFrom(d, s)
    ensures CitationsFrom(d, SpecialistLoop(reg, s, d))
    decreases StepsLeft(s)
  {
    SpecialistCites(reg, s, d);
    var next := Specialist(reg, s, d);
    assert SpecialistLoop(reg, s, d) == if next.status == Running then SpecialistLoop(reg, next, d) else next;
    if next.status == Running {
      LoopCites(reg, next, d);
    }
  }

  lemma {:induction false} LoopPassesNoGate(reg: Registry, s: RunState, d: Dispatcher)
    ensures var f := SpecialistLoop(reg, s, d);
            && GatedRuns(f.trace) == GatedRuns(s.trace)
            && f.plan == s.plan && s.currentStep <= f.currentStep
            && (f.currentStep == s.currentStep || f.currentStep <= |s.plan|)
            && (forall i :: s.currentStep <= i < f.currentStep ==> !Gated(reg, s.plan[i]))
    decreases StepsLeft(s)
  {
    SpecialistPassesNoGate(reg, s, d);
    var next := Specialist(reg, s, d);
    if next.status == Running {
      LoopPassesNoGate(reg, next, d);
    }
  }

  /** The verifier never sends a run back as running. */
  lemma ConcludeEnded(reg: Registry, s: RunState)
    requires Sound(reg, s) && s.status in {ApprovalRequired, Completed, Failed}
    requires s.status == Completed ==> s.currentStep == |s.plan|
    requires s.status == Failed ==> FailureExplained(reg, s)
    ensures Ended(reg, Conclude(s)) && Extends(s, Conclude(s)) && Conclude(s).trace == s.trace
    ensures Conclude(s).citations == s.citations && Conclude(s).currentStep == s.currentStep
    ensures Conclude(s).status in {ApprovalRequired, Completed, Failed}
  {
  }

  lemma PlannerSound(cfg: Config, q: Request)
    requires Planner(cfg, q).Some?
    ensures var s := Planner(cfg, q).value;
            && Sound(cfg.registry, s) && s.status == Running && s.trace == [] && s.currentStep == 0
            && s.runId == q.runId && s.vertical == q.vertical && s.skillName == q.skillName
  {
    assert Planner(cfg, q).value.plan[..0] == [];
  }

  /** Every invoke ends completed, failed or waiting, and soundly so. */
  lemma InvokeEnded(cfg: Config, q: Request, d: Dispatcher)
    requires Invoke(cfg, q, d).Some?
    ensures var f := Invoke(cfg, q, d).value;
            && Ended(cfg.registry, f)
            && f.status in {ApprovalRequired, Completed, Failed}
            && CitationsFrom(d, f)
            && GatedRuns(f.trace) == 0
            && f.plan == Planner(cfg, q).value.plan
            && f.runId == q.runId && f.vertical == q.vertical && f.skillName == q.skillName
  {
    PlannerSound(cfg, q);
    var s := Planner(cfg, q).value;
    LoopSound(cfg.registry, s, d);
    LoopCites(cfg.registry, s, d);
    LoopPassesNoGate(cfg.registry, s, d);
    ConcludeEnded(cfg.registry, SpecialistLoop(cfg.registry, s, d));
  }

  /** The plan has no gate with the empty name. With one, an approval is
      lost: see GraphBudgets.ApprovalRunsPendingIff. */
  ghost predicate NamedGates(reg: Registry, plan: seq<string>) {
    "" in plan ==> !Gated(reg, "")
  }

  /** So is the plan of this request. */
  ghost predicate NamedPlan(cfg: Config, q: Request) {
    Planner(cfg, q).Some? && NamedGates(cfg.registry, Planner(cfg, q).value.plan)
  }

  lemma PendingIsNamed(reg: Registry, s: RunState)
    requires NamedGates(reg, s.plan) && Ended(reg, s)
    ensures s.pendingTool != Some("")
  {
  }

  lemma ExecutePendingSound(reg: Registry, s: RunState, d: Dispatcher)
    requires Ended(reg, s) && s.status == ApprovalRequired && s.pendingTool != Some("")
    ensures ExecutePending(reg, s, d).Some?
    ensures var f := ExecutePending(reg, s, d).value;
            && Sound(reg, f) && Extends(s, f) && f.status == Running
            && f.currentStep == s.currentStep + 1 && |f.trace| == |s.trace| + 1
            && GatedRuns(f.trace) == GatedRuns(s.trace) + 1
  {
    var tool := s.plan[s.currentStep];
    var e := Execution(tool, reg[tool], d(tool, BuildArgs(tool, s), s.stepCount), true);
    ExecutePendingAdds(reg, s, d, tool, e);
    ApprovedFollows(reg, s, e, d);
  }

  lemma ApprovedFollows(reg: Registry, s: RunState, e: TraceEntry, d: Dispatcher)
    requires Sound(reg, s) && s.status == ApprovalRequired
    requires ShapeOf(e) == Shape(s.plan[s.currentStep], reg[s.plan[s.currentStep]].tier, true, true)
    ensures FollowsPlan(reg, s.plan, s.currentStep + 1, s.trace + [e], false)
    ensures TraceCost(s.trace + [e]) == s.cost + e.cost && GatedRuns(s.trace + [e]) == GatedRuns(s.trace) + 1
  {
    RecordFollows(reg, s.plan, s.currentStep, s.trace, true, e);
    TraceSnoc(s.trace, e, d);
  }

  lemma ExecutePendingAdds(reg: Registry, s: RunState, d: Dispatcher, tool: string, e: TraceEntry)
    requires s.pendingTool == Some(tool) && tool != "" && tool in reg
    requires e == Execution(tool, reg[tool], d(tool, BuildArgs(tool, s), s.stepCount), true)
    ensures ExecutePending(reg, s, d) ==
              Some(s.(currentStep := s.currentStep + 1, stepCount := s.stepCount + 1, cost := s.cost + e.cost,
                      trace := s.trace + [e], pendingTool := None, pendingApproval := false, approvalRole := None,
                      status := Running))
  {
  }

  lemma ExecuteCites(reg: Registry, s: RunState, d: Dispatcher)
    requires CitationsFrom(d, s) && ExecutePending(reg, s, d).Some?
    ensures CitationsFrom(d, ExecutePending(reg, s, d).value)
  {
    var executed := ExecutePending(reg, s, d).value;
    if executed.trace != s.trace {
      CiteSnoc(s.trace, executed.trace[|s.trace|], s.citations, d);
      assert executed.trace == s.trace + [executed.trace[|s.trace|]];
    }
  }

  lemma ResumeCites(reg: Registry, s: RunState, decision: Decision, d: Dispatcher)
    requires CitationsFrom(d, s) && Resume(reg, s, decision, d).Some?
    ensures CitationsFrom(d, Resume(reg, s, decision, d).value)
  {
    if s.status == ApprovalRequired && decision == Approved {
      ExecuteCites(reg, s, d);
      LoopCites(reg, ExecutePending(reg, s, d).value, d);
    }
  }

  /** A resume never fails, never loses or rewrites a recorded step, and an
      accepted approval runs exactly one gated tool. */
  lemma ResumeEnded(reg: Registry, s: RunState, decision: Decision, d: Dispatcher)
    requires Ended(reg, s) && s.pendingTool != Some("")
    ensures Resume(reg, s, decision, d).Some?
    ensures var f := Resume(reg, s, decision, d).value;
            && Ended(reg, f) && Extends(s, f)
            && (CitationsFrom(d, s) ==> CitationsFrom(d, f))
            && (s.status == ApprovalRequired && decision == Rejected ==> f.status == Cancelled && f.trace == s.trace)
            && (s.status == ApprovalRequired && decision == Approved ==>
                  f.status in {ApprovalRequired, Completed, Failed} && s.currentStep < f.currentStep)
            && GatedRuns(f.trace) == GatedRuns(s.trace) +
                 (if s.status == ApprovalRequired && decision == Approved then 1 else 0)
            && (forall i :: s.currentStep < i < f.currentStep ==> !Gated(reg, s.plan[i]))
  {
    if s.status == ApprovalRequired && decision == Approved {
      ExecutePendingSound(reg, s, d);
      var executed := ExecutePending(reg, s, d).value;
      LoopSound(reg, executed, d);
      if CitationsFrom(d, s) { ResumeCites(reg, s, decision, d); }
      LoopPassesNoGate(reg, executed, d);
      ConcludeEnded(reg, SpecialistLoop(reg, executed, d));
    }
  }

  // -------------------------------------------------------------- whole runs

  /** How many of the decisions were approvals of a waiting run. */
  function AcceptedApprovals(cfg: Config, q: Request, d: Dispatcher, decisions: seq<Decision>): nat {
    if decisions == [] then 0
    else
      var n := |decisions| - 1;
      var before := Play(cfg, q, d, decisions[..n]);
      AcceptedApprovals(cfg, q, d, decisions[..n]) +
      if before.Some? && before.value.status == ApprovalRequired && decisions[n] == Approved then 1 else 0
  }

  lemma {:induction false} PlayEnded(cfg: Config, q: Request, d: Dispatcher, decisions: seq<Decision>)
    requires NamedPlan(cfg, q)
    ensures Play(cfg, q, d, decisions).Some?
    ensures var f := Play(cfg, q, d, decisions).value;
            && Ended(cfg.registry, f)
            && CitationsFrom(d, f)
            && f.plan == Planner(cfg, q).value.plan
            && GatedRuns(f.trace) == AcceptedApprovals(cfg, q, d, decisions)
    decreases |decisions|
  {
    if decisions == [] {
      InvokeEnded(cfg, q, d);
    } else {
      var n := |decisions| - 1;
      PlayEnded(cfg, q, d, decisions[..n]);
      PendingIsNamed(cfg.registry, Play(cfg, q, d, decisions[..n]).value);
      ResumeEnded(cfg.registry, Play(cfg, q, d, decisions[..n]).value, decisions[n], d);
    }
  }

  /** The outcome says what the run came to. */
  ghost predicate Reported(reg: Registry, s: RunState)
    requires Sound(reg, s)
  {
    match s.status
    case Completed => s.outcome.body == Resolved(false, s.citations, |s.trace|, TraceCost(s.trace))
    case ApprovalRequired =>
      s.outcome.body == AwaitingApproval(s.citations != [], reg[s.plan[s.currentStep]].approverRole, s.trace)
    case Cancelled => s.outcome.body == RejectedByHuman(s.citations != [])
    case _ => true
  }

  lemma ConcludeReports(reg: Registry, s: RunState)
    requires Sound(reg, s) && s.status in {ApprovalRequired, Completed, Failed}
    requires s.status == Completed ==> s.currentStep == |s.plan|
    requires s.status == Failed ==> FailureExplained(reg, s)
    ensures Sound(reg, Conclude(s)) && Reported(reg, Conclude(s))
  {
    ConcludeEnded(reg, s);
  }

  /** The outcome of any run: the citations, number of steps and sum of costs
      of a completed one, the approver's role and the trace of a waiting one. */
  lemma {:induction false} OutcomeReports(cfg: Config, q: Request, d: Dispatcher, decisions: seq<Decision>)
    requires NamedPlan(cfg, q)
    ensures Play(cfg, q, d, decisions).Some? && Ended(cfg.registry, Play(cfg, q, d, decisions).value)
    ensures Reported(cfg.registry, Play(cfg, q, d, decisions).value)
    decreases |decisions|
  {
    PlayEnded(cfg, q, d, decisions);
    var reg := cfg.registry;
    if decisions == [] {
      InvokeReports(cfg, q, d);
    } else {
      var n := |decisions| - 1;
      OutcomeReports(cfg, q, d, decisions[..n]);
      PlayEnded(cfg, q, d, decisions[..n]);
      PendingIsNamed(reg, Play(cfg, q, d, decisions[..n]).value);
      ResumeReports(reg, Play(cfg, q, d, decisions[..n]).value, decisions[n], d);
    }
  }

  lemma InvokeReports(cfg: Config, q: Request, d: Dispatcher)
    requires Planner(cfg, q).Some?
    ensures Sound(cfg.registry, Invoke(cfg, q, d).value) && Reported(cfg.registry, Invoke(cfg, q, d).value)
  {
    PlannerSound(cfg, q);
    var s := Planner(cfg, q).value;
    LoopSound(cfg.registry, s, d);
    ConcludeReports(cfg.registry, SpecialistLoop(cfg.registry, s, d));
  }

  lemma ResumeReports(reg: Registry, s: RunState, decision: Decision, d: Dispatcher)
    requires Ended(reg, s) && s.pendingTool != Some("") && Reported(reg, s)
    ensures Resume(reg, s, decision, d).Some? && Sound(reg, Resume(reg, s, decision, d).value)
    ensures Reported(reg, Resume(reg, s, decision, d).value)
  {
    ResumeEnded(reg, s, decision, d);
    if s.status == ApprovalRequired && decision == Approved {
      ExecutePendingSound(reg, s, d);
      var executed := ExecutePending(reg, s, d).value;
      LoopSound(reg, executed, d);
      ConcludeReports(reg, SpecialistLoop(reg, executed, d));
    }
  }

  /** No plan of the configuration has a gate with the empty name. */
  ghost predicate NamedPlans(cfg: Config) {
    forall q: Request :: Planner(cfg, q).Some? ==> NamedPlan(cfg, q)
  }

  /** A graph call ended like this, and any gate it waits at can be passed. */
  ghost predicate Answerable(reg: Registry, s: RunState) {
    Ended(reg, s) && NamedGates(reg, s.plan)
  }

  lemma InvokeAnswerable(cfg: Config, q: Request, d: Dispatcher)
    requires NamedPlans(cfg) && Invoke(cfg, q, d).Some?
    ensures Answerable(cfg.registry, Invoke(cfg, q, d).value)
  {
    assert NamedPlan(cfg, q);
    InvokeEnded(cfg, q, d);
  }

  lemma ResumeAnswerable(reg: Registry, s: RunState, decision: Decision, d: Dispatcher)
    requires Answerable(reg, s)
    ensures Resume(reg, s, decision, d).Some? && Answerable(reg, Resume(reg, s, decision, d).value)
  {
    PendingIsNamed(reg, s);
    ResumeEnded(reg, s, decision, d);
  }

  function ExecutedTools(shapes: seq<Shape>): seq<string> {
    if shapes == [] then []
    else
      var n := |shapes| - 1;
      ExecutedTools(shapes[..n]) + if shapes[n].executed then [shapes[n].tool] else []
  }

  lemma ExecutedToolsSnoc(shapes: seq<Shape>, e: Shape)
    ensures ExecutedTools(shapes + [e]) == ExecutedTools(shapes) + if e.executed then [e.tool] else []
  {
    assert (shapes + [e])[..|shapes|] == shapes;
  }

  lemma ToolExecutes(reg: Registry, before: seq<Shape>, tool: string)
    requires tool in reg
    ensures ExecutedTools(before + ToolShapes(reg, tool)) == ExecutedTools(before) + [tool]
  {
    var shapes := ToolShapes(reg, tool);
    if Gated(reg, tool) {
      ExecutedToolsSnoc(before, shapes[0]);
      ExecutedToolsSnoc(before + [shapes[0]], shapes[1]);
      assert before + [shapes[0]] + [shapes[1]] == before + shapes;
    } else {
      ExecutedToolsSnoc(before, shapes[0]);
    }
  }

  lemma {:induction false} ExpandExecutes(reg: Registry, plan: seq<string>)
    requires forall i :: 0 <= i < |plan| ==> plan[i] in reg
    ensures ExecutedTools(Expand(reg, plan)) == plan
    decreases |plan|
  {
    if plan != [] {
      var front, tool := plan[..|plan| - 1], plan[|plan| - 1];
      ExpandExecutes(reg, front);
      var before := Expand(reg, front);
      ToolExecutes(reg, before, tool);
      assert Expand(reg, plan) == before + ToolShapes(reg, tool);
      assert front + [tool] == plan;
    }
  }

  /** A sound trace is a prefix of the expanded plan; what it executed is the
      plan up to currentStep. */
  lemma SoundTrace(reg: Registry, f: RunState)
    requires Sound(reg, f)
    ensures Shapes(f.trace) <= Expand(reg, f.plan)
    ensures ExecutedTools(Shapes(f.trace)) == f.plan[..f.currentStep]
    ensures f.currentStep == |f.plan| ==> Shapes(f.trace) == Expand(reg, f.plan)
  {
    FollowedTrace(reg, f.plan, f.currentStep, f.trace, AtGate(f));
    assert f.plan[..|f.plan|] == f.plan;
  }

  lemma FollowedTrace(reg: Registry, plan: seq<string>, k: nat, trace: seq<TraceEntry>, atGate: bool)
    requires FollowsPlan(reg, plan, k, trace, atGate)
    ensures Shapes(trace) <= Expand(reg, plan)
    ensures ExecutedTools(Shapes(trace)) == plan[..k]
  {
    ExpandPrefix(reg, plan, k);
    ExpandExecutes(reg, plan[..k]);
    if atGate {
      var p := Proposed(reg, plan[k]);
      ExecutedToolsSnoc(Expand(reg, plan[..k]), p);
      assert ToolShapes(reg, plan[k])[..1] == [p];
    }
  }

  /** The trace of any run, at any time, is a prefix of the expanded plan: what
      ran is plan[..currentStep], and a run that completed ran all of it. */
  lemma {:induction false} RunFollowsPlan(cfg: Config, q: Request, d: Dispatcher, decisions: seq<Decision>)
    requires NamedPlan(cfg, q)
    ensures Play(cfg, q, d, decisions).Some?
    ensures var f := Play(cfg, q, d, decisions).value;
            var plan := Planner(cfg, q).value.plan;
            && f.plan == plan && f.currentStep <= |plan|
            && Shapes(f.trace) <= Expand(cfg.registry, plan)
            && ExecutedTools(Shapes(f.trace)) == plan[..f.currentStep]
            && f.stepCount == |f.trace|
            && f.cost == TraceCost(f.trace)
            && f.status in {ApprovalRequired, Completed, Failed, Cancelled}
            && (f.status == Completed ==>
                  Shapes(f.trace) == Expand(cfg.registry, plan) && NothingPending(f) && f.citations != [])
            && (f.status == Failed ==> FailureExplained(cfg.registry, f))
  {
    PlayEnded(cfg, q, d, decisions);
    SoundTrace(cfg.registry, Play(cfg, q, d, decisions).value);
  }

  lemma {:induction false} PlayCites(cfg: Config, q: Request, d: Dispatcher, decisions: seq<Decision>)
    requires Play(cfg, q, d, decisions).Some?
    ensures CitationsFrom(d, Play(cfg, q, d, decisions).value)
    decreases |decisions|
  {
    if decisions == [] {
      LoopCites(cfg.registry, Planner(cfg, q).value, d);
    } else {
      var n := |decisions| - 1;
      PlayCites(cfg, q, d, decisions[..n]);
      ResumeCites(cfg.registry, Play(cfg, q, d, decisions[..n]).value, decisions[n], d);
    }
  }

  /** The citations of a run: each once, in the order the searches first gave
      them, and nothing else. */
  lemma {:induction false} RunCitations(cfg: Config, q: Request, d: Dispatcher, decisions: seq<Decision>)
    requires Play(cfg, q, d, decisions).Some?
    ensures var f := Play(cfg, q, d, decisions).value;
            var all := Cited(f.trace, d);
            && Distinct(f.citations)
            && (forall c :: c in f.citations <==> c in all)
            && (forall i, j :: 0 <= i < j < |f.citations| ==>
                  FirstIndex(all, f.citations[i]) < FirstIndex(all, f.citations[j]))
  {
    PlayCites(cfg, q, d, decisions);
    FirstOccurrencesMeaning(Cited(Play(cfg, q, d, decisions).value.trace, d));
  }

  /** The citation was printed from match i that step n got back. */
  ghost predicate ReturnedAt(trace: seq<TraceEntry>, d: Dispatcher, n: nat, i: nat, citation: string) {
    && n < |trace| && trace[n].executed && !trace[n].requiresApproval && trace[n].toolName == "policy.search"
    && var r := d("policy.search", NoArgs, n);
       && r.success && r.output.DictOutput? && i < |r.output.matches| && r.output.matches[i].MatchDict?
       && citation == (if r.output.matches[i].policyId.Some? then r.output.matches[i].policyId.value else "") + " §" +
                      (if r.output.matches[i].clauseId.Some? then r.output.matches[i].clauseId.value else "")
  }

  /** Place (m, j) is in front of place (n, i). */
  predicate Sooner(m: nat, j: nat, n: nat, i: nat) {
    m < n || (m == n && j < i)
  }

  /** The citation was returned at a place in front of (n, i). */
  ghost predicate ReturnedBefore(trace: seq<TraceEntry>, d: Dispatcher, n: nat, i: nat, citation: string) {
    exists m: nat, j: nat :: Sooner(m, j, n, i) && ReturnedAt(trace, d, m, j, citation)
  }

  lemma {:induction false} PrintedFromMatch(matches: seq<Match>, citation: string) returns (i: nat)
    requires citation in PrintedMatches(matches)
    ensures i < |matches| && matches[i].MatchDict?
    ensures citation == PrintCitation(OrEmpty(matches[i].policyId), OrEmpty(matches[i].clauseId))
    decreases |matches|
  {
    if citation in PrintedMatches(matches[1..]) {
      var k := PrintedFromMatch(matches[1..], citation);
      i := k + 1;
    } else {
      i := 0;
    }
  }

  lemma {:induction false} MatchIsPrinted(matches: seq<Match>, i: nat)
    requires i < |matches| && matches[i].MatchDict?
    ensures PrintCitation(OrEmpty(matches[i].policyId), OrEmpty(matches[i].clauseId)) in PrintedMatches(matches)
    decreases i
  {
    if i > 0 {
      MatchIsPrinted(matches[1..], i - 1);
    }
  }

  lemma {:induction false} CitedWhere(trace: seq<TraceEntry>, d: Dispatcher, citation: string) returns (n: nat, i: nat)
    requires citation in Cited(trace, d)
    ensures ReturnedAt(trace, d, n, i, citation)
    decreases |trace|
  {
    n := |trace| - 1;
    if citation in Cited(trace[..n], d) {
      var m, k := CitedWhere(trace[..n], d, citation);
      n, i := m, k;
    } else {
      i := PrintedFromMatch(d("policy.search", NoArgs, n).output.matches, citation);
    }
  }

  lemma {:induction false} CitedSooner(trace: seq<TraceEntry>, d: Dispatcher, citation: string)
    requires trace != [] && citation in Cited(trace[..|trace| - 1], d)
    ensures citation in Cited(trace, d)
  {
  }

  lemma {:induction false} CitedLast(trace: seq<TraceEntry>, d: Dispatcher, citation: string)
    requires trace != []
    requires var n := |trace| - 1;
             && trace[n].executed && !trace[n].requiresApproval && trace[n].toolName == "policy.search"
             && citation in CitedBy("policy.search", d("policy.search", NoArgs, n))
    ensures citation in Cited(trace, d)
  {
  }

  lemma {:induction false} ReturnedIsCited(trace: seq<TraceEntry>, d: Dispatcher, n: nat, i: nat, citation: string)
    requires ReturnedAt(trace, d, n, i, citation)
    ensures citation in Cited(trace, d)
    decreases |trace|
  {
    var last := |trace| - 1;
    if n < last {
      ReturnedIsCited(trace[..last], d, n, i, citation);
      CitedSooner(trace, d, citation);
    } else {
      MatchIsPrinted(d("policy.search", NoArgs, n).output.matches, i);
      CitedLast(trace, d, citation);
    }
  }

  /** A run holds exactly the citations printed from the matches that its
      executed policy searches got back. */
  lemma {:induction false} RunCitesMatches(cfg: Config, q: Request, d: Dispatcher, decisions: seq<Decision>, citation: string)
    requires Play(cfg, q, d, decisions).Some?
    ensures var f := Play(cfg, q, d, decisions).value;
            citation in f.citations <==> exists n, i :: ReturnedAt(f.trace, d, n, i, citation)
  {
    RunCitations(cfg, q, d, decisions);
    var trace := Play(cfg, q, d, decisions).value.trace;
    if citation in Cited(trace, d) {
      var n, i := CitedWhere(trace, d, citation);
      assert ReturnedAt(trace, d, n, i, citation);
    }
    forall n, i | ReturnedAt(trace, d, n, i, citation) ensures citation in Cited(trace, d) {
      ReturnedIsCited(trace, d, n, i, citation);
    }
  }

  lemma {:induction false} PrintedInOrder(matches: seq<Match>, i: nat)
    requires i < |matches| && matches[i].MatchDict?
    ensures PrintedMatches(matches[..i]) + [PrintCitation(OrEmpty(matches[i].policyId), OrEmpty(matches[i].clauseId))]
              <= PrintedMatches(matches)
    decreases i
  {
    if i == 0 {
      assert matches[..i] == [];
    } else {
      PrintedInOrder(matches[1..], i - 1);
      assert matches[..i][1..] == matches[1..][..i - 1];
    }
  }

  /** What was cited up to a place, and the citation returned there. */
  lemma {:induction false} CitedInOrder(trace: seq<TraceEntry>, d: Dispatcher, n: nat, i: nat, citation: string)
    requires ReturnedAt(trace, d, n, i, citation)
    ensures var matches := d("policy.search", NoArgs, n).output.matches;
            Cited(trace[..n], d) + PrintedMatches(matches[..i]) + [citation] <= Cited(trace, d)
    decreases |trace|
  {
    var last, matches := |trace| - 1, d("policy.search", NoArgs, n).output.matches;
    if n < last {
      CitedInOrder(trace[..last], d, n, i, citation);
      assert trace[..last][..n] == trace[..n];
      CitedGrows(trace, d);
      PrefixAgain(Cited(trace[..n], d) + PrintedMatches(matches[..i]) + [citation], Cited(trace[..last], d), Cited(trace, d));
    } else {
      PrintedInOrder(matches, i);
      CitedByLast(trace, d);
      BehindPrefix(Cited(trace[..n], d), PrintedMatches(matches[..i]), citation, PrintedMatches(matches));
    }
  }

  lemma {:induction false} CitedGrows(trace: seq<TraceEntry>, d: Dispatcher)
    requires trace != []
    ensures Cited(trace[..|trace| - 1], d) <= Cited(trace, d)
  {
  }

  lemma {:induction false} CitedByLast(trace: seq<TraceEntry>, d: Dispatcher)
    requires trace != []
    requires var n := |trace| - 1;
             && trace[n].executed && !trace[n].requiresApproval && trace[n].toolName == "policy.search"
             && var r := d("policy.search", NoArgs, n); r.success && r.output.DictOutput?
    ensures var n := |trace| - 1;
            Cited(trace, d) == Cited(trace[..n], d) + PrintedMatches(d("policy.search", NoArgs, n).output.matches)
  {
  }

  lemma PrefixAgain(a: seq<string>, b: seq<string>, c: seq<string>)
    requires a <= b <= c
    ensures a <= c
  {
  }

  lemma BehindPrefix(front: seq<string>, part: seq<string>, x: string, whole: seq<string>)
    requires part + [x] <= whole
    ensures front + part + [x] <= front + whole
  {
    assert front + part + [x] == front + (part + [x]);
  }

  lemma SoonerFound(trace: seq<TraceEntry>, d: Dispatcher, n: nat, i: nat, citation: string, other: string)
    requires ReturnedAt(trace, d, n, i, citation)
    requires other in Cited(trace[..n], d) + PrintedMatches(d("policy.search", NoArgs, n).output.matches[..i])
    ensures ReturnedBefore(trace, d, n, i, other)
  {
    var matches := d("policy.search", NoArgs, n).output.matches;
    if other in Cited(trace[..n], d) {
      var m, j := CitedWhere(trace[..n], d, other);
      assert Sooner(m, j, n, i) && ReturnedAt(trace, d, m, j, other);
    } else {
      var j := PrintedFromMatch(matches[..i], other);
      assert Sooner(n, j, n, i) && ReturnedAt(trace, d, n, j, other);
    }
  }

  /** A run's citations stand in the order of their first return: wherever a
      later one was returned, an earlier one had been returned before. */
  lemma {:induction false} CitationsInOrder(cfg: Config, q: Request, d: Dispatcher, decisions: seq<Decision>,
                                           x: nat, y: nat, n: nat, i: nat)
    requires Play(cfg, q, d, decisions).Some?
    requires var f := Play(cfg, q, d, decisions).value;
             x < y < |f.citations| && ReturnedAt(f.trace, d, n, i, f.citations[y])
    ensures var f := Play(cfg, q, d, decisions).value;
            ReturnedBefore(f.trace, d, n, i, f.citations[x])
  {
    RunCitations(cfg, q, d, decisions);
    var f := Play(cfg, q, d, decisions).value;
    var before := Cited(f.trace[..n], d) + PrintedMatches(d("policy.search", NoArgs, n).output.matches[..i]);
    CitedInOrder(f.trace, d, n, i, f.citations[y]);
    SoonerInFront(Cited(f.trace, d), before, f.citations[x], f.citations[y]);
    SoonerFound(f.trace, d, n, i, f.citations[y], f.citations[x]);
  }

  lemma SoonerInFront(all: seq<string>, before: seq<string>, a: string, b: string)
    requires before + [b] <= all && a in all && b in all && FirstIndex(all, a) < FirstIndex(all, b)
    ensures a in before
  {
    assert all[|before|] == b;
    FirstIndexIs(all, b, |before|);
    FirstIndexIs(all, a, FirstIndex(all, a));
    assert before[FirstIndex(all, a)] == all[FirstIndex(all, a)];
  }

  ghost predicate ProposalFirst(shapes: seq<Shape>) {
    forall i :: 0 <= i < |shapes| && shapes[i].executed && GatedTier(shapes[i].tier) ==>
      && i > 0 && !shapes[i - 1].executed && shapes[i - 1].requiresApproval
      && shapes[i - 1].tool == shapes[i].tool && shapes[i - 1].tier == shapes[i].tier
  }

  lemma ProposalFirstConcat(a: seq<Shape>, b: seq<Shape>)
    requires ProposalFirst(a) && ProposalFirst(b)
    ensures ProposalFirst(a + b)
  {
    var c := a + b;
    forall i | 0 <= i < |c| && c[i].executed && GatedTier(c[i].tier)
      ensures i > 0 && !c[i - 1].executed && c[i - 1].requiresApproval
              && c[i - 1].tool == c[i].tool && c[i - 1].tier == c[i].tier
    {
      if i >= |a| {
        assert b[i - |a|] == c[i];
        assert b[i - |a| - 1] == c[i - 1];
      }
    }
  }

  lemma {:induction false} ExpandProposesFirst(reg: Registry, plan: seq<string>)
    ensures ProposalFirst(Expand(reg, plan))
    decreases |plan|
  {
    if plan != [] {
      ExpandProposesFirst(reg, plan[..|plan| - 1]);
      ProposalFirstConcat(Expand(reg, plan[..|plan| - 1]), ToolShapes(reg, plan[|plan| - 1]));
    }
  }

  lemma {:induction false} SoundProposesFirst(reg: Registry, f: RunState)
    requires Sound(reg, f)
    ensures ProposalFirst(Shapes(f.trace))
  {
    SoundTrace(reg, f);
    ExpandProposesFirst(reg, f.plan);
    ProposalFirstPrefix(Shapes(f.trace), Expand(reg, f.plan));
  }

  lemma ProposalFirstPrefix(a: seq<Shape>, b: seq<Shape>)
    requires a <= b && ProposalFirst(b)
    ensures ProposalFirst(a)
  {
  }

  /** No gated tool runs without its own proposal directly before it, and the
      gated tools that ran are as many as the approvals that were accepted. */
  lemma {:induction false} GatedOnlyAfterApproval(cfg: Config, q: Request, d: Dispatcher, decisions: seq<Decision>)
    requires NamedPlan(cfg, q)
    ensures Play(cfg, q, d, decisions).Some?
    ensures var f := Play(cfg, q, d, decisions).value;
            && ProposalFirst(Shapes(f.trace))
            && GatedRuns(f.trace) == AcceptedApprovals(cfg, q, d, decisions)
  {
    PlayEnded(cfg, q, d, decisions);
    SoundProposesFirst(cfg.registry, Play(cfg, q, d, decisions).value);
  }

  /** A run that is not waiting is finished: no later decision changes it. In
      particular the trace never grows after a rejection. */
  lemma {:induction false} FinishedStays(cfg: Config, q: Request, d: Dispatcher, decisions: seq<Decision>, later: seq<Decision>)
    requires Play(cfg, q, d, decisions).Some? && Play(cfg, q, d, decisions).value.status != ApprovalRequired
    ensures Play(cfg, q, d, decisions + later) == Play(cfg, q, d, decisions)
    decreases |later|
  {
    if later == [] {
      assert decisions + later == decisions;
    } else {
      var n := |later| - 1;
      assert (decisions + later)[..|decisions + later| - 1] == decisions + later[..n];
      FinishedStays(cfg, q, d, decisions, later[..n]);
    }
  }

  lemma {:induction false} RejectionIsFinal(cfg: Config, q: Request, d: Dispatcher, decisions: seq<Decision>, later: seq<Decision>)
    requires Play(cfg, q, d, decisions).Some?
    ensures var s, f := Play(cfg, q, d, decisions).value, Play(cfg, q, d, decisions + [Rejected] + later);
            s.status == ApprovalRequired ==> f.Some? && f.value.status == Cancelled && f.value.trace == s.trace
  {
    if Play(cfg, q, d, decisions).value.status == ApprovalRequired {
      assert (decisions + [Rejected])[..|decisions|] == decisions;
      FinishedStays(cfg, q, d, decisions + [Rejected], later);
    }
  }

  /** An invoke never passes a gate. */
  lemma InvokeStopsAtGate(cfg: Config, q: Request, d: Dispatcher)
    requires Invoke(cfg, q, d).Some?
    ensures var f := Invoke(cfg, q, d).value;
            && f.plan == Planner(cfg, q).value.plan
            && f.currentStep <= |f.plan|
            && forall i :: 0 <= i < f.currentStep ==> !Gated(cfg.registry, f.plan[i])
  {
    PlannerSound(cfg, q);
    LoopPassesNoGate(cfg.registry, Planner(cfg, q).value, d);
    ConcludeKeeps(SpecialistLoop(cfg.registry, Planner(cfg, q).value, d));
  }

  lemma ConcludeKeeps(s: RunState)
    ensures Conclude(s).plan == s.plan && Conclude(s).currentStep == s.currentStep && Conclude(s).trace == s.trace
  {
  }

  lemma {:induction false} ShapesLength(trace: seq<TraceEntry>)
    ensures |Shapes(trace)| == |trace|
    decreases |trace|
  {
    if trace != [] {
      ShapesLength(trace[..|trace| - 1]);
    }
  }
}
