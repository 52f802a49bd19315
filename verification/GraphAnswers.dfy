/** What a run is about, and what it records of the tools: its request and its
    plan stay the same, every executed entry holds the answer to its call,
    and the error says why it failed. */
module GraphAnswers {
  import opened Prelude
  import opened RiskRegistry
  import opened SkillPlanner
  import opened Nodes
  import opened RunGraph
  import opened GraphBudgets

  // ------------------------------------------------------- what a run is about

  /** The same run of the same plan. */
  ghost predicate SameRun(s: RunState, f: RunState) {
    f.runId == s.runId && f.vertical == s.vertical && f.skillName == s.skillName && f.plan == s.plan
  }

  lemma {:induction false} LoopKeepsRun(reg: Registry, s: RunState, d: Dispatcher)
    ensures SameRun(s, SpecialistLoop(reg, s, d)) && SpecialistLoop(reg, s, d).outcome == s.outcome
    decreases StepsLeft(s)
  {
    var next := Specialist(reg, s, d);
    if next.status == Running {
      LoopKeepsRun(reg, next, d);
    }
  }

  lemma ResumeKeepsRun(reg: Registry, s: RunState, decision: Decision, d: Dispatcher)
    requires Resume(reg, s, decision, d).Some?
    ensures SameRun(s, Resume(reg, s, decision, d).value)
  {
    if s.status == ApprovalRequired && decision == Approved {
      LoopKeepsRun(reg, ExecutePending(reg, s, d).value, d);
    }
  }

  /** The plan a skill name stands for: its manifest's, or the fallback. */
  ghost predicate PlansFor(cfg: Config, skill: string, plan: seq<string>) {
    if skill in cfg.skills && SkillPlan(cfg.registry, cfg.skills[skill]).Some? then
      plan == SkillPlan(cfg.registry, cfg.skills[skill]).value
    else plan == ["policy.search", "memory.search"]
  }

  lemma {:induction false} RunKeepsRequest(cfg: Config, q: Request, d: Dispatcher, decisions: seq<Decision>)
    requires Play(cfg, q, d, decisions).Some?
    ensures var f := Play(cfg, q, d, decisions).value;
            f.runId == q.runId && f.vertical == q.vertical && f.skillName == q.skillName && PlansFor(cfg, q.skillName, f.plan)
    decreases |decisions|
  {
    if decisions == [] {
      LoopKeepsRun(cfg.registry, Planner(cfg, q).value, d);
    } else {
      var n := |decisions| - 1;
      RunKeepsRequest(cfg, q, d, decisions[..n]);
      ResumeKeepsRun(cfg.registry, Play(cfg, q, d, decisions[..n]).value, decisions[n], d);
    }
  }

  // ------------------------------------------------------- what the tools said

  /** What a tool is called with: an invoice tool gets the outcome so far, the
      metrics and deployment tools get the service, any other nothing. */
  ghost predicate CalledWith(tool: string, args: ToolArgs, vertical: string, outcome: Outcome) {
    match args
    case InvoiceArgs(invoiceId) => tool == "erp.get_invoice" && invoiceId == outcome
    case ServiceArgs(service) =>
      && tool in {"analytics.get_campaign_metrics", "analytics.get_incident_metrics", "telemetry.get_deployments"}
      && (vertical == "saas" ==> service == "billing-api") && (vertical != "saas" ==> service == vertical)
    case NoArgs =>
      tool !in {"erp.get_invoice", "analytics.get_campaign_metrics", "analytics.get_incident_metrics", "telemetry.get_deployments"}
  }

  /** Entry n tells what its tool answered at step n; a proposal called none. */
  ghost predicate Tells(e: TraceEntry, d: Dispatcher, n: nat, vertical: string, outcome: Outcome) {
    if e.executed then
      exists args ::
        && CalledWith(e.toolName, args, vertical, outcome)
        && var answer := d(e.toolName, args, n);
           e.success == answer.success && e.latencyMs == answer.latencyMs && e.cost == answer.cost
    else e.success && e.latencyMs == 0 && e.cost == 0.0
  }

  /** The entries from n on were recorded by one graph call. */
  ghost predicate AllTell(trace: seq<TraceEntry>, d: Dispatcher, from: nat, vertical: string, outcome: Outcome) {
    forall n: nat :: from <= n < |trace| ==> Tells(trace[n], d, n, vertical, outcome)
  }

  lemma ArgsAreCalledWith(tool: string, s: RunState)
    ensures CalledWith(tool, BuildArgs(tool, s), s.vertical, s.outcome)
  {
    var a, b, c := "analytics.get_campaign_metrics", "analytics.get_incident_metrics", "telemetry.get_deployments";
    assert "erp.get_invoice"[0] == 'e' && a[0] == 'a' && b[0] == 'a' && c[0] == 't';
  }

  lemma SpecialistTells(reg: Registry, s: RunState, d: Dispatcher)
    requires s.stepCount == |s.trace|
    ensures var f := Specialist(reg, s, d);
            f.stepCount == |f.trace| && s.trace <= f.trace && AllTell(f.trace, d, |s.trace|, s.vertical, s.outcome)
  {
    if s.currentStep < |s.plan| {
      ArgsAreCalledWith(s.plan[s.currentStep], s);
    }
  }

  lemma {:induction false} LoopTells(reg: Registry, s: RunState, d: Dispatcher)
    requires s.stepCount == |s.trace|
    ensures var f := SpecialistLoop(reg, s, d);
            f.stepCount == |f.trace| && s.trace <= f.trace && AllTell(f.trace, d, |s.trace|, s.vertical, s.outcome)
    decreases StepsLeft(s)
  {
    SpecialistTells(reg, s, d);
    var next := Specialist(reg, s, d);
    if next.status == Running {
      LoopTells(reg, next, d);
      var f := SpecialistLoop(reg, s, d);
      forall n: nat | |s.trace| <= n < |f.trace| ensures Tells(f.trace[n], d, n, s.vertical, s.outcome) {
        if n < |next.trace| {
          assert f.trace[n] == next.trace[n];
        }
      }
    }
  }

  lemma InvokeTells(cfg: Config, q: Request, d: Dispatcher)
    requires Invoke(cfg, q, d).Some?
    ensures var f := Invoke(cfg, q, d).value;
            f.stepCount == |f.trace| && AllTell(f.trace, d, 0, q.vertical, NO_OUTCOME)
  {
    LoopTells(cfg.registry, Planner(cfg, q).value, d);
  }

  lemma ExecuteTells(reg: Registry, s: RunState, d: Dispatcher)
    requires s.stepCount == |s.trace| && ExecutePending(reg, s, d).Some?
    ensures var f := ExecutePending(reg, s, d).value;
            && f.stepCount == |f.trace| && s.trace <= f.trace
            && f.vertical == s.vertical && f.outcome == s.outcome
            && AllTell(f.trace, d, |s.trace|, s.vertical, s.outcome)
  {
    if s.pendingTool.Some? {
      ArgsAreCalledWith(s.pendingTool.value, s);
    }
  }

  lemma ResumeTells(reg: Registry, s: RunState, decision: Decision, d: Dispatcher)
    requires s.stepCount == |s.trace| && Resume(reg, s, decision, d).Some?
    ensures var f := Resume(reg, s, decision, d).value;
            f.stepCount == |f.trace| && s.trace <= f.trace && AllTell(f.trace, d, |s.trace|, s.vertical, s.outcome)
  {
    if s.status == ApprovalRequired && decision == Approved {
      ExecuteTells(reg, s, d);
      var executed := ExecutePending(reg, s, d).value;
      LoopTells(reg, executed, d);
      var f := Resume(reg, s, decision, d).value;
      forall n: nat | |s.trace| <= n < |f.trace| ensures Tells(f.trace[n], d, n, s.vertical, s.outcome) {
        if n < |executed.trace| {
          assert f.trace[n] == executed.trace[n];
        }
      }
    }
  }

  /** How long the trace is after the first k decisions. */
  function LengthAfter(cfg: Config, q: Request, d: Dispatcher, decisions: seq<Decision>, k: nat): nat
    requires k <= |decisions|
  {
    match Play(cfg, q, d, decisions[..k])
    case None => 0
    case Some(s) => |s.trace|
  }

  /** The graph call of the k-th decision, the invoke being the 0-th, recorded
      entry n. */
  predicate RecordedBy(cfg: Config, q: Request, d: Dispatcher, decisions: seq<Decision>, k: nat, n: nat)
    requires k <= |decisions|
  {
    (if k == 0 then 0 else LengthAfter(cfg, q, d, decisions, k - 1)) <= n < LengthAfter(cfg, q, d, decisions, k)
  }

  /** The outcome of the run when that call was made. */
  function OutcomeBefore(cfg: Config, q: Request, d: Dispatcher, decisions: seq<Decision>, k: nat): Outcome
    requires k <= |decisions|
  {
    if k == 0 then NO_OUTCOME
    else
      match Play(cfg, q, d, decisions[..k - 1])
      case None => NO_OUTCOME
      case Some(s) => s.outcome
  }

  /** Entry n, recorded by that call, tells what its tool answered. */
  ghost predicate CallTells(cfg: Config, q: Request, d: Dispatcher, decisions: seq<Decision>, k: nat, e: TraceEntry, n: nat) {
    && k <= |decisions| && RecordedBy(cfg, q, d, decisions, k, n)
    && Tells(e, d, n, q.vertical, OutcomeBefore(cfg, q, d, decisions, k))
  }

  ghost predicate SomeCallTells(cfg: Config, q: Request, d: Dispatcher, decisions: seq<Decision>, e: TraceEntry, n: nat) {
    exists k: nat :: CallTells(cfg, q, d, decisions, k, e, n)
  }

  lemma {:induction false} RunCounts(cfg: Config, q: Request, d: Dispatcher, decisions: seq<Decision>)
    requires Play(cfg, q, d, decisions).Some?
    ensures Play(cfg, q, d, decisions).value.stepCount == |Play(cfg, q, d, decisions).value.trace|
    decreases |decisions|
  {
    if decisions == [] {
      InvokeTells(cfg, q, d);
    } else {
      var n := |decisions| - 1;
      RunCounts(cfg, q, d, decisions[..n]);
      ResumeTells(cfg.registry, Play(cfg, q, d, decisions[..n]).value, decisions[n], d);
    }
  }

  /** What the last decision added. */
  lemma LastCallTells(cfg: Config, q: Request, d: Dispatcher, decisions: seq<Decision>)
    requires decisions != [] && Play(cfg, q, d, decisions).Some?
    requires var s := Play(cfg, q, d, decisions[..|decisions| - 1]).value; s.stepCount == |s.trace|
    ensures var s, f := Play(cfg, q, d, decisions[..|decisions| - 1]).value, Play(cfg, q, d, decisions).value;
            && f.stepCount == |f.trace| && s.trace <= f.trace
            && forall n: nat :: |s.trace| <= n < |f.trace| ==> CallTells(cfg, q, d, decisions, |decisions|, f.trace[n], n)
  {
    var last := |decisions|;
    assert decisions[..last] == decisions;
    RunKeepsRequest(cfg, q, d, decisions[..last - 1]);
    ResumeTells(cfg.registry, Play(cfg, q, d, decisions[..last - 1]).value, decisions[last - 1], d);
  }

  lemma {:induction false} EntryTells(cfg: Config, q: Request, d: Dispatcher, decisions: seq<Decision>, n: nat) returns (k: nat)
    requires Play(cfg, q, d, decisions).Some? && n < |Play(cfg, q, d, decisions).value.trace|
    ensures CallTells(cfg, q, d, decisions, k, Play(cfg, q, d, decisions).value.trace[n], n)
    decreases |decisions|
  {
    k := |decisions|;
    if decisions == [] {
      InvokeTells(cfg, q, d);
    } else {
      var front := decisions[..|decisions| - 1];
      RunCounts(cfg, q, d, front);
      LastCallTells(cfg, q, d, decisions);
      if n < |Play(cfg, q, d, front).value.trace| {
        k := EntryTells(cfg, q, d, front, n);
        EarlierCall(cfg, q, d, decisions, k, n);
      }
    }
  }

  /** In any run, after any decisions: each entry was recorded by one of its
      graph calls, and if it says executed it holds the success, latency and
      cost that its tool answered at that step, called with what the run's
      vertical and its outcome before that graph call make of it. */
  lemma {:induction false} RunTells(cfg: Config, q: Request, d: Dispatcher, decisions: seq<Decision>)
    requires Play(cfg, q, d, decisions).Some?
    ensures var trace := Play(cfg, q, d, decisions).value.trace;
            forall n: nat :: n < |trace| ==> SomeCallTells(cfg, q, d, decisions, trace[n], n)
  {
    var trace := Play(cfg, q, d, decisions).value.trace;
    forall n: nat | n < |trace| ensures SomeCallTells(cfg, q, d, decisions, trace[n], n) {
      var k := EntryTells(cfg, q, d, decisions, n);
    }
  }

  lemma EarlierCall(cfg: Config, q: Request, d: Dispatcher, decisions: seq<Decision>, k: nat, n: nat)
    requires decisions != [] && k < |decisions|
    ensures var front := decisions[..|decisions| - 1];
            && OutcomeBefore(cfg, q, d, decisions, k) == OutcomeBefore(cfg, q, d, front, k)
            && (RecordedBy(cfg, q, d, decisions, k, n) <==> RecordedBy(cfg, q, d, front, k, n))
  {
    assert decisions[..|decisions| - 1][..k] == decisions[..k];
    if k > 0 {
      assert decisions[..|decisions| - 1][..k - 1] == decisions[..k - 1];
    }
  }

  // ------------------------------------------------------------ why it failed

  /** The planner's own complaint: no plan could be made for the skill. */
  ghost predicate PlannerComplains(cfg: Config, skill: string, error: Option<RunError>) {
    if skill in cfg.skills && SkillPlan(cfg.registry, cfg.skills[skill]).Some? then error == None
    else error == Some(UnknownSkill(skill))
  }

  /** A failed run's error is that of the check it failed; any other run's is
      the planner's. */
  ghost predicate ErrorTells(cfg: Config, s: RunState) {
    if s.status != Failed then PlannerComplains(cfg, s.skillName, s.error)
    else if s.currentStep >= |s.plan| then s.error == Some(NoPolicyCited)
    else if s.stepCount >= MAX_STEPS || s.cost >= MAX_COST_USD then s.error == Some(BudgetExceeded)
    else s.error == Some(UnknownTool(s.plan[s.currentStep]))
  }

  lemma {:induction false} LoopErrs(cfg: Config, s: RunState, d: Dispatcher)
    requires s.status == Running && ErrorTells(cfg, s)
    ensures var f := SpecialistLoop(cfg.registry, s, d);
            && f.status in {ApprovalRequired, Completed, Failed}
            && (f.status == Completed ==> f.currentStep >= |f.plan|)
            && (f.status == Failed ==> f.currentStep < |f.plan|)
            && ErrorTells(cfg, f)
    decreases StepsLeft(s)
  {
    var next := Specialist(cfg.registry, s, d);
    if next.status == Running {
      LoopErrs(cfg, next, d);
    }
  }

  lemma ConcludeErrs(cfg: Config, s: RunState)
    requires s.status in {ApprovalRequired, Completed, Failed} && ErrorTells(cfg, s)
    requires s.status == Completed ==> s.currentStep >= |s.plan|
    ensures ErrorTells(cfg, Conclude(s)) && Conclude(s).status in {ApprovalRequired, Completed, Failed}
  {
  }

  /** In any run, after any decisions, the error is the reason. */
  lemma {:induction false} RunErrs(cfg: Config, q: Request, d: Dispatcher, decisions: seq<Decision>)
    requires Planner(cfg, q).Some?
    ensures Play(cfg, q, d, decisions).Some? && ErrorTells(cfg, Play(cfg, q, d, decisions).value)
    decreases |decisions|
  {
    var reg := cfg.registry;
    RunWithinBudget(cfg, q, d, decisions);
    if decisions == [] {
      LoopErrs(cfg, Planner(cfg, q).value, d);
      ConcludeErrs(cfg, SpecialistLoop(reg, Planner(cfg, q).value, d));
    } else {
      var n := |decisions| - 1;
      RunErrs(cfg, q, d, decisions[..n]);
      ResumeErrs(cfg, Play(cfg, q, d, decisions[..n]).value, decisions[n], d);
    }
  }

  lemma ResumeErrs(cfg: Config, s: RunState, decision: Decision, d: Dispatcher)
    requires ErrorTells(cfg, s) && Resume(cfg.registry, s, decision, d).Some?
    ensures ErrorTells(cfg, Resume(cfg.registry, s, decision, d).value)
  {
    if s.status == ApprovalRequired && decision == Approved {
      var executed := ExecutePending(cfg.registry, s, d).value;
      if executed.status == Running {
        LoopErrs(cfg, executed, d);
      } else {
        WaitingLoopErrs(cfg, executed, d);
      }
      ConcludeErrs(cfg, SpecialistLoop(cfg.registry, executed, d));
    }
  }

  /** An unnamed pending tool leaves the run waiting when the loop starts. */
  lemma WaitingLoopErrs(cfg: Config, s: RunState, d: Dispatcher)
    requires s.status == ApprovalRequired && ErrorTells(cfg, s)
    ensures var f := SpecialistLoop(cfg.registry, s, d);
            && f.status in {ApprovalRequired, Completed, Failed}
            && (f.status == Completed ==> f.currentStep >= |f.plan|)
            && ErrorTells(cfg, f)
  {
    var next := Specialist(cfg.registry, s, d);
    if next.status == Running {
      LoopErrs(cfg, next, d);
    }
  }
}
