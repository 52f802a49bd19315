/** The budgets: how far any run can overshoot them, what becomes of a run
    whose gates are approved, and what a run can afford. */
module GraphBudgets {
  import opened Prelude
  import opened RiskRegistry
  import opened SkillPlanner
  import opened Nodes
  import opened RunGraph
  import opened GraphRuns

  function LastCost(trace: seq<TraceEntry>): real {
    if trace == [] then 0.0 else trace[|trace| - 1].cost
  }

  /** The totals are those of the trace, and before its last entry, or while
      it waits at a proposal, the run was within budget. */
  ghost predicate WithinBudget(reg: Registry, s: RunState) {
    && s.stepCount == |s.trace| <= MAX_STEPS + 1
    && s.cost == TraceCost(s.trace) < MAX_COST_USD + LastCost(s.trace)
    && (s.status == ApprovalRequired ==>
          s.stepCount <= MAX_STEPS && s.cost < MAX_COST_USD && WaitsAtProposal(reg, s))
  }

  lemma SpecialistWithin(reg: Registry, s: RunState, d: Dispatcher)
    requires WithinBudget(reg, s)
    ensures WithinBudget(reg, Specialist(reg, s, d))
  {
    var f := Specialist(reg, s, d);
    if f.trace != s.trace {
      assert f.trace[..|f.trace| - 1] == s.trace;
    }
  }

  lemma {:induction false} LoopWithin(reg: Registry, s: RunState, d: Dispatcher)
    requires WithinBudget(reg, s)
    ensures WithinBudget(reg, SpecialistLoop(reg, s, d))
    decreases StepsLeft(s)
  {
    SpecialistWithin(reg, s, d);
    var next := Specialist(reg, s, d);
    if next.status == Running {
      LoopWithin(reg, next, d);
    }
  }

  lemma ConcludeWithin(reg: Registry, s: RunState)
    requires WithinBudget(reg, s)
    ensures WithinBudget(reg, Conclude(s))
  {
  }

  lemma ResumeWithin(reg: Registry, s: RunState, decision: Decision, d: Dispatcher)
    requires WithinBudget(reg, s)
    ensures Resume(reg, s, decision, d).Some? && WithinBudget(reg, Resume(reg, s, decision, d).value)
  {
    if s.status == ApprovalRequired && decision == Approved {
      var executed := ExecutePending(reg, s, d).value;
      if executed.trace != s.trace {
        assert executed.trace[..|executed.trace| - 1] == s.trace;
      }
      LoopWithin(reg, executed, d);
      ConcludeWithin(reg, SpecialistLoop(reg, executed, d));
    }
  }

  /** Over any number of resumes, for any plan: at most one step over the step
      limit, and without its last dispatch less than the cost limit, although
      the approved tool runs without a budget check. */
  lemma {:induction false} RunWithinBudget(cfg: Config, q: Request, d: Dispatcher, decisions: seq<Decision>)
    requires Planner(cfg, q).Some?
    ensures Play(cfg, q, d, decisions).Some?
    ensures WithinBudget(cfg.registry, Play(cfg, q, d, decisions).value)
    ensures var f := Play(cfg, q, d, decisions).value;
            f.stepCount <= 101 && f.cost < 5.0 + LastCost(f.trace)
    decreases |decisions|
  {
    if decisions == [] {
      LoopWithin(cfg.registry, Planner(cfg, q).value, d);
      ConcludeWithin(cfg.registry, SpecialistLoop(cfg.registry, Planner(cfg, q).value, d));
    } else {
      var n := |decisions| - 1;
      RunWithinBudget(cfg, q, d, decisions[..n]);
      ResumeWithin(cfg.registry, Play(cfg, q, d, decisions[..n]).value, decisions[n], d);
    }
  }

  // ----------------------------------------------------------------- gates

  /** How many tools of the plan need a human. */
  function Gates(reg: Registry, plan: seq<string>): nat {
    if plan == [] then 0
    else Gates(reg, plan[..|plan| - 1]) + if Gated(reg, plan[|plan| - 1]) then 1 else 0
  }

  /** No gate among plan[k..n]. */
  lemma {:induction false} GatesUngated(reg: Registry, plan: seq<string>, k: nat, n: nat)
    requires k <= n <= |plan|
    requires forall i :: k <= i < n ==> !Gated(reg, plan[i])
    ensures Gates(reg, plan[..n]) == Gates(reg, plan[..k])
    decreases n
  {
    if k < n {
      assert plan[..n][..n - 1] == plan[..n - 1];
      GatesUngated(reg, plan, k, n - 1);
    }
  }

  lemma {:induction false} GatesGrow(reg: Registry, plan: seq<string>, k: nat, n: nat)
    requires k <= n <= |plan|
    ensures Gates(reg, plan[..k]) + (if k < n && Gated(reg, plan[k]) then 1 else 0) <= Gates(reg, plan[..n])
    ensures n == k + 1 ==> Gates(reg, plan[..n]) == Gates(reg, plan[..k]) + if Gated(reg, plan[k]) then 1 else 0
    decreases n
  {
    if k < n {
      assert plan[..n][..n - 1] == plan[..n - 1];
      GatesGrow(reg, plan, k, n - 1);
    }
  }

  function Approvals(n: nat): seq<Decision> {
    seq(n, _ => Approved)
  }

  /** The budget ran out in front of a tool. */
  ghost predicate OutOfBudget(f: RunState) {
    f.status == Failed && f.currentStep < |f.plan| && OverBudget(f)
  }

  /** Exactly k gates are behind the run: it waits at the next one, or with no
      gate left it is over and its trace is the whole expanded plan. */
  ghost predicate PassedGates(reg: Registry, f: RunState, k: nat) {
    && f.currentStep <= |f.plan| && Gates(reg, f.plan[..f.currentStep]) == k
    && (f.status == ApprovalRequired <==> k < Gates(reg, f.plan))
    && (k == Gates(reg, f.plan) ==>
          && f.status == (if f.citations == [] then Failed else Completed)
          && Shapes(f.trace) == Expand(reg, f.plan))
  }

  /** There is nothing else a graph call on known tools can come to. */
  lemma PassedOrOutOfBudget(reg: Registry, f: RunState, k: nat)
    requires Ended(reg, f) && f.status != Cancelled
    requires forall tool :: tool in f.plan ==> tool in reg
    requires Gates(reg, f.plan[..f.currentStep]) == k
    ensures OutOfBudget(f) || PassedGates(reg, f, k)
  {
    assert f.plan[..|f.plan|] == f.plan;
    if f.currentStep < |f.plan| {
      assert f.plan[f.currentStep] in f.plan;
    } else {
      SoundTrace(reg, f);
    }
    GatesGrow(reg, f.plan, f.currentStep, |f.plan|);
  }

  /** Before the first decision no gate has been passed. */
  lemma InvokePassesNone(cfg: Config, q: Request, d: Dispatcher)
    requires Planner(cfg, q).Some?
    requires forall tool :: tool in Planner(cfg, q).value.plan ==> tool in cfg.registry
    ensures Invoke(cfg, q, d).Some?
    ensures var f := Invoke(cfg, q, d).value;
            f.plan == Planner(cfg, q).value.plan && (OutOfBudget(f) || PassedGates(cfg.registry, f, 0))
  {
    InvokeStopsAtGate(cfg, q, d);
    InvokeEnded(cfg, q, d);
    var f := Invoke(cfg, q, d).value;
    GatesUngated(cfg.registry, f.plan, 0, f.currentStep);
    PassedOrOutOfBudget(cfg.registry, f, 0);
  }

  /** An approval of a waiting run passes one gate. */
  lemma ApprovalPassesGate(reg: Registry, s: RunState, d: Dispatcher)
    requires Ended(reg, s) && s.status == ApprovalRequired && s.pendingTool != Some("")
    ensures Resume(reg, s, Approved, d).Some?
    ensures var f := Resume(reg, s, Approved, d).value;
            && f.plan == s.plan && f.currentStep <= |f.plan| && f.status != Cancelled
            && Gates(reg, f.plan[..f.currentStep]) == Gates(reg, s.plan[..s.currentStep]) + 1
  {
    ResumeEnded(reg, s, Approved, d);
    var f := Resume(reg, s, Approved, d).value;
    GatesGrow(reg, s.plan, s.currentStep, s.currentStep + 1);
    GatesUngated(reg, s.plan, s.currentStep + 1, f.currentStep);
  }

  /** The refinement, for any tools and any costs: after k approvals a run has
      either met its budget or passed exactly k gates; then it waits while
      one is left, and afterwards its trace is the whole expanded plan. */
  lemma {:induction false} ApprovedRunExpandsPlan(cfg: Config, q: Request, d: Dispatcher, k: nat)
    requires NamedPlan(cfg, q) && k <= Gates(cfg.registry, Planner(cfg, q).value.plan)
    requires forall tool :: tool in Planner(cfg, q).value.plan ==> tool in cfg.registry
    ensures Play(cfg, q, d, Approvals(k)).Some?
    ensures var f := Play(cfg, q, d, Approvals(k)).value;
            f.plan == Planner(cfg, q).value.plan && (OutOfBudget(f) || PassedGates(cfg.registry, f, k))
    decreases k
  {
    if k == 0 {
      assert Approvals(0) == [];
      InvokePassesNone(cfg, q, d);
    } else {
      assert Approvals(k)[..k - 1] == Approvals(k - 1);
      ApprovedRunExpandsPlan(cfg, q, d, k - 1);
      var s := Play(cfg, q, d, Approvals(k - 1)).value;
      if !OutOfBudget(s) {
        ApprovalAdvances(cfg, q, d, k);
      }
    }
  }

  lemma ApprovalAdvances(cfg: Config, q: Request, d: Dispatcher, k: nat)
    requires NamedPlan(cfg, q) && 0 < k <= Gates(cfg.registry, Planner(cfg, q).value.plan)
    requires forall tool :: tool in Planner(cfg, q).value.plan ==> tool in cfg.registry
    requires Play(cfg, q, d, Approvals(k - 1)).Some?
    requires PassedGates(cfg.registry, Play(cfg, q, d, Approvals(k - 1)).value, k - 1)
    ensures Play(cfg, q, d, Approvals(k)).Some?
    ensures var f := Play(cfg, q, d, Approvals(k)).value;
            f.plan == Planner(cfg, q).value.plan && (OutOfBudget(f) || PassedGates(cfg.registry, f, k))
  {
    assert Approvals(k)[..k - 1] == Approvals(k - 1);
    PlayEnded(cfg, q, d, Approvals(k - 1));
    PlayEnded(cfg, q, d, Approvals(k));
    var s := Play(cfg, q, d, Approvals(k - 1)).value;
    PendingIsNamed(cfg.registry, s);
    ApprovalPassesGate(cfg.registry, s, d);
    PassedOrOutOfBudget(cfg.registry, Play(cfg, q, d, Approvals(k)).value, k);
  }

  // ------------------------------------------------- what a run can afford

  /** The plan's tools, each at its price. */
  function PriceOf(plan: seq<string>, price: string -> real): real {
    if plan == [] then 0.0 else PriceOf(plan[..|plan| - 1], price) + price(plan[|plan| - 1])
  }

  /** No answer of a planned tool exceeds its price. */
  ghost predicate Priced(d: Dispatcher, plan: seq<string>, price: string -> real) {
    forall tool, args, n :: tool in plan ==> d(tool, args, n).cost <= price(tool)
  }

  lemma {:induction false} PriceGrows(d: Dispatcher, plan: seq<string>, price: string -> real, k: nat, n: nat)
    requires Priced(d, plan, price) && k <= n <= |plan|
    ensures PriceOf(plan[..k], price) <= PriceOf(plan[..n], price)
    decreases n
  {
    if k < n {
      assert plan[..n][..n - 1] == plan[..n - 1];
      assert plan[n - 1] in plan && 0.0 <= d(plan[n - 1], NoArgs, 0).cost <= price(plan[n - 1]);
      PriceGrows(d, plan, price, k, n - 1);
    }
  }

  /** The spending so far is covered by the prices of the tools behind. */
  ghost predicate Covered(s: RunState, price: string -> real) {
    s.currentStep <= |s.plan| && s.cost <= PriceOf(s.plan[..s.currentStep], price)
  }

  lemma SpecialistSpends(reg: Registry, s: RunState, d: Dispatcher, price: string -> real)
    requires Priced(d, s.plan, price) && Covered(s, price)
    ensures var f := Specialist(reg, s, d); f.plan == s.plan && Covered(f, price)
  {
    if s.currentStep < |s.plan| {
      assert s.plan[..s.currentStep + 1][..s.currentStep] == s.plan[..s.currentStep];
    }
  }

  lemma {:induction false} LoopSpends(reg: Registry, s: RunState, d: Dispatcher, price: string -> real)
    requires Priced(d, s.plan, price) && Covered(s, price)
    ensures var f := SpecialistLoop(reg, s, d); f.plan == s.plan && Covered(f, price)
    decreases StepsLeft(s)
  {
    SpecialistSpends(reg, s, d, price);
    var next := Specialist(reg, s, d);
    if next.status == Running {
      LoopSpends(reg, next, d, price);
    }
  }

  lemma ResumeSpends(reg: Registry, s: RunState, decision: Decision, d: Dispatcher, price: string -> real)
    requires Ended(reg, s) && s.pendingTool != Some("")
    requires Priced(d, s.plan, price) && Covered(s, price)
    ensures var f := Resume(reg, s, decision, d); f.Some? ==> f.value.plan == s.plan && Covered(f.value, price)
  {
    if s.status == ApprovalRequired && decision == Approved {
      var executed := ExecutePending(reg, s, d).value;
      assert s.plan[..s.currentStep + 1][..s.currentStep] == s.plan[..s.currentStep];
      assert Covered(executed, price);
      LoopSpends(reg, executed, d, price);
    }
  }

  lemma {:induction false} RunSpends(cfg: Config, q: Request, d: Dispatcher, decisions: seq<Decision>, price: string -> real)
    requires NamedPlan(cfg, q) && Priced(d, Planner(cfg, q).value.plan, price)
    ensures Play(cfg, q, d, decisions).Some? && Covered(Play(cfg, q, d, decisions).value, price)
    decreases |decisions|
  {
    if decisions == [] {
      LoopSpends(cfg.registry, Planner(cfg, q).value, d, price);
    } else {
      var n := |decisions| - 1;
      RunSpends(cfg, q, d, decisions[..n], price);
      PlayEnded(cfg, q, d, decisions[..n]);
      var s := Play(cfg, q, d, decisions[..n]).value;
      PendingIsNamed(cfg.registry, s);
      ResumeEnded(cfg.registry, s, decisions[n], d);
      ResumeSpends(cfg.registry, s, decisions[n], d, price);
    }
  }

  /** Known tools, of which all but the last cost less than the limit, and no
      more recorded steps than allowed, not counting an approved last one. */
  ghost predicate Affordable(reg: Registry, plan: seq<string>, price: string -> real) {
    && (forall tool :: tool in plan ==> tool in reg)
    && |Expand(reg, plan)| <= MAX_STEPS + (if EndsGated(reg, plan) then 1 else 0)
    && (plan != [] ==> PriceOf(plan[..|plan| - 1], price) < MAX_COST_USD)
  }

  /** In front of any tool of an affordable plan there is a step left. */
  lemma StepsRemain(reg: Registry, plan: seq<string>, price: string -> real, k: nat)
    requires Affordable(reg, plan, price) && k < |plan|
    ensures |Expand(reg, plan[..k])| < MAX_STEPS
  {
    var n := |plan| - 1;
    assert plan[k] in plan && plan[n] in plan;
    assert plan[..n + 1] == plan;
    ExpandSnoc(reg, plan, n);
    assert |ToolShapes(reg, plan[n])| == if EndsGated(reg, plan) then 2 else 1;
    if k < n {
      ExpandGrows(reg, plan, k, n);
    }
  }

  lemma ExpandGrows(reg: Registry, plan: seq<string>, k: nat, n: nat)
    requires k < n <= |plan| && plan[k] in reg
    ensures |Expand(reg, plan[..k])| < |Expand(reg, plan[..n])|
  {
    assert plan[..n][..k] == plan[..k];
    ExpandPrefix(reg, plan[..n], k);
  }

  /** An affordable run never meets its budget: it fails only for want of a
      citation, at the very end. */
  lemma {:induction false} AffordableNeverOverBudget(cfg: Config, q: Request, d: Dispatcher, decisions: seq<Decision>,
                                                    price: string -> real)
    requires NamedPlan(cfg, q) && Priced(d, Planner(cfg, q).value.plan, price)
    requires Affordable(cfg.registry, Planner(cfg, q).value.plan, price)
    ensures Play(cfg, q, d, decisions).Some?
    ensures var f := Play(cfg, q, d, decisions).value;
            f.status in {Completed, Failed} ==> f.currentStep == |f.plan|
  {
    PlayEnded(cfg, q, d, decisions);
    RunSpends(cfg, q, d, decisions, price);
    var f := Play(cfg, q, d, decisions).value;
    if f.status == Failed && f.currentStep < |f.plan| {
      AffordableWithinBudget(cfg.registry, f, d, price);
    }
  }

  lemma AffordableWithinBudget(reg: Registry, f: RunState, d: Dispatcher, price: string -> real)
    requires Sound(reg, f) && !AtGate(f) && f.currentStep < |f.plan|
    requires Priced(d, f.plan, price) && Affordable(reg, f.plan, price) && Covered(f, price)
    ensures !FailureExplained(reg, f)
  {
    var k := f.currentStep;
    assert f.plan[k] in f.plan;
    StepsRemain(reg, f.plan, price, k);
    ShapesLength(f.trace);
    PriceGrows(d, f.plan, price, k, |f.plan| - 1);
  }

  /** So an affordable run follows its approvals to the end of its plan. */
  lemma {:induction false} AffordableRunExpandsPlan(cfg: Config, q: Request, d: Dispatcher, k: nat, price: string -> real)
    requires NamedPlan(cfg, q) && Priced(d, Planner(cfg, q).value.plan, price)
    requires Affordable(cfg.registry, Planner(cfg, q).value.plan, price)
    requires k <= Gates(cfg.registry, Planner(cfg, q).value.plan)
    ensures Play(cfg, q, d, Approvals(k)).Some?
    ensures PassedGates(cfg.registry, Play(cfg, q, d, Approvals(k)).value, k)
  {
    ApprovedRunExpandsPlan(cfg, q, d, k);
    AffordableNeverOverBudget(cfg, q, d, Approvals(k), price);
  }

  /** The step bound is met whenever an affordable plan expands to it. */
  lemma {:induction false} StepBoundIsTight(cfg: Config, q: Request, d: Dispatcher, price: string -> real)
    requires NamedPlan(cfg, q) && Priced(d, Planner(cfg, q).value.plan, price)
    requires Affordable(cfg.registry, Planner(cfg, q).value.plan, price)
    requires |Expand(cfg.registry, Planner(cfg, q).value.plan)| == MAX_STEPS + 1
    ensures var k := Gates(cfg.registry, Planner(cfg, q).value.plan);
            Play(cfg, q, d, Approvals(k)).Some? && Play(cfg, q, d, Approvals(k)).value.stepCount == MAX_STEPS + 1
  {
    var k := Gates(cfg.registry, Planner(cfg, q).value.plan);
    AffordableRunExpandsPlan(cfg, q, d, k, price);
    ApprovedRunExpandsPlan(cfg, q, d, k);
    PlayEnded(cfg, q, d, Approvals(k));
    ShapesLength(Play(cfg, q, d, Approvals(k)).value.trace);
  }

  // --------------------------------------------------- plans with one gate

  /** A plan whose only gate is last waits at most once: after an accepted
      approval the run is over, completed or failed, with the plan executed. */
  lemma {:induction false} WaitsAtMostOnce(cfg: Config, q: Request, d: Dispatcher, decisions: seq<Decision>)
    requires NamedPlan(cfg, q)
    requires GateOnlyLast(cfg.registry, Planner(cfg, q).value.plan)
    ensures Play(cfg, q, d, decisions).Some?
    ensures var f := Play(cfg, q, d, decisions + [Approved]);
            Play(cfg, q, d, decisions).value.status == ApprovalRequired ==>
              && f.Some?
              && f.value.status in {Completed, Failed}
              && f.value.currentStep == |f.value.plan|
              && Shapes(f.value.trace) == Expand(cfg.registry, f.value.plan)
  {
    PlayEnded(cfg, q, d, decisions);
    var s := Play(cfg, q, d, decisions).value;
    if s.status == ApprovalRequired {
      PendingIsNamed(cfg.registry, s);
      assert (decisions + [Approved])[..|decisions|] == decisions;
      PlayEnded(cfg, q, d, decisions + [Approved]);
      ResumeEnded(cfg.registry, s, Approved, d);
      var f := Play(cfg, q, d, decisions + [Approved]).value;
      assert s.currentStep == |s.plan| - 1;
      assert f.plan[..|f.plan|] == f.plan;
    }
  }

  /** Every plan made from a manifest is such a plan. */
  lemma SkillRunsWaitAtMostOnce(cfg: Config, q: Request)
    requires q.skillName in cfg.skills && SkillPlan(cfg.registry, cfg.skills[q.skillName]).Some?
    ensures Planner(cfg, q).Some? && GateOnlyLast(cfg.registry, Planner(cfg, q).value.plan)
    ensures Distinct(Planner(cfg, q).value.plan)
    ensures forall tool :: tool in Planner(cfg, q).value.plan ==> tool in cfg.registry
  {
    PlanShape(cfg.registry, cfg.skills[q.skillName]);
  }

  // ---------------------------------------------------- gates with no name

  /** A gated tool with the empty name is proposed but can never run: every
      approval only records another proposal, until the budget fails the run. */
  lemma UnnamedToolNeverRuns(reg: Registry, s: RunState, d: Dispatcher)
    requires s.status == ApprovalRequired && s.pendingTool == Some("")
    requires s.currentStep < |s.plan| && s.plan[s.currentStep] == "" && Gated(reg, "")
    ensures Resume(reg, s, Approved, d).Some?
    ensures var f := Resume(reg, s, Approved, d).value;
            if OverBudget(s) then f.status == Failed && f.trace == s.trace
            else f.status == ApprovalRequired && f.trace == s.trace + [Proposal("", reg[""])] && f.pendingTool == Some("")
  {
  }

  /** An accepted approval runs the pending gated tool exactly when that tool
      has a name. */
  lemma ApprovalRunsPendingIff(reg: Registry, s: RunState, d: Dispatcher)
    requires Ended(reg, s) && s.status == ApprovalRequired
    ensures Resume(reg, s, Approved, d).Some?
    ensures GatedRuns(Resume(reg, s, Approved, d).value.trace) == GatedRuns(s.trace) + 1 <==> s.pendingTool != Some("")
  {
    if s.pendingTool != Some("") {
      ResumeEnded(reg, s, Approved, d);
    } else {
      UnnamedToolNeverRuns(reg, s, d);
      TraceSnoc(s.trace, Proposal("", reg[""]), d);
    }
  }

  /** A request can come to wait on such a tool: its manifest requires it. */
  lemma UnnamedToolCanWait(d: Dispatcher)
    ensures exists cfg: Config, q: Request :: Invoke(cfg, q, d).Some?
              && Invoke(cfg, q, d).value.status == ApprovalRequired && Invoke(cfg, q, d).value.pendingTool == Some("")
  {
    var reg: Registry := map["" := ToolPolicy(Financial, None)];
    var cfg := Config(reg, map["skill" := Manifest([""], [])]);
    var q := Request("run", "finance", "skill");
    UnnamedPlan(reg);
    var s := Planner(cfg, q).value;
    assert SpecialistLoop(reg, s, d) == Specialist(reg, s, d);
    assert Invoke(cfg, q, d).value.pendingTool == Some("");
  }

  lemma UnnamedPlan(reg: Registry)
    requires Gated(reg, "")
    ensures SkillPlan(reg, Manifest([""], [])) == Some([""])
  {
    assert Filter([""], NotControl) == [""] + Filter([""][1..], NotControl);
    assert ThroughFirstGate(reg, [""]) == Some([""]);
    assert ContextTools(reg, []) == Some([]);
    assert WithContext(reg, [""], []) == [] + [] + [""];
    assert FirstOccurrences([""]) == AppendNew([""], [""][1..]);
  }

  // ------------------------------------------------- the fallback at work

  /** The request is planned without a skill's manifest. */
  ghost predicate FallsBack(cfg: Config, q: Request) {
    Planner(cfg, q).Some? && Planner(cfg, q).value.error.Some?
  }

  /** A request that falls back can come to wait for a human exactly when one
      of the two fallback tools is gated; then a free dispatch makes it wait. */
  lemma FallbackWaitsIff(cfg: Config, q: Request)
    requires FallsBack(cfg, q)
    ensures (exists d: Dispatcher :: Invoke(cfg, q, d).Some? && Invoke(cfg, q, d).value.status == ApprovalRequired) <==>
              Gated(cfg.registry, "policy.search") || Gated(cfg.registry, "memory.search")
  {
    var reg := cfg.registry;
    var plan := Planner(cfg, q).value.plan;
    assert plan == FALLBACK_PLAN;
    assert plan[0] == "policy.search" && plan[1] == "memory.search";
    forall d: Dispatcher | Invoke(cfg, q, d).Some? && Invoke(cfg, q, d).value.status == ApprovalRequired
      ensures Gated(reg, "policy.search") || Gated(reg, "memory.search")
    {
      InvokeEnded(cfg, q, d);
    }
    if Gated(reg, "policy.search") || Gated(reg, "memory.search") {
      FallbackGateCount(reg);
      InvokePassesNone(cfg, q, FREE);
      InvokeEnded(cfg, q, FREE);
      FreeInvokeCostsNothing(cfg, q);
      FallbackIsShort(reg, Invoke(cfg, q, FREE).value);
      assert Invoke(cfg, q, FREE).value.status == ApprovalRequired;
    }
  }

  /** Every tool answers at once and costs nothing. */
  const FREE: Dispatcher := (tool, args, n) => ToolResult(true, OtherOutput, 0, 0.0)

  lemma FallbackGateCount(reg: Registry)
    ensures Gates(reg, FALLBACK_PLAN) ==
              (if Gated(reg, "policy.search") then 1 else 0) + if Gated(reg, "memory.search") then 1 else 0
  {
    var plan := FALLBACK_PLAN;
    assert plan[..1] == ["policy.search"] && plan[1] == "memory.search";
    assert ["policy.search"][..0] == [] && Gates(reg, []) == 0;
    assert Gates(reg, plan[..1]) == if Gated(reg, "policy.search") then 1 else 0;
  }

  lemma FreeInvokeCostsNothing(cfg: Config, q: Request)
    requires Invoke(cfg, q, FREE).Some?
    ensures Invoke(cfg, q, FREE).value.cost == 0.0
  {
    FreeLoopCostsNothing(cfg.registry, Planner(cfg, q).value);
  }

  lemma {:induction false} FreeLoopCostsNothing(reg: Registry, s: RunState)
    requires s.cost == 0.0
    ensures SpecialistLoop(reg, s, FREE).cost == 0.0
    decreases StepsLeft(s)
  {
    var next := Specialist(reg, s, FREE);
    if next.status == Running {
      FreeLoopCostsNothing(reg, next);
    }
  }

  lemma FallbackIsShort(reg: Registry, f: RunState)
    requires Ended(reg, f) && f.plan == FALLBACK_PLAN && f.cost == 0.0
    ensures !OutOfBudget(f)
  {
    if f.status == Failed && f.currentStep < |f.plan| {
      ShapesLength(f.trace);
      var k := f.currentStep;
      assert f.plan[..1] == [f.plan[0]] && f.plan[..1][..0] == [] && f.plan[..0] == [];
      assert |Expand(reg, f.plan[..k])| <= 2;
    }
  }
}
