/** The state of a run and the nodes of the run graph. */
module Nodes {
  import opened Prelude
  import opened RiskRegistry
  import opened SkillPlanner

  const MAX_STEPS: nat := 100
  const MAX_COST_USD: real := 5.0

  type Cost = c: real | c >= 0.0 witness 0.0

  datatype Status = Pending | Running | Paused | ApprovalRequired | Completed | Failed | Cancelled

  datatype Decision = Approved | Rejected

  datatype TraceEntry = TraceEntry(
    toolName: string, tier: Tier, success: bool, latencyMs: nat, cost: Cost,
    requiresApproval: bool, executed: bool)

  datatype RunError = UnknownSkill(name: string) | BudgetExceeded | UnknownTool(tool: string) | NoPolicyCited

  datatype OutcomeBody =
    | Empty
    | Resolved(approvalRequired: bool, citations: seq<string>, toolCount: nat, costUsd: real)
    | AwaitingApproval(policyCited: bool, role: Option<string>, trace: seq<TraceEntry>)
    | RejectedByHuman(policyCited: bool)

  /** The outcome dictionary; the API adds the decision fields on resume. */
  datatype Outcome = Outcome(body: OutcomeBody, decision: Option<(Decision, string)>)

  const NO_OUTCOME := Outcome(Empty, None)

  datatype RunState = RunState(
    runId: string, vertical: string, skillName: string,
    plan: seq<string>, currentStep: nat, stepCount: nat, cost: real, status: Status,
    trace: seq<TraceEntry>, citations: seq<string>,
    pendingApproval: bool, approvalRole: Option<string>, pendingTool: Option<string>,
    outcome: Outcome, error: Option<RunError>)

  /** What a caller supplies; every other key is overwritten by the planner. */
  datatype Request = Request(runId: string, vertical: string, skillName: string)

  datatype Config = Config(registry: Registry, skills: map<string, Manifest>)

  // ----------------------------------------------------------------- dispatch

  datatype ToolArgs = NoArgs | InvoiceArgs(invoiceId: Outcome) | ServiceArgs(service: string)

  /** A `matches` element: a dictionary whose keys may be missing, or not one. */
  datatype Match = MatchDict(policyId: Option<string>, clauseId: Option<string>) | OtherMatch

  datatype Output = DictOutput(matches: seq<Match>) | OtherOutput

  datatype ToolResult = ToolResult(success: bool, output: Output, latencyMs: nat, cost: Cost)

  /** The outside world: tool, arguments and the step at which it is called
      determine the answer. A tool may answer differently at every step. */
  type Dispatcher = (string, ToolArgs, nat) -> ToolResult

  function BuildArgs(tool: string, s: RunState): ToolArgs {
    if tool == "erp.get_invoice" then InvoiceArgs(s.outcome)
    else if tool in {"analytics.get_campaign_metrics", "analytics.get_incident_metrics", "telemetry.get_deployments"} then
      ServiceArgs(if s.vertical == "saas" then "billing-api" else s.vertical)
    else NoArgs
  }

  // ---------------------------------------------------------------- citations

  const SEPARATOR := " §"

  function PrintCitation(policyId: string, clauseId: string): string {
    policyId + SEPARATOR + clauseId
  }

  function OrEmpty(field: Option<string>): string {
    if field.Some? then field.value else ""
  }

  /** The printed citations of the dictionary matches, in order. */
  function PrintedMatches(matches: seq<Match>): seq<string> {
    if matches == [] then []
    else
      (match matches[0]
       case OtherMatch => []
       case MatchDict(p, c) => [PrintCitation(OrEmpty(p), OrEmpty(c))]) + PrintedMatches(matches[1..])
  }

  function CitedBy(tool: string, r: ToolResult): seq<string> {
    if r.success && tool == "policy.search" && r.output.DictOutput? then PrintedMatches(r.output.matches) else []
  }

  lemma {:induction false} PrintedMatchesSnoc(ms: seq<Match>, m: Match)
    ensures PrintedMatches(ms + [m]) == PrintedMatches(ms) + PrintedMatches([m])
    decreases |ms|
  {
    if ms == [] {
      assert ms + [m] == [m];
    } else {
      assert (ms + [m])[1..] == ms[1..] + [m];
      PrintedMatchesSnoc(ms[1..], m);
    }
  }

  /** The citation loop of the specialist. */
  method CollectCitations(known: seq<string>, tool: string, r: ToolResult) returns (citations: seq<string>)
    ensures citations == AppendNew(known, CitedBy(tool, r))
  {
    citations := known;
    if r.success && tool == "policy.search" && r.output.DictOutput? {
      var matches := r.output.matches;
      for i := 0 to |matches|
        invariant citations == AppendNew(known, PrintedMatches(matches[..i]))
      {
        assert matches[..i + 1] == matches[..i] + [matches[i]];
        PrintedMatchesSnoc(matches[..i], matches[i]);
        match matches[i] {
          case OtherMatch =>
            assert PrintedMatches([matches[i]]) == [];
            assert PrintedMatches(matches[..i]) + [] == PrintedMatches(matches[..i]);
          case MatchDict(p, c) =>
            var citation := PrintCitation(OrEmpty(p), OrEmpty(c));
            assert PrintedMatches([matches[i]]) == [citation];
            AppendNewSnoc(known, PrintedMatches(matches[..i]), citation);
            if citation !in citations {
              citations := citations + [citation];
            }
        }
      }
      assert matches[..|matches|] == matches;
    }
  }

  // -------------------------------------------------------------------- nodes

  /** None when even the fallback plan names a tool the registry lacks. */
  function Planner(cfg: Config, q: Request): Option<RunState> {
    var planned := if q.skillName in cfg.skills then SkillPlan(cfg.registry, cfg.skills[q.skillName]) else None;
    var plan := if planned.Some? then planned else FallbackPlan(cfg.registry);
    if plan.None? then None
    else
      Some(RunState(q.runId, q.vertical, q.skillName, plan.value, 0, 0, 0.0, Running, [], [], false, None, None,
                    NO_OUTCOME, if planned.Some? then None else Some(UnknownSkill(q.skillName))))
  }

  function Proposal(tool: string, policy: ToolPolicy): TraceEntry {
    TraceEntry(tool, policy.tier, true, 0, 0.0, true, false)
  }

  function Execution(tool: string, policy: ToolPolicy, r: ToolResult, approved: bool): TraceEntry {
    TraceEntry(tool, policy.tier, r.success, r.latencyMs, r.cost, approved, true)
  }

  predicate OverBudget(s: RunState) {
    s.stepCount >= MAX_STEPS || s.cost >= MAX_COST_USD
  }

  function Specialist(reg: Registry, s: RunState, d: Dispatcher): RunState {
    if s.status == Failed || s.status == Cancelled then s
    else if s.currentStep >= |s.plan| then s.(status := Completed)
    else if OverBudget(s) then s.(status := Failed, error := Some(BudgetExceeded))
    else
      var tool := s.plan[s.currentStep];
      match RequireTool(reg, tool)
      case None => s.(status := Failed, error := Some(UnknownTool(tool)))
      case Some(policy) =>
        if GatedTier(policy.tier) then
          s.(stepCount := s.stepCount + 1, trace := s.trace + [Proposal(tool, policy)], status := ApprovalRequired,
             pendingApproval := true, pendingTool := Some(tool), approvalRole := policy.approverRole)
        else
          var r := d(tool, BuildArgs(tool, s), s.stepCount);
          s.(currentStep := s.currentStep + 1, stepCount := s.stepCount + 1, cost := s.cost + r.cost,
             trace := s.trace + [Execution(tool, policy, r, false)],
             citations := AppendNew(s.citations, CitedBy(tool, r)), status := Running)
  }

  function Verifier(s: RunState): RunState {
    if s.status == ApprovalRequired || s.status == Failed then s
    else if s.currentStep < |s.plan| then s.(status := Running)
    else if s.citations == [] then s.(status := Failed, error := Some(NoPolicyCited))
    else
      s.(status := Completed,
         outcome := Outcome(Resolved(s.pendingApproval, s.citations, s.stepCount, s.cost), None))
  }

  function ApprovalGate(s: RunState): RunState {
    s.(outcome := Outcome(AwaitingApproval(s.citations != [], s.approvalRole, s.trace), None))
  }

  /** An empty pending tool counts as none. None: the tool is unknown. */
  function ExecutePending(reg: Registry, s: RunState, d: Dispatcher): Option<RunState> {
    if s.pendingTool == None || s.pendingTool == Some("") then Some(s)
    else
      var tool := s.pendingTool.value;
      match RequireTool(reg, tool)
      case None => None
      case Some(policy) =>
        var r := d(tool, BuildArgs(tool, s), s.stepCount);
        Some(s.(currentStep := s.currentStep + 1, stepCount := s.stepCount + 1, cost := s.cost + r.cost,
                trace := s.trace + [Execution(tool, policy, r, true)],
                pendingTool := None, pendingApproval := false, approvalRole := None, status := Running))
  }

  /** The node as it runs: copies the lists, extends them, returns a new state. */
  method SpecialistNode(reg: Registry, s: RunState, d: Dispatcher) returns (next: RunState)
    ensures next == Specialist(reg, s, d)
  {
    if s.status == Failed || s.status == Cancelled {
      return s;
    }
    if s.currentStep >= |s.plan| {
      return s.(status := Completed);
    }
    if s.stepCount >= MAX_STEPS || s.cost >= MAX_COST_USD {
      return s.(status := Failed, error := Some(BudgetExceeded));
    }
    var tool := s.plan[s.currentStep];
    var trace := s.trace;
    match RequireTool(reg, tool) {
      case None =>
        return s.(status := Failed, error := Some(UnknownTool(tool)));
      case Some(policy) =>
        if GatedTier(policy.tier) {
          trace := trace + [Proposal(tool, policy)];
          return s.(stepCount := s.stepCount + 1, trace := trace, status := ApprovalRequired,
                    pendingApproval := true, pendingTool := Some(tool), approvalRole := policy.approverRole);
        }
        var r := d(tool, BuildArgs(tool, s), s.stepCount);
        var citations := CollectCitations(s.citations, tool, r);
        trace := trace + [Execution(tool, policy, r, false)];
        return s.(currentStep := s.currentStep + 1, stepCount := s.stepCount + 1, cost := s.cost + r.cost,
                  trace := trace, citations := citations, status := Running);
    }
  }
}
