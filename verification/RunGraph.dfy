/** The two compiled graphs as the loops their edges describe, and the two
    entry points. */
module RunGraph {
  import opened Prelude
  import opened RiskRegistry
  import opened Nodes

  function StepsLeft(s: RunState): nat {
    if s.currentStep < |s.plan| then |s.plan| - s.currentStep else 0
  }

  /** The specialist's self-loop: again while it reports running. */
  function SpecialistLoop(reg: Registry, s: RunState, d: Dispatcher): RunState
    decreases StepsLeft(s)
  {
    var next := Specialist(reg, s, d);
    if next.status == Running then SpecialistLoop(reg, next, d) else next
  }

  /** verifier, then approval_gate, memory_writer or the end. */
  function Conclude(s: RunState): RunState {
    var v := Verifier(s);
    if v.status == ApprovalRequired then ApprovalGate(v) else v
  }

  /** None stands for the exception the planner lets through. */
  function Invoke(cfg: Config, q: Request, d: Dispatcher): Option<RunState> {
    match Planner(cfg, q)
    case None => None
    case Some(s) => Some(Conclude(SpecialistLoop(cfg.registry, s, d)))
  }

  function Reject(s: RunState): RunState {
    s.(status := Cancelled, pendingApproval := false, pendingTool := None,
       outcome := Outcome(RejectedByHuman(s.citations != []), None))
  }

  function Resume(reg: Registry, s: RunState, decision: Decision, d: Dispatcher): Option<RunState> {
    if s.status != ApprovalRequired then Some(s)
    else if decision == Rejected then Some(Reject(s))
    else
      match ExecutePending(reg, s, d)
      case None => None
      case Some(executed) => Some(Conclude(SpecialistLoop(reg, executed, d)))
  }

  /** A whole run: invoke, then one resume per human decision. */
  function Play(cfg: Config, q: Request, d: Dispatcher, decisions: seq<Decision>): Option<RunState> {
    if decisions == [] then Invoke(cfg, q, d)
    else
      match Play(cfg, q, d, decisions[..|decisions| - 1])
      case None => None
      case Some(s) => Resume(cfg.registry, s, decisions[|decisions| - 1], d)
  }

  /** The loop as the runtime drives it: one node call per iteration, each
      replacing the state. */
  method DriveSpecialist(reg: Registry, s: RunState, d: Dispatcher) returns (final: RunState)
    ensures final == SpecialistLoop(reg, s, d)
  {
    final := SpecialistNode(reg, s, d);
    while final.status == Running
      invariant SpecialistLoop(reg, s, d) ==
                if final.status == Running then SpecialistLoop(reg, final, d) else final
      decreases if final.status == Running then 1 + StepsLeft(final) else 0
    {
      final := SpecialistNode(reg, final, d);
    }
  }

  method InvokeGraph(cfg: Config, q: Request, d: Dispatcher) returns (final: Option<RunState>)
    ensures final == Invoke(cfg, q, d)
  {
    var planned := Planner(cfg, q);
    if planned.None? {
      return None;
    }
    var looped := DriveSpecialist(cfg.registry, planned.value, d);
    return Some(Conclude(looped));
  }

  method ResumeGraph(reg: Registry, s: RunState, decision: Decision, d: Dispatcher) returns (final: Option<RunState>)
    ensures final == Resume(reg, s, decision, d)
  {
    if s.status != ApprovalRequired {
      return Some(s);
    }
    if decision == Rejected {
      return Some(Reject(s));
    }
    var executed := ExecutePending(reg, s, d);
    if executed.None? {
      return None;
    }
    var looped := DriveSpecialist(reg, executed.value, d);
    return Some(Conclude(looped));
  }
}
