/** From a skill manifest to a tool plan. */
module SkillPlanner {
  import opened Prelude
  import opened RiskRegistry

  const CONTROL_PLANE_TOOLS: set<string> := {"approvals.request"}
  const DEFAULT_CONTEXT_TOOLS: set<string> := {"policy.search", "memory.search", "kg.query"}
  const FALLBACK_PLAN: seq<string> := ["policy.search", "memory.search"]

  datatype Manifest = Manifest(requiredTools: seq<string>, optionalTools: seq<string>)

  // ---------------------------------------------------------------- reference

  predicate NotControl(tool: string) {
    tool !in CONTROL_PLANE_TOOLS
  }

  /** The prefix of `tools` that ends with the first gated tool, or all of
      it; None when a tool in that prefix is unknown. */
  function ThroughFirstGate(reg: Registry, tools: seq<string>): Option<seq<string>> {
    if tools == [] then Some([])
    else if tools[0] !in reg then None
    else if Gated(reg, tools[0]) then Some([tools[0]])
    else
      match ThroughFirstGate(reg, tools[1..])
      case None => None
      case Some(rest) => Some([tools[0]] + rest)
  }

  predicate IsContext(reg: Registry, tool: string) {
    NotControl(tool) && tool in reg && reg[tool].tier == ReadOnly && tool in DEFAULT_CONTEXT_TOOLS
  }

  /** The read-only context tools among the optional ones; None when an
      optional tool outside the control plane is unknown. */
  function ContextTools(reg: Registry, tools: seq<string>): Option<seq<string>> {
    if exists tool :: tool in tools && NotControl(tool) && tool !in reg then None
    else Some(Filter(tools, tool => IsContext(reg, tool)))
  }

  predicate EndsGated(reg: Registry, tools: seq<string>) {
    |tools| > 0 && Gated(reg, tools[|tools| - 1])
  }

  /** Context goes in front of the gate, or at the end when there is none. */
  function WithContext(reg: Registry, tools: seq<string>, context: seq<string>): seq<string> {
    if EndsGated(reg, tools) then tools[..|tools| - 1] + context + [tools[|tools| - 1]]
    else tools + context
  }

  function SkillPlan(reg: Registry, m: Manifest): Option<seq<string>> {
    match (ThroughFirstGate(reg, Filter(m.requiredTools, NotControl)), ContextTools(reg, m.optionalTools))
    case (Some(tools), Some(context)) => Some(FirstOccurrences(WithContext(reg, tools, context)))
    case _ => None
  }

  /** load_fallback_plan: both tools must be known. */
  function FallbackPlan(reg: Registry): Option<seq<string>> {
    if forall tool :: tool in FALLBACK_PLAN ==> tool in reg then Some(FALLBACK_PLAN) else None
  }

  // --------------------------------------------------------------- properties

  /** Nothing before the last position is gated: a run of this plan can wait
      for a human at most once. */
  ghost predicate GateOnlyLast(reg: Registry, plan: seq<string>) {
    forall i :: 0 <= i < |plan| - 1 ==> !Gated(reg, plan[i])
  }

  /** ThroughFirstGate is a prefix, known throughout, whose only gated tool
      is its last; it stops short of the whole list exactly at a gate. */
  lemma {:induction false} ThroughFirstGateMeaning(reg: Registry, tools: seq<string>)
    ensures match ThroughFirstGate(reg, tools)
            case None => exists i :: 0 <= i < |tools| && tools[i] !in reg && forall j :: 0 <= j < i ==> !Gated(reg, tools[j])
            case Some(front) =>
              && front <= tools
              && (forall tool :: tool in front ==> tool in reg)
              && GateOnlyLast(reg, front)
              && (front == tools || EndsGated(reg, front))
    decreases |tools|
  {
    if tools != [] && tools[0] in reg && !Gated(reg, tools[0]) {
      ThroughFirstGateMeaning(reg, tools[1..]);
      if ThroughFirstGate(reg, tools[1..]) == None {
        var i :| 0 <= i < |tools[1..]| && tools[1..][i] !in reg && forall j :: 0 <= j < i ==> !Gated(reg, tools[1..][j]);
        assert tools[i + 1] !in reg;
        forall j | 0 <= j < i + 1 ensures !Gated(reg, tools[j]) {
          if j > 0 { assert tools[j] == tools[1..][j - 1]; }
        }
      }
    } else if tools != [] && tools[0] !in reg {
      assert tools[0] !in reg;
    }
  }

  /** Dropping repeats cannot move a gate away from the end, because
      everything before the gate is ungated and so different from it. */
  lemma {:induction false} FirstOccurrencesKeepGateLast(reg: Registry, plan: seq<string>)
    requires GateOnlyLast(reg, plan)
    ensures GateOnlyLast(reg, FirstOccurrences(plan))
    ensures EndsGated(reg, plan) <==> EndsGated(reg, FirstOccurrences(plan))
  {
    if plan != [] {
      var front, last := plan[..|plan| - 1], plan[|plan| - 1];
      assert plan == front + [last];
      AppendNewSnoc([], front, last);
      AppendNewContents([], front);
      var r := FirstOccurrences(front);
      forall tool | tool in r ensures !Gated(reg, tool) {
        assert tool in front;
        var i :| 0 <= i < |front| && front[i] == tool;
        assert plan[i] == tool;
      }
    }
  }

  /** Putting the read-only context in keeps the gate last. */
  lemma WithContextShape(reg: Registry, needed: seq<string>, context: seq<string>)
    requires GateOnlyLast(reg, needed)
    requires forall tool :: tool in context ==> !Gated(reg, tool)
    ensures var raw := WithContext(reg, needed, context);
            && GateOnlyLast(reg, raw)
            && (EndsGated(reg, raw) <==> EndsGated(reg, needed))
            && (forall tool :: tool in raw <==> tool in needed || tool in context)
  {
    if EndsGated(reg, needed) {
      assert needed == needed[..|needed| - 1] + [needed[|needed| - 1]];
    }
    var raw := WithContext(reg, needed, context);
    assert forall tool :: tool in raw <==> tool in needed || tool in context;
    if !EndsGated(reg, needed) {
      forall i | 0 <= i < |raw| ensures !Gated(reg, raw[i]) {
        if i >= |needed| {
          assert raw[i] == context[i - |needed|];
        } else if i == |needed| - 1 {
          assert raw[i] == needed[i];
        }
      }
    }
  }

  lemma PlanContents(reg: Registry, m: Manifest)
    requires SkillPlan(reg, m).Some?
    ensures var plan := SkillPlan(reg, m).value;
            var needed := ThroughFirstGate(reg, Filter(m.requiredTools, NotControl)).value;
            && Distinct(plan)
            && (forall tool :: tool in plan ==> tool in reg && NotControl(tool))
            && (forall tool :: tool in plan <==> tool in needed || (tool in m.optionalTools && IsContext(reg, tool)))
            && GateOnlyLast(reg, plan)
            && (EndsGated(reg, plan) <==> exists tool :: tool in needed && Gated(reg, tool))
  {
    var kept := Filter(m.requiredTools, NotControl);
    var needed := ThroughFirstGate(reg, kept).value;
    var context := ContextTools(reg, m.optionalTools).value;
    FilterContents(m.requiredTools, NotControl);
    FilterContents(m.optionalTools, tool => IsContext(reg, tool));
    ThroughFirstGateMeaning(reg, kept);
    WithContextShape(reg, needed, context);
    var raw := WithContext(reg, needed, context);
    AppendNewContents([], raw);
    FirstOccurrencesKeepGateLast(reg, raw);
    forall tool | tool in needed ensures tool in kept && (Gated(reg, tool) ==> EndsGated(reg, needed)) {
      var i :| 0 <= i < |needed| && needed[i] == tool;
      assert kept[i] == tool;
    }
  }

  /** A known read-only context tool outside the control plane. */
  ghost predicate ReadOnlyContext(reg: Registry, tool: string) {
    && tool in reg && reg[tool].tier == ReadOnly && tool != "approvals.request"
    && (tool == "policy.search" || tool == "memory.search" || tool == "kg.query")
  }

  /** Every planned run: no tool twice, nothing from the control plane,
      everything known, at most one gate and that one last, and exactly the
      required tools up to the first gate plus the read-only context. */
  lemma {:induction false} PlanShape(reg: Registry, m: Manifest)
    requires SkillPlan(reg, m).Some?
    ensures var plan := SkillPlan(reg, m).value;
            var needed := ThroughFirstGate(reg, Filter(m.requiredTools, NotControl)).value;
            && Distinct(plan)
            && (forall tool :: NotControl(tool) <==> tool != "approvals.request")
            && (forall tool :: tool in plan ==> tool in reg && tool != "approvals.request")
            && (forall tool :: tool in plan <==> tool in needed || (tool in m.optionalTools && ReadOnlyContext(reg, tool)))
            && GateOnlyLast(reg, plan)
            && (EndsGated(reg, plan) <==> exists tool :: tool in needed && Gated(reg, tool))
  {
    PlanContents(reg, m);
  }

  /** The required tools in front of the gate; all of them without a gate. */
  function InFront(reg: Registry, needed: seq<string>): seq<string> {
    if EndsGated(reg, needed) then needed[..|needed| - 1] else needed
  }

  /** The gate, if there is one. */
  function Gate(reg: Registry, needed: seq<string>): seq<string> {
    if EndsGated(reg, needed) then [needed[|needed| - 1]] else []
  }

  lemma ContextFollows(reg: Registry, needed: seq<string>, context: seq<string>)
    requires GateOnlyLast(reg, needed) && forall tool :: tool in context ==> !Gated(reg, tool)
    ensures FirstOccurrences(WithContext(reg, needed, context)) ==
              AppendNew(FirstOccurrences(InFront(reg, needed)), context) + Gate(reg, needed)
  {
    var front := InFront(reg, needed);
    AppendNewConcat([], front, context);
    if EndsGated(reg, needed) {
      var gate := needed[|needed| - 1];
      AppendNewSnoc([], front + context, gate);
      AppendNewContents([], front + context);
      forall tool | tool in front + context ensures tool != gate {
        if tool in front {
          var i :| 0 <= i < |front| && front[i] == tool;
          assert needed[i] == tool;
        }
      }
    }
  }

  /** The list has both, and has a first. */
  ghost predicate Before(list: seq<string>, a: string, b: string) {
    a in list && b in list && FirstIndex(list, a) < FirstIndex(list, b)
  }

  lemma AppendedBefore(first: seq<string>, list: seq<string>, keep: string -> bool, i: nat, j: nat)
    requires Distinct(first) && |first| <= i < j < |AppendNew(first, Filter(list, keep))|
    ensures var body := AppendNew(first, Filter(list, keep)); Before(list, body[i], body[j])
  {
    var body := AppendNew(first, Filter(list, keep));
    AppendNewOrdered(first, Filter(list, keep), i, j);
    FilterKeepsOrder(list, keep, body[i], body[j]);
  }

  /** Where the parts of a plan are. */
  lemma PlanParts(reg: Registry, m: Manifest)
    requires SkillPlan(reg, m).Some?
    ensures var plan := SkillPlan(reg, m).value;
            var needed := ThroughFirstGate(reg, Filter(m.requiredTools, NotControl)).value;
            var first := FirstOccurrences(InFront(reg, needed));
            var body := AppendNew(first, Filter(m.optionalTools, tool => IsContext(reg, tool)));
            Distinct(first) && first <= body && plan == body + Gate(reg, needed)
  {
    var needed := ThroughFirstGate(reg, Filter(m.requiredTools, NotControl)).value;
    var context := ContextTools(reg, m.optionalTools).value;
    ThroughFirstGateMeaning(reg, Filter(m.requiredTools, NotControl));
    FilterContents(m.optionalTools, tool => IsContext(reg, tool));
    ContextFollows(reg, needed, context);
    AppendNewContents([], InFront(reg, needed));
    AppendNewContents(FirstOccurrences(InFront(reg, needed)), context);
  }

  /** The order of a plan: first the required tools in front of the gate, as
      the manifest lists them; then the context tools that are not among them,
      in the order of the optional tools; then the gate. */
  lemma {:induction false} PlanOrder(reg: Registry, m: Manifest)
    requires SkillPlan(reg, m).Some?
    ensures var plan := SkillPlan(reg, m).value;
            var needed := ThroughFirstGate(reg, Filter(m.requiredTools, NotControl)).value;
            var first, last := FirstOccurrences(InFront(reg, needed)), |plan| - |Gate(reg, needed)|;
            && first <= plan && |first| <= last
            && (forall i, j :: |first| <= i < j < last ==> Before(m.optionalTools, plan[i], plan[j]))
            && plan[last..] == Gate(reg, needed)
  {
    PlanParts(reg, m);
    var plan := SkillPlan(reg, m).value;
    var needed := ThroughFirstGate(reg, Filter(m.requiredTools, NotControl)).value;
    var first, last := FirstOccurrences(InFront(reg, needed)), |plan| - |Gate(reg, needed)|;
    forall i, j | |first| <= i < j < last ensures Before(m.optionalTools, plan[i], plan[j]) {
      AppendedBefore(first, m.optionalTools, tool => IsContext(reg, tool), i, j);
    }
  }

  /** Planning fails exactly on an unknown tool in front of the first gate,
      or an unknown optional tool; tools behind the gate are never looked up. */
  lemma PlanFailsClosed(reg: Registry, m: Manifest)
    ensures var kept := Filter(m.requiredTools, NotControl);
            SkillPlan(reg, m) == None <==>
              || (exists i :: 0 <= i < |kept| && kept[i] !in reg && forall j :: 0 <= j < i ==> !Gated(reg, kept[j]))
              || (exists tool :: tool in m.optionalTools && NotControl(tool) && tool !in reg)
  {
    var kept := Filter(m.requiredTools, NotControl);
    ThroughFirstGateMeaning(reg, kept);
    match ThroughFirstGate(reg, kept)
    case None =>
    case Some(front) =>
      forall i | 0 <= i < |kept| && kept[i] !in reg ensures exists j :: 0 <= j < i && Gated(reg, kept[j]) {
        forall k | 0 <= k < |front| ensures kept[k] in reg {
          assert front[k] in front;
        }
        assert Gated(reg, kept[|front| - 1]);
      }
  }

  /** The fallback is documented as read-only, but only checked to be known.
      It is read-only exactly when neither tool is gated, and waits at most
      once exactly when the first one is not. */
  lemma FallbackGates(reg: Registry)
    requires FallbackPlan(reg).Some?
    ensures (forall tool :: tool in FallbackPlan(reg).value ==> tool in reg && reg[tool].tier == ReadOnly) <==>
              !Gated(reg, "policy.search") && !Gated(reg, "memory.search")
    ensures GateOnlyLast(reg, FallbackPlan(reg).value) <==> !Gated(reg, "policy.search")
    ensures Distinct(FallbackPlan(reg).value)
  {
    var plan := FallbackPlan(reg).value;
    assert plan[0] == "policy.search" && plan[1] == "memory.search";
    assert plan[0][0] == 'p' && plan[1][0] == 'm';
  }

  /** Such a registry exists: the check lets a gated fallback tool through. */
  lemma FallbackCanBeGated()
    ensures exists reg: Registry :: FallbackPlan(reg).Some? && Gated(reg, "policy.search")
  {
    var reg: Registry := map["policy.search" := ToolPolicy(Financial, None), "memory.search" := ToolPolicy(ReadOnly, None)];
    assert FallbackPlan(reg).Some? && Gated(reg, "policy.search");
  }

  // -------------------------------------------------------------------- loops

  method Dedupe(toolNames: seq<string>) returns (plan: seq<string>)
    ensures plan == FirstOccurrences(toolNames)
  {
    var seen: set<string> := {};
    plan := [];
    for i := 0 to |toolNames|
      invariant plan == FirstOccurrences(toolNames[..i])
      invariant forall tool :: tool in seen <==> tool in plan
    {
      assert toolNames[..i + 1] == toolNames[..i] + [toolNames[i]];
      AppendNewSnoc([], toolNames[..i], toolNames[i]);
      if toolNames[i] in seen {
        continue;
      }
      seen := seen + {toolNames[i]};
      plan := plan + [toolNames[i]];
    }
    assert toolNames[..|toolNames|] == toolNames;
  }

  method ReadOnlyOptionalTools(toolNames: seq<string>, reg: Registry) returns (tools: Option<seq<string>>)
    ensures tools == ContextTools(reg, toolNames)
  {
    var kept: seq<string> := [];
    for i := 0 to |toolNames|
      invariant kept == Filter(toolNames[..i], tool => IsContext(reg, tool))
      invariant forall j :: 0 <= j < i && NotControl(toolNames[j]) ==> toolNames[j] in reg
    {
      var tool := toolNames[i];
      assert toolNames[..i + 1] == toolNames[..i] + [tool];
      FilterSnoc(toolNames[..i], tool, tool => IsContext(reg, tool));
      if tool in CONTROL_PLANE_TOOLS {
        continue;
      }
      match RequireTool(reg, tool)
      case None =>
        assert tool in toolNames && NotControl(tool);
        return None;
      case Some(policy) =>
        if policy.tier == ReadOnly && tool in DEFAULT_CONTEXT_TOOLS {
          kept := kept + [tool];
        }
    }
    assert toolNames[..|toolNames|] == toolNames;
    return Some(kept);
  }

  /** Where a scan that met only known ungated tools so far stops. */
  lemma {:induction false} ScanFirstGate(reg: Registry, tools: seq<string>, i: nat)
    requires i <= |tools|
    requires forall j :: 0 <= j < i ==> tools[j] in reg && !Gated(reg, tools[j])
    ensures i == |tools| ==> ThroughFirstGate(reg, tools) == Some(tools)
    ensures i < |tools| && tools[i] !in reg ==> ThroughFirstGate(reg, tools) == None
    ensures i < |tools| && Gated(reg, tools[i]) ==> ThroughFirstGate(reg, tools) == Some(tools[..i + 1])
    decreases i
  {
    if i > 0 {
      ScanFirstGate(reg, tools[1..], i - 1);
      assert tools == [tools[0]] + tools[1..];
      if i < |tools| {
        assert tools[..i + 1] == [tools[0]] + tools[1..][..i];
      }
    } else if tools != [] {
      assert tools[..1] == [tools[0]];
    }
  }

  /** The loop over the required tools: stop behind the first gated one, with
      the context tools in front of it. */
  method PlanRequired(required: seq<string>, context: seq<string>, reg: Registry) returns (result: Option<seq<string>>)
    ensures result == match ThroughFirstGate(reg, required)
                      case None => None
                      case Some(tools) => Some(WithContext(reg, tools, context))
  {
    var plan: seq<string> := [];
    var insertedContext := false;
    var i := 0;
    while i < |required|
      invariant 0 <= i <= |required|
      invariant !insertedContext && plan == required[..i]
      invariant forall j :: 0 <= j < i ==> required[j] in reg && !Gated(reg, required[j])
    {
      var tool := required[i];
      ScanFirstGate(reg, required, i);
      if tool !in reg {
        return None;
      }
      if !insertedContext && GatedTier(reg[tool].tier) {
        plan := plan + context;
        insertedContext := true;
      }
      plan := plan + [tool];
      if GatedTier(reg[tool].tier) {
        assert required[..i + 1][..i] == required[..i];
        break;
      }
      i := i + 1;
    }
    if !insertedContext {
      ScanFirstGate(reg, required, i);
      assert required[..i] == required;
      plan := plan + context;
    }
    return Some(plan);
  }

  method ResolveSkillPlan(m: Manifest, reg: Registry) returns (result: Option<seq<string>>)
    ensures result == SkillPlan(reg, m)
  {
    var contextual := ReadOnlyOptionalTools(m.optionalTools, reg);
    if contextual.None? {
      return None;
    }
    var plan := PlanRequired(Filter(m.requiredTools, NotControl), contextual.value, reg);
    if plan.None? {
      return None;
    }
    var deduped := Dedupe(plan.value);
    return Some(deduped);
  }
}
