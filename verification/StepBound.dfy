/** A configuration whose run takes one step more than the limit. */
module StepBound {
  import opened Prelude
  import opened RiskRegistry
  import opened SkillPlanner
  import opened Nodes
  import opened RunGraph
  import opened GraphRuns
  import opened GraphBudgets

  /** n different tools. */
  function Tools(n: nat): seq<string> {
    seq(n, i requires 0 <= i < n => seq(i + 1, _ => 'x'))
  }

  /** They are known, and only the last is gated. */
  function LastGated(n: nat): Registry {
    map tool: string | tool in Tools(n) :: ToolPolicy(if |tool| == n then Financial else ReadOnly, None)
  }

  lemma {:induction false} FilterKeepsAll<T>(xs: seq<T>, keep: T -> bool)
    requires forall x :: x in xs ==> keep(x)
    ensures Filter(xs, keep) == xs
    decreases |xs|
  {
    if xs != [] {
      FilterKeepsAll(xs[1..], keep);
    }
  }

  lemma {:induction false} DistinctStays<T>(xs: seq<T>)
    requires Distinct(xs)
    ensures FirstOccurrences(xs) == xs
    decreases |xs|
  {
    if xs != [] {
      var n := |xs| - 1;
      DistinctStays(xs[..n]);
      assert xs == xs[..n] + [xs[n]];
      AppendNewSnoc([], xs[..n], xs[n]);
    }
  }

  lemma ToolsKnown(n: nat)
    requires n > 0
    ensures Distinct(Tools(n)) && |Tools(n)| == n
    ensures forall tool :: tool in Tools(n) ==> tool in LastGated(n) && NotControl(tool) && tool != ""
    ensures GateOnlyLast(LastGated(n), Tools(n)) && EndsGated(LastGated(n), Tools(n))
  {
    var tools := Tools(n);
    assert forall i, j :: 0 <= i < j < n ==> |tools[i]| != |tools[j]|;
    forall tool | tool in tools ensures NotControl(tool) && tool != "" {
      assert tool[0] == 'x' && "approvals.request"[0] == 'a';
    }
    forall i | 0 <= i < n ensures tools[i] in LastGated(n) && (Gated(LastGated(n), tools[i]) <==> i == n - 1) {
      assert tools[i] in tools;
    }
  }

  /** A manifest that is already a plan is planned as it stands. */
  lemma {:induction false} PlannedAsIs(reg: Registry, tools: seq<string>)
    requires Distinct(tools) && GateOnlyLast(reg, tools) && EndsGated(reg, tools)
    requires forall tool :: tool in tools ==> tool in reg && NotControl(tool)
    ensures SkillPlan(reg, Manifest(tools, [])) == Some(tools)
  {
    var n := |tools| - 1;
    FilterKeepsAll(tools, NotControl);
    forall i | 0 <= i < n ensures tools[i] in reg && !Gated(reg, tools[i]) {
      assert tools[i] in tools;
    }
    ScanFirstGate(reg, tools, n);
    WholeAgain(tools);
    WithoutContext(reg, tools);
    DistinctStays(tools);
  }

  lemma WithoutContext(reg: Registry, tools: seq<string>)
    requires Filter(tools, NotControl) == tools && ThroughFirstGate(reg, tools) == Some(tools) && EndsGated(reg, tools)
    ensures SkillPlan(reg, Manifest(tools, [])) == Some(FirstOccurrences(tools))
  {
    WholeAgain(tools);
    assert ContextTools(reg, []) == Some([]);
  }

  lemma WholeAgain(tools: seq<string>)
    requires tools != []
    ensures tools[..|tools| - 1 + 1] == tools && tools[..|tools| - 1] + [] + [tools[|tools| - 1]] == tools
  {
  }

  lemma {:induction false} UngatedExpands(reg: Registry, plan: seq<string>, k: nat)
    requires k < |plan| && GateOnlyLast(reg, plan)
    requires forall tool :: tool in plan ==> tool in reg
    ensures |Expand(reg, plan[..k])| == k
    decreases k
  {
    if k > 0 {
      assert plan[k - 1] in plan;
      ExpandSnoc(reg, plan, k - 1);
      UngatedExpands(reg, plan, k - 1);
    }
  }

  lemma GateLastExpands(reg: Registry, tools: seq<string>)
    requires GateOnlyLast(reg, tools) && EndsGated(reg, tools)
    requires forall tool :: tool in tools ==> tool in reg
    ensures |Expand(reg, tools)| == |tools| + 1
  {
    var n := |tools| - 1;
    UngatedExpands(reg, tools, n);
    ExpandSnoc(reg, tools, n);
    assert tools[..n + 1] == tools;
  }

  lemma {:induction false} ZeroPrices(plan: seq<string>, price: string -> real)
    requires forall tool :: price(tool) == 0.0
    ensures PriceOf(plan, price) == 0.0
    decreases |plan|
  {
    if plan != [] {
      ZeroPrices(plan[..|plan| - 1], price);
    }
  }

  /** Any such manifest of as many tools as steps are allowed does it. */
  lemma ManifestMeetsBound(reg: Registry, tools: seq<string>) returns (cfg: Config, q: Request, k: nat)
    requires Distinct(tools) && GateOnlyLast(reg, tools) && EndsGated(reg, tools) && |tools| == MAX_STEPS
    requires forall tool :: tool in tools ==> tool in reg && NotControl(tool) && tool != ""
    ensures Play(cfg, q, FREE, Approvals(k)).Some? && Play(cfg, q, FREE, Approvals(k)).value.stepCount == MAX_STEPS + 1
  {
    cfg := Config(reg, map["skill" := Manifest(tools, [])]);
    q := Request("run", "finance", "skill");
    k := Gates(reg, tools);
    PlannedAsIs(reg, tools);
    GateLastExpands(reg, tools);
    assert Planner(cfg, q).value.plan == tools;
    var price: string -> real := _ => 0.0;
    ZeroPrices(tools[..|tools| - 1], price);
    StepBoundIsTight(cfg, q, FREE, price);
  }

  /** Some run does take the extra step. */
  lemma StepBoundIsMet()
    ensures exists cfg: Config, q: Request, d: Dispatcher, decisions: seq<Decision> ::
              Play(cfg, q, d, decisions).Some? && Play(cfg, q, d, decisions).value.stepCount == 101
  {
    ToolsKnown(MAX_STEPS);
    var cfg, q, k := ManifestMeetsBound(LastGated(MAX_STEPS), Tools(MAX_STEPS));
    assert Play(cfg, q, FREE, Approvals(k)).value.stepCount == MAX_STEPS + 1;
  }
}
