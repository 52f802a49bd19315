/** The cost summary: what its loops accumulate over the runs and run_steps
    tables, and when its two breakdowns of the same money agree. */
module Costs {
  import opened Prelude
  import opened SkillPlanner
  import opened Nodes
  import opened Tables
  import opened Protocol
  import opened CleanRuns
  import opened RestingRuns
  import opened Rounding
  import opened Statistics

  /** The columns the summary selects; a missing number counts as zero, and a
      missing vertical or tool name as the empty string. */
  datatype RunRecord = RunRecord(vertical: string, status: Status, totalCost: Option<real>)

  datatype StepRecord = StepRecord(toolName: string, cost: Option<real>, latencyMs: Option<int>, ok: bool)

  datatype Summary = Summary(
    totalUsd: real, retrieval: real, toolCompute: real, humanReview: real,
    verticals: seq<string>, byVertical: map<string, real>,
    p50Seconds: real, p95Seconds: real, successfulSteps: nat, taskSuccessRate: real, toolSuccessRate: real)

  const REVIEW_COST := 0.03

  function OrZero(cost: Option<real>): real {
    if cost.Some? then cost.value else 0.0
  }

  function VerticalOf(run: RunRecord): string {
    if run.vertical == "" then "unknown" else run.vertical
  }

  predicate IsRetrieval(tool: string) {
    tool in {"policy.search", "memory.search", "kg.query"}
  }

  // ------------------------------------------------- what the loops compute

  /** The money spent by the runs of one vertical, or by all. */
  function SpentIn(runs: seq<RunRecord>, vertical: string): real {
    if runs == [] then 0.0
    else
      var run := runs[|runs| - 1];
      SpentIn(runs[..|runs| - 1], vertical) + if VerticalOf(run) == vertical then OrZero(run.totalCost) else 0.0
  }

  function Spent(runs: seq<RunRecord>): real {
    if runs == [] then 0.0 else Spent(runs[..|runs| - 1]) + OrZero(runs[|runs| - 1].totalCost)
  }

  /** The money spent by retrieval steps, by other steps, or by all. */
  function StepsSpent(steps: seq<StepRecord>, retrieval: bool): real {
    if steps == [] then 0.0
    else
      var step := steps[|steps| - 1];
      StepsSpent(steps[..|steps| - 1], retrieval) + if IsRetrieval(step.toolName) == retrieval then OrZero(step.cost) else 0.0
  }

  function AllStepsSpent(steps: seq<StepRecord>): real {
    if steps == [] then 0.0 else AllStepsSpent(steps[..|steps| - 1]) + OrZero(steps[|steps| - 1].cost)
  }

  function Latencies(steps: seq<StepRecord>): seq<int> {
    if steps == [] then []
    else
      var step := steps[|steps| - 1];
      Latencies(steps[..|steps| - 1]) + if step.latencyMs.Some? then [step.latencyMs.value] else []
  }

  function Successes(steps: seq<StepRecord>): nat {
    if steps == [] then 0 else Successes(steps[..|steps| - 1]) + if steps[|steps| - 1].ok then 1 else 0
  }

  function CompletedRuns(runs: seq<RunRecord>): nat {
    if runs == [] then 0
    else CompletedRuns(runs[..|runs| - 1]) + if runs[|runs| - 1].status == Completed then 1 else 0
  }

  predicate ByContextTool(step: StepRecord) {
    step.toolName in DEFAULT_CONTEXT_TOOLS
  }

  predicate ByOtherTool(step: StepRecord) {
    !ByContextTool(step)
  }

  predicate IsOk(step: StepRecord) {
    step.ok
  }

  predicate IsCompleted(run: RunRecord) {
    run.status == Completed
  }

  lemma SpentSnoc(steps: seq<StepRecord>, step: StepRecord)
    ensures AllStepsSpent(steps + [step]) == AllStepsSpent(steps) + OrZero(step.cost)
    ensures AllStepsSpent(steps + []) == AllStepsSpent(steps)
  {
    assert (steps + [step])[..|steps|] == steps && steps + [] == steps;
  }

  lemma {:induction false} KindSpent(steps: seq<StepRecord>, kind: StepRecord -> bool, retrieval: bool)
    requires forall step :: kind(step) <==> IsRetrieval(step.toolName) == retrieval
    ensures StepsSpent(steps, retrieval) == AllStepsSpent(Filter(steps, kind))
    decreases |steps|
  {
    if steps != [] {
      var front, last := steps[..|steps| - 1], steps[|steps| - 1];
      assert steps == front + [last];
      KindSpent(front, kind, retrieval);
      FilterSnoc(front, last, kind);
      SpentSnoc(Filter(front, kind), last);
    }
  }

  predicate HasLatency(step: StepRecord) {
    step.latencyMs.Some?
  }

  /** The latencies of the steps that have one, in order. */
  lemma {:induction false} LatenciesTell(steps: seq<StepRecord>)
    ensures |Latencies(steps)| == |Filter(steps, HasLatency)|
    ensures forall i :: 0 <= i < |Latencies(steps)| ==> Filter(steps, HasLatency)[i].latencyMs == Some(Latencies(steps)[i])
    decreases |steps|
  {
    if steps != [] {
      var front, last := steps[..|steps| - 1], steps[|steps| - 1];
      assert steps == front + [last];
      LatenciesTell(front);
      FilterSnoc(front, last, HasLatency);
    }
  }

  lemma {:induction false} SuccessesAreOk(steps: seq<StepRecord>)
    ensures Successes(steps) == |Filter(steps, IsOk)|
    decreases |steps|
  {
    if steps != [] {
      var front, last := steps[..|steps| - 1], steps[|steps| - 1];
      assert steps == front + [last];
      SuccessesAreOk(front);
      FilterSnoc(front, last, IsOk);
    }
  }

  /** What the step figures mean: retrieval is what the planner's context tools
      spend, tool compute what the others do. */
  lemma StepFigures(steps: seq<StepRecord>)
    ensures StepsSpent(steps, true) == AllStepsSpent(Filter(steps, ByContextTool))
    ensures StepsSpent(steps, false) == AllStepsSpent(Filter(steps, ByOtherTool))
    ensures Successes(steps) == |Filter(steps, IsOk)|
  {
    KindSpent(steps, ByContextTool, true);
    KindSpent(steps, ByOtherTool, false);
    SuccessesAreOk(steps);
  }

  lemma RunSpentSnoc(runs: seq<RunRecord>, run: RunRecord)
    ensures Spent(runs + [run]) == Spent(runs) + OrZero(run.totalCost)
    ensures Spent(runs + []) == Spent(runs)
  {
    assert (runs + [run])[..|runs|] == runs && runs + [] == runs;
  }

  /** What the run figures mean; a run without a vertical counts as "unknown". */
  lemma {:induction false} RunFigures(runs: seq<RunRecord>, inVertical: RunRecord -> bool, vertical: string)
    requires forall run :: inVertical(run) <==> vertical == if run.vertical == "" then "unknown" else run.vertical
    ensures SpentIn(runs, vertical) == Spent(Filter(runs, inVertical))
    ensures CompletedRuns(runs) == |Filter(runs, IsCompleted)|
    decreases |runs|
  {
    if runs != [] {
      var front, last := runs[..|runs| - 1], runs[|runs| - 1];
      assert runs == front + [last];
      RunFigures(front, inVertical, vertical);
      FilterSnoc(front, last, inVertical);
      FilterSnoc(front, last, IsCompleted);
      RunSpentSnoc(Filter(front, inVertical), last);
    }
  }

  function Ratio(numerator: nat, denominator: nat): real {
    if denominator == 0 then 0.0 else numerator as real / denominator as real
  }

  /** The values of a dictionary, added in the order of its keys. */
  function Total(keys: seq<string>, amounts: map<string, real>): real
    requires forall k :: k in keys ==> k in amounts
  {
    if keys == [] then 0.0
    else
      var n := |keys| - 1;
      assert forall k :: k in keys[..n] ==> k in keys;
      Total(keys[..n], amounts) + amounts[keys[n]]
  }

  lemma {:induction false} TotalElsewhere(keys: seq<string>, amounts: map<string, real>, key: string, amount: real)
    requires forall k :: k in keys ==> k in amounts
    requires key !in keys
    ensures Total(keys, amounts[key := amount]) == Total(keys, amounts)
    decreases |keys|
  {
    if keys != [] {
      TotalElsewhere(keys[..|keys| - 1], amounts, key, amount);
    }
  }

  /** Adding to one entry, present or new, adds to the total. */
  lemma {:induction false} TotalAdds(keys: seq<string>, amounts: map<string, real>, key: string, amount: real)
    requires Distinct(keys) && forall k :: k in keys <==> k in amounts
    ensures key in keys ==> Total(keys, amounts[key := amounts[key] + amount]) == Total(keys, amounts) + amount
    ensures key !in keys ==> Total(keys + [key], amounts[key := amount]) == Total(keys, amounts) + amount
  {
    if key in keys {
      TotalAddsWithin(keys, amounts, key, amount);
    } else {
      TotalElsewhere(keys, amounts, key, amount);
      assert (keys + [key])[..|keys|] == keys;
    }
  }

  lemma {:induction false} TotalAddsWithin(keys: seq<string>, amounts: map<string, real>, key: string, amount: real)
    requires Distinct(keys) && (forall k :: k in keys ==> k in amounts) && key in keys
    ensures Total(keys, amounts[key := amounts[key] + amount]) == Total(keys, amounts) + amount
    decreases |keys|
  {
    var n := |keys| - 1;
    if keys[n] == key {
      TotalElsewhere(keys[..n], amounts, key, amounts[key] + amount);
    } else {
      TotalAddsWithin(keys[..n], amounts, key, amount);
    }
  }

  /** The dictionary tells, for every vertical, what the runs spent in it. */
  ghost predicate Tallied(byVertical: map<string, real>, runs: seq<RunRecord>) {
    && (forall v :: v in byVertical ==> byVertical[v] == SpentIn(runs, v))
    && (forall v :: v !in byVertical ==> SpentIn(runs, v) == 0.0)
    && (forall run :: run in runs ==> VerticalOf(run) in byVertical)
  }

  lemma TallyRun(byVertical: map<string, real>, runs: seq<RunRecord>, run: RunRecord)
    requires Tallied(byVertical, runs)
    ensures var v := VerticalOf(run);
            Tallied(byVertical[v := (if v in byVertical then byVertical[v] else 0.0) + OrZero(run.totalCost)], runs + [run])
    ensures Spent(runs + [run]) == Spent(runs) + OrZero(run.totalCost)
  {
    assert (runs + [run])[..|runs|] == runs;
  }

  // ------------------------------------------------------------- the summary

  /** by_vertical: each vertical once, with what its runs spent; altogether
      what all runs spent. */
  method SumByVertical(runs: seq<RunRecord>) returns (verticals: seq<string>, byVertical: map<string, real>)
    ensures Distinct(verticals)
    ensures forall v :: v in verticals <==> v in byVertical
    ensures forall v :: v in byVertical ==> byVertical[v] == SpentIn(runs, v)
    ensures forall run :: run in runs ==> VerticalOf(run) in byVertical
    ensures Total(verticals, byVertical) == Spent(runs)
  {
    verticals, byVertical := [], map[];
    for i := 0 to |runs|
      invariant Distinct(verticals)
      invariant forall v :: v in verticals <==> v in byVertical
      invariant Tallied(byVertical, runs[..i])
      invariant Total(verticals, byVertical) == Spent(runs[..i])
    {
      assert runs[..i + 1] == runs[..i] + [runs[i]];
      var vertical, cost := VerticalOf(runs[i]), OrZero(runs[i].totalCost);
      TallyRun(byVertical, runs[..i], runs[i]);
      TotalAdds(verticals, byVertical, vertical, cost);
      if vertical in byVertical {
        byVertical := byVertical[vertical := byVertical[vertical] + cost];
      } else {
        byVertical := byVertical[vertical := 0.0 + cost];
        verticals := verticals + [vertical];
      }
    }
    assert runs[..|runs|] == runs;
  }

  method SumByCategory(steps: seq<StepRecord>)
    returns (retrieval: real, toolCompute: real, latencies: seq<int>, successfulSteps: nat)
    ensures retrieval == StepsSpent(steps, true) && toolCompute == StepsSpent(steps, false)
    ensures retrieval + toolCompute == AllStepsSpent(steps)
    ensures latencies == Latencies(steps) && successfulSteps == Successes(steps)
  {
    retrieval, toolCompute, latencies, successfulSteps := 0.0, 0.0, [], 0;
    for i := 0 to |steps|
      invariant retrieval == StepsSpent(steps[..i], true) && toolCompute == StepsSpent(steps[..i], false)
      invariant retrieval + toolCompute == AllStepsSpent(steps[..i])
      invariant latencies == Latencies(steps[..i]) && successfulSteps == Successes(steps[..i])
    {
      assert steps[..i + 1][..i] == steps[..i];
      var cost := OrZero(steps[i].cost);
      if IsRetrieval(steps[i].toolName) {
        retrieval := retrieval + cost;
      } else {
        toolCompute := toolCompute + cost;
      }
      if steps[i].latencyMs.Some? {
        latencies := latencies + [steps[i].latencyMs.value];
      }
      if steps[i].ok {
        successfulSteps := successfulSteps + 1;
      }
    }
    assert steps[..|steps|] == steps;
  }

  method CountCompleted(runs: seq<RunRecord>) returns (completed: nat)
    ensures completed == CompletedRuns(runs)
  {
    completed := 0;
    for i := 0 to |runs|
      invariant completed == CompletedRuns(runs[..i])
    {
      assert runs[..i + 1][..i] == runs[..i];
      if runs[i].status == Completed {
        completed := completed + 1;
      }
    }
    assert runs[..|runs|] == runs;
  }

  function Shown(amounts: map<string, real>): map<string, real> {
    map k | k in amounts :: Round6(amounts[k])
  }

  method Summarize(runs: seq<RunRecord>, steps: seq<StepRecord>, approvalCount: nat) returns (summary: Summary)
    ensures summary.totalUsd == Round6(AllStepsSpent(steps) + approvalCount as real * 0.03)
    ensures summary.retrieval == Round6(StepsSpent(steps, true)) && summary.toolCompute == Round6(StepsSpent(steps, false))
    ensures summary.humanReview == Round6(approvalCount as real * 0.03)
    ensures Distinct(summary.verticals)
    ensures forall v :: v in summary.verticals <==> v in summary.byVertical
    ensures forall run :: run in runs ==> VerticalOf(run) in summary.byVertical
    ensures forall v :: v in summary.byVertical ==> summary.byVertical[v] == Round6(SpentIn(runs, v))
    ensures exists exact: map<string, real> ::
              summary.byVertical == Shown(exact) && Total(summary.verticals, exact) == Spent(runs)
    ensures summary.p50Seconds == Round3(Percentile(Latencies(steps), 50) / 1000.0)
    ensures summary.p95Seconds == Round3(Percentile(Latencies(steps), 95) / 1000.0)
    ensures summary.p50Seconds <= summary.p95Seconds
    ensures summary.successfulSteps == Successes(steps)
    ensures summary.taskSuccessRate == Round3(if runs == [] then 0.0 else CompletedRuns(runs) as real / |runs| as real)
    ensures summary.toolSuccessRate == Round3(if steps == [] then 0.0 else Successes(steps) as real / |steps| as real)
  {
    var verticals, byVertical := SumByVertical(runs);
    var humanReview := approvalCount as real * REVIEW_COST;
    var retrieval, toolCompute, latencies, successfulSteps := SumByCategory(steps);
    var total := 0.0 + retrieval + toolCompute + 0.0 + 0.0 + humanReview;
    var completed := CountCompleted(runs);
    PercentileMonotone(latencies, 50, 95);
    Round3Monotone(Percentile(latencies, 50) / 1000.0, Percentile(latencies, 95) / 1000.0);
    summary := Summary(
      Round6(total), Round6(retrieval), Round6(toolCompute), Round6(humanReview),
      verticals, Shown(byVertical),
      Round3(Percentile(latencies, 50) / 1000.0), Round3(Percentile(latencies, 95) / 1000.0),
      successfulSteps, Round3(Ratio(completed, |runs|)), Round3(Ratio(successfulSteps, |steps|)));
  }

  // ------------------------------------------------------------ conservation

  /** What rounding each figure can do to their sum. */
  lemma {:induction false} ShownTotalClose(keys: seq<string>, amounts: map<string, real>)
    requires forall k :: k in keys ==> k in amounts
    ensures forall k :: k in keys ==> k in Shown(amounts)
    ensures -0.0000005 * |keys| as real <= Total(keys, Shown(amounts)) - Total(keys, amounts) <= 0.0000005 * |keys| as real
    decreases |keys|
  {
    if keys != [] {
      var n := |keys| - 1;
      assert forall k :: k in keys[..n] ==> k in keys;
      ShownTotalClose(keys[..n], amounts);
      Round6Close(amounts[keys[n]]);
    }
  }

  lemma {:induction false} SpentConcat(a: seq<StepRecord>, b: seq<StepRecord>)
    ensures AllStepsSpent(a + b) == AllStepsSpent(a) + AllStepsSpent(b)
    decreases |b|
  {
    if b == [] {
      assert a + b == a;
    } else {
      var n := |b| - 1;
      assert (a + b)[..|a + b| - 1] == a + b[..n];
      SpentConcat(a, b[..n]);
    }
  }

  lemma SpentWithout(steps: seq<StepRecord>, i: nat)
    requires i < |steps|
    ensures var rest := steps[..i] + steps[i + 1..];
            && AllStepsSpent(steps) == AllStepsSpent(rest) + OrZero(steps[i].cost)
            && multiset(steps) == multiset(rest) + multiset{steps[i]}
  {
    assert steps == steps[..i] + ([steps[i]] + steps[i + 1..]);
    SpentConcat(steps[..i], [steps[i]] + steps[i + 1..]);
    SpentConcat([steps[i]], steps[i + 1..]);
    SpentConcat(steps[..i], steps[i + 1..]);
    assert [steps[i]][..0] == [];
  }

  lemma Cancel<T>(a: multiset<T>, b: multiset<T>, x: T)
    requires a + multiset{x} == b + multiset{x}
    ensures a == b
  {
    assert a == a + multiset{x} - multiset{x};
    assert b == b + multiset{x} - multiset{x};
  }

  /** The total does not depend on the order in which the rows arrive. */
  lemma {:induction false} SpentPermutes(a: seq<StepRecord>, b: seq<StepRecord>)
    requires multiset(a) == multiset(b)
    ensures AllStepsSpent(a) == AllStepsSpent(b)
    decreases |a|
  {
    if a == [] {
      assert |multiset(b)| == 0;
    } else {
      var n := |a| - 1;
      SpentWithout(a, n);
      assert a[..n] + a[n + 1..] == a[..n];
      assert a[n] in multiset(b);
      var i :| 0 <= i < |b| && b[i] == a[n];
      SpentWithout(b, i);
      var rest := b[..i] + b[i + 1..];
      Cancel(multiset(a[..n]), multiset(rest), a[n]);
      SpentPermutes(a[..n], rest);
    }
  }

  function RunRecordOf(row: Row): RunRecord {
    RunRecord(OrEmpty(row.vertical), row.status, Some(row.totalCost))
  }

  function StepRecords(steps: seq<StepRow>): seq<StepRecord> {
    if steps == [] then []
    else
      var step := steps[|steps| - 1];
      StepRecords(steps[..|steps| - 1]) + [StepRecord(step.toolName, Some(step.cost), Some(step.latencyMs), step.ok)]
  }

  /** Every run once, in some order. */
  ghost predicate Enumerates(s: System, ids: seq<RunId>) {
    Distinct(ids) && forall r :: r in ids <==> r in s.runs
  }

  function FetchRuns(s: System, ids: seq<RunId>): seq<RunRecord>
    requires forall r :: r in ids ==> r in s.runs
  {
    if ids == [] then []
    else
      assert forall r :: r in ids[..|ids| - 1] ==> r in ids;
      FetchRuns(s, ids[..|ids| - 1]) + [RunRecordOf(s.runs[ids[|ids| - 1]].row)]
  }

  /** The step rows joined with their runs. */
  function FetchSteps(s: System, ids: seq<RunId>): seq<StepRecord>
    requires forall r :: r in ids ==> r in s.runs
  {
    if ids == [] then []
    else
      assert forall r :: r in ids[..|ids| - 1] ==> r in ids;
      FetchSteps(s, ids[..|ids| - 1]) + StepRecords(s.runs[ids[|ids| - 1]].steps)
  }

  lemma {:induction false} StepRecordsSpend(steps: seq<StepRow>)
    ensures AllStepsSpent(StepRecords(steps)) == StepsCost(steps)
    decreases |steps|
  {
    if steps != [] {
      StepRecordsSpend(steps[..|steps| - 1]);
      assert StepRecords(steps)[..|StepRecords(steps)| - 1] == StepRecords(steps[..|steps| - 1]);
    }
  }

  lemma {:induction false} FetchedBalance(s: System, ids: seq<RunId>)
    requires forall r :: r in ids ==> r in s.runs && s.runs[r].row.totalCost == StepsCost(s.runs[r].steps)
    ensures AllStepsSpent(FetchSteps(s, ids)) == Spent(FetchRuns(s, ids))
    decreases |ids|
  {
    if ids != [] {
      var n := |ids| - 1;
      assert ids[n] in ids && forall r :: r in ids[..n] ==> r in ids;
      FetchedBalance(s, ids[..n]);
      StepRecordsSpend(s.runs[ids[n]].steps);
      SpentConcat(FetchSteps(s, ids[..n]), StepRecords(s.runs[ids[n]].steps));
      assert FetchRuns(s, ids)[..|FetchRuns(s, ids)| - 1] == FetchRuns(s, ids[..n]);
    }
  }

  /** After a clean history that has come to rest, the money by category and
      the money by vertical are the same money, in whatever order the rows of
      either table arrive. */
  lemma {:induction false} LedgerBalances(cfg: Config, labels: seq<Label>, ids: seq<RunId>, steps: seq<StepRecord>)
    requires CleanHistory(cfg, StepsOnce, labels)
    requires Enumerates(History(cfg, labels), ids)
    requires forall r :: r in ids ==> Idle(History(cfg, labels), r)
    requires multiset(steps) == multiset(FetchSteps(History(cfg, labels), ids))
    ensures AllStepsSpent(steps) == Spent(FetchRuns(History(cfg, labels), ids))
  {
    var s := History(cfg, labels);
    forall r | r in ids ensures s.runs[r].row.totalCost == StepsCost(s.runs[r].steps) {
      ExactlyOnce(cfg, labels, r);
    }
    FetchedBalance(s, ids);
    SpentPermutes(steps, FetchSteps(s, ids));
  }

  lemma {:induction false} CategoriesCover(steps: seq<StepRecord>)
    ensures StepsSpent(steps, true) + StepsSpent(steps, false) == AllStepsSpent(steps)
    decreases |steps|
  {
    if steps != [] {
      CategoriesCover(steps[..|steps| - 1]);
    }
  }

  /** The figures shown then differ by no more than their rounding. */
  lemma {:induction false} ShownLedgerBalances(cfg: Config, labels: seq<Label>, ids: seq<RunId>, steps: seq<StepRecord>,
                            verticals: seq<string>, exact: map<string, real>)
    requires CleanHistory(cfg, StepsOnce, labels)
    requires Enumerates(History(cfg, labels), ids)
    requires forall r :: r in ids ==> Idle(History(cfg, labels), r)
    requires multiset(steps) == multiset(FetchSteps(History(cfg, labels), ids))
    requires forall v :: v in verticals ==> v in exact
    requires Total(verticals, exact) == Spent(FetchRuns(History(cfg, labels), ids))
    ensures forall v :: v in verticals ==> v in Shown(exact)
    ensures var gap := Round6(StepsSpent(steps, true)) + Round6(StepsSpent(steps, false)) - Total(verticals, Shown(exact));
            -0.0000005 * (|verticals| + 2) as real <= gap <= 0.0000005 * (|verticals| + 2) as real
  {
    LedgerBalances(cfg, labels, ids, steps);
    CategoriesCover(steps);
    ShownTotalClose(verticals, exact);
    Round6Close(StepsSpent(steps, true));
    Round6Close(StepsSpent(steps, false));
  }

  // ------------------------------------------------------- what is stored

  /** A figure as a column keeps it, rounded to its last decimal place. */
  predicate StoredAs(exact: Option<real>, stored: Option<real>, place: real) {
    -place / 2.0 <= OrZero(stored) - OrZero(exact) <= place / 2.0
  }

  /** Run totals are stored with four decimals. */
  ghost predicate RunsStored(exact: seq<RunRecord>, stored: seq<RunRecord>) {
    |stored| == |exact| && forall i :: 0 <= i < |exact| ==> StoredAs(exact[i].totalCost, stored[i].totalCost, 0.0001)
  }

  /** Step costs are stored with six decimals. */
  ghost predicate StepsStored(exact: seq<StepRecord>, stored: seq<StepRecord>) {
    |stored| == |exact| && forall i :: 0 <= i < |exact| ==> StoredAs(exact[i].cost, stored[i].cost, 0.000001)
  }

  lemma {:induction false} RunsStoredClose(exact: seq<RunRecord>, stored: seq<RunRecord>)
    requires RunsStored(exact, stored)
    ensures -0.00005 * |exact| as real <= Spent(stored) - Spent(exact) <= 0.00005 * |exact| as real
    decreases |exact|
  {
    if exact != [] {
      var n := |exact| - 1;
      assert StoredAs(exact[n].totalCost, stored[n].totalCost, 0.0001);
      RunsStoredClose(exact[..n], stored[..n]);
    }
  }

  lemma {:induction false} StepsStoredClose(exact: seq<StepRecord>, stored: seq<StepRecord>)
    requires StepsStored(exact, stored)
    ensures -0.0000005 * |exact| as real <= AllStepsSpent(stored) - AllStepsSpent(exact) <= 0.0000005 * |exact| as real
    decreases |exact|
  {
    if exact != [] {
      var n := |exact| - 1;
      assert StoredAs(exact[n].cost, stored[n].cost, 0.000001);
      StepsStoredClose(exact[..n], stored[..n]);
    }
  }

  /** Read back from the columns, the two sums differ by no more than half a
      unit in the last place of each stored figure. */
  lemma {:induction false} StoredLedgerClose(cfg: Config, labels: seq<Label>, ids: seq<RunId>, steps: seq<StepRecord>,
                                            storedRuns: seq<RunRecord>, storedSteps: seq<StepRecord>)
    requires CleanHistory(cfg, StepsOnce, labels)
    requires Enumerates(History(cfg, labels), ids)
    requires forall r :: r in ids ==> Idle(History(cfg, labels), r)
    requires multiset(steps) == multiset(FetchSteps(History(cfg, labels), ids))
    requires RunsStored(FetchRuns(History(cfg, labels), ids), storedRuns) && StepsStored(steps, storedSteps)
    ensures var gap := AllStepsSpent(storedSteps) - Spent(storedRuns);
            var most := 0.00005 * |storedRuns| as real + 0.0000005 * |storedSteps| as real;
            -most <= gap <= most
  {
    LedgerBalances(cfg, labels, ids, steps);
    RunsStoredClose(FetchRuns(History(cfg, labels), ids), storedRuns);
    StepsStoredClose(steps, storedSteps);
  }
}
