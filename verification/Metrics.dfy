/** Scores of a run's tool trajectory against the expected one, and of a
    suite of cases. */
module Metrics {
  import opened Prelude
  import opened RiskRegistry
  import opened SkillPlanner
  import opened Nodes
  import opened RunGraph
  import opened GraphRuns
  import opened RunOutcomes
  import opened Statistics

  datatype Trajectory = Trajectory(expected: seq<string>, actual: seq<string>)

  /** The elements of xs that occur in ys, in order. */
  function Shared(xs: seq<string>, ys: seq<string>): seq<string> {
    if xs == [] then []
    else Shared(xs[..|xs| - 1], ys) + if xs[|xs| - 1] in ys then [xs[|xs| - 1]] else []
  }

  function Precision(t: Trajectory): real {
    if t.actual == [] then 0.0 else |Shared(t.actual, t.expected)| as real / |t.actual| as real
  }

  function Recall(t: Trajectory): real {
    if t.expected == [] then 1.0 else |Shared(t.expected, t.actual)| as real / |t.expected| as real
  }

  function Harmonic(p: real, r: real): real {
    if p + r == 0.0 then 0.0 else 2.0 * p * r / (p + r)
  }

  function F1(t: Trajectory): real {
    Harmonic(Precision(t), Recall(t))
  }

  predicate OrderCorrect(t: Trajectory) {
    Shared(t.expected, t.actual) == Shared(t.actual, t.expected)
  }

  // ------------------------------------------------------ what they measure

  lemma {:induction false} SharedContents(xs: seq<string>, ys: seq<string>)
    ensures |Shared(xs, ys)| <= |xs|
    ensures |Shared(xs, ys)| == 0 <==> forall x :: x in xs ==> x !in ys
    ensures |Shared(xs, ys)| == |xs| <==> forall x :: x in xs ==> x in ys
    ensures |Shared(xs, ys)| == |xs| ==> Shared(xs, ys) == xs
    decreases |xs|
  {
    if xs != [] {
      SharedContents(xs[..|xs| - 1], ys);
      assert forall x :: x in xs <==> x in xs[..|xs| - 1] || x == xs[|xs| - 1];
    }
  }

  /** How many entries of the list are tools of the other, repeats counted. */
  ghost function Hits(xs: seq<string>, ys: seq<string>): nat {
    |set i | 0 <= i < |xs| && xs[i] in ys|
  }

  lemma {:induction false} SharedHits(xs: seq<string>, ys: seq<string>)
    ensures |Shared(xs, ys)| == Hits(xs, ys)
    decreases |xs|
  {
    var at := set i | 0 <= i < |xs| && xs[i] in ys;
    if xs == [] {
      assert at == {};
    } else {
      var n := |xs| - 1;
      SharedHits(xs[..n], ys);
      var front := set i | 0 <= i < |xs[..n]| && xs[..n][i] in ys;
      assert at == front + if xs[n] in ys then {n} else {};
    }
  }

  lemma {:induction false} PrecisionShare(t: Trajectory)
    requires t.actual != []
    ensures Precision(t) * |t.actual| as real == |Shared(t.actual, t.expected)| as real
  {
    ShareOf(|Shared(t.actual, t.expected)|, |t.actual|);
  }

  lemma {:induction false} RecallShare(t: Trajectory)
    requires t.expected != []
    ensures Recall(t) * |t.expected| as real == |Shared(t.expected, t.actual)| as real
  {
    ShareOf(|Shared(t.expected, t.actual)|, |t.expected|);
  }

  /** Precision is the share of what ran that was expected, recall the share of
      what was expected that ran. */
  lemma {:induction false} SharesOfHits(t: Trajectory)
    ensures t.actual != [] ==> Precision(t) * |t.actual| as real == Hits(t.actual, t.expected) as real
    ensures t.expected != [] ==> Recall(t) * |t.expected| as real == Hits(t.expected, t.actual) as real
    ensures (t.actual == [] ==> Precision(t) == 0.0) && (t.expected == [] ==> Recall(t) == 1.0)
  {
    SharedHits(t.actual, t.expected);
    SharedHits(t.expected, t.actual);
    if t.actual != [] {
      PrecisionShare(t);
    }
    if t.expected != [] {
      RecallShare(t);
    }
  }

  lemma ShareOf(part: nat, whole: nat)
    requires whole > 0
    ensures part as real / whole as real * whole as real == part as real
  {
  }

  /** x comes before y. */
  ghost predicate Precedes(xs: seq<string>, x: string, y: string) {
    exists i, j :: 0 <= i < j < |xs| && xs[i] == x && xs[j] == y
  }

  lemma {:induction false} SharedKeepsOrder(xs: seq<string>, ys: seq<string>)
    requires Distinct(xs)
    ensures Distinct(Shared(xs, ys))
    ensures forall x :: x in Shared(xs, ys) <==> x in xs && x in ys
    ensures forall x, y :: Precedes(Shared(xs, ys), x, y) <==> Precedes(xs, x, y) && x in ys && y in ys
    decreases |xs|
  {
    if xs != [] {
      var n := |xs| - 1;
      SharedKeepsOrder(xs[..n], ys);
      var front := Shared(xs[..n], ys);
      assert xs == xs[..n] + [xs[n]];
      assert Shared(xs, ys) == if xs[n] in ys then front + [xs[n]] else front;
      forall x, y ensures Precedes(Shared(xs, ys), x, y) <==> Precedes(xs, x, y) && x in ys && y in ys {
        PrecedesSnoc(xs[..n], xs[n], x, y);
        PrecedesSnoc(front, xs[n], x, y);
        assert Precedes(front, x, y) <==> Precedes(xs[..n], x, y) && x in ys && y in ys;
      }
    }
  }

  lemma PrecedesSnoc(xs: seq<string>, z: string, x: string, y: string)
    ensures Precedes(xs + [z], x, y) <==> Precedes(xs, x, y) || (y == z && x in xs)
  {
    var all := xs + [z];
    if Precedes(xs, x, y) {
      var i, j :| 0 <= i < j < |xs| && xs[i] == x && xs[j] == y;
      assert all[i] == x && all[j] == y;
    }
    if y == z && x in xs {
      var i :| 0 <= i < |xs| && xs[i] == x;
      assert all[i] == x && all[|xs|] == y;
    }
    if Precedes(all, x, y) {
      var i, j :| 0 <= i < j < |all| && all[i] == x && all[j] == y;
      assert xs[i] == x;
      if j < |xs| {
        assert xs[j] == y;
      }
    }
  }

  lemma {:induction false} SameOrderSame(xs: seq<string>, ys: seq<string>)
    requires Distinct(xs) && Distinct(ys) && forall x :: x in xs <==> x in ys
    requires forall x, y :: Precedes(xs, x, y) ==> Precedes(ys, x, y)
    ensures xs == ys
    decreases |xs|
  {
    if xs == [] {
      if ys != [] {
        HeadIsIn(ys);
      }
    } else {
      LastIsLast(xs, ys);
      var m, n := |xs| - 1, |ys| - 1;
      assert xs == xs[..m] + [xs[m]] && ys == ys[..n] + [ys[n]];
      forall x ensures x in xs[..m] <==> x in ys[..n] {
        assert x in xs[..m] <==> x in xs && x != xs[m];
        assert x in ys[..n] <==> x in ys && x != ys[n];
      }
      forall x, y | Precedes(xs[..m], x, y) ensures Precedes(ys[..n], x, y) {
        PrecedesSnoc(xs[..m], xs[m], x, y);
        PrecedesSnoc(ys[..n], ys[n], x, y);
        assert y in xs[..m];
      }
      SameOrderSame(xs[..m], ys[..n]);
    }
  }

  lemma HeadIsIn(xs: seq<string>)
    requires xs != []
    ensures xs[0] in xs
  {
  }

  lemma LastIsLast(xs: seq<string>, ys: seq<string>)
    requires xs != [] && Distinct(xs) && Distinct(ys) && forall x :: x in xs <==> x in ys
    requires forall x, y :: Precedes(xs, x, y) ==> Precedes(ys, x, y)
    ensures ys != [] && ys[|ys| - 1] == xs[|xs| - 1]
  {
    var m := |xs| - 1;
    assert xs[m] in ys;
    var k :| 0 <= k < |ys| && ys[k] == xs[m];
    var y := ys[|ys| - 1];
    assert y in xs;
    var i :| 0 <= i < |xs| && xs[i] == y;
    NothingAfterLast(ys, xs[m]);
    var x := xs[m];
    assert i < m ==> Precedes(xs, y, x);
  }

  lemma NothingAfterLast(xs: seq<string>, x: string)
    requires xs != [] && Distinct(xs)
    ensures !Precedes(xs, xs[|xs| - 1], x)
  {
  }

  /** Without repeats the order is correct exactly when any two shared tools
      ran in the expected order, whatever ran or was expected besides. */
  lemma {:induction false} OrderCorrectIff(t: Trajectory)
    requires Distinct(t.expected) && Distinct(t.actual)
    ensures OrderCorrect(t) <==>
              forall x, y :: Precedes(t.expected, x, y) && x in t.actual && y in t.actual ==> Precedes(t.actual, x, y)
  {
    var e, a := Shared(t.expected, t.actual), Shared(t.actual, t.expected);
    SharedKeepsOrder(t.expected, t.actual);
    SharedKeepsOrder(t.actual, t.expected);
    if forall x, y :: Precedes(t.expected, x, y) && x in t.actual && y in t.actual ==> Precedes(t.actual, x, y) {
      forall x, y | Precedes(e, x, y) ensures Precedes(a, x, y) {
        var i, j :| 0 <= i < j < |e| && e[i] == x && e[j] == y;
        assert x in e && y in e;
      }
      SameOrderSame(e, a);
    }
  }

  /** Some tool is in both. */
  ghost predicate Overlap(t: Trajectory) {
    exists x :: x in t.actual && x in t.expected
  }

  lemma Fraction(part: real, whole: real)
    requires 0.0 <= part <= whole && whole > 0.0
    ensures 0.0 <= part / whole <= 1.0
    ensures part / whole == 0.0 <==> part == 0.0
    ensures part / whole == 1.0 <==> part == whole
  {
  }

  /** Precision is 0 exactly without overlap, recall when moreover something
      was expected; each is 1 exactly when nothing is superfluous, or missing. */
  lemma PrecisionAndRecall(t: Trajectory)
    ensures 0.0 <= Precision(t) <= 1.0 && 0.0 <= Recall(t) <= 1.0
    ensures Precision(t) == 0.0 <==> !Overlap(t)
    ensures Recall(t) == 0.0 <==> t.expected != [] && !Overlap(t)
    ensures Precision(t) == 1.0 <==> t.actual != [] && forall x :: x in t.actual ==> x in t.expected
    ensures Recall(t) == 1.0 <==> forall x :: x in t.expected ==> x in t.actual
  {
    SharedContents(t.actual, t.expected);
    SharedContents(t.expected, t.actual);
    if t.actual != [] {
      assert t.actual[0] in t.actual;
      Fraction(|Shared(t.actual, t.expected)| as real, |t.actual| as real);
    }
    if t.expected != [] {
      assert t.expected[0] in t.expected;
      Fraction(|Shared(t.expected, t.actual)| as real, |t.expected| as real);
    }
  }

  lemma ProductSign(a: real, b: real)
    requires a >= 0.0 && b >= 0.0
    ensures a * b >= 0.0
    ensures a > 0.0 && b > 0.0 ==> a * b > 0.0
  {
  }

  lemma CancelFactor(a: real, b: real, c: real)
    requires c > 0.0 && a * c <= b * c
    ensures a <= b
  {
    if a > b {
      ProductSign(a - b, c);
    }
  }

  lemma HarmonicOrdered(p: real, r: real)
    requires 0.0 < p <= r
    ensures p <= Harmonic(p, r) <= r
  {
    var h := Harmonic(p, r);
    assert h * (p + r) == 2.0 * p * r;
    ProductSign(p, r - p);
    ProductSign(r, r - p);
    assert p * (r - p) == p * r - p * p;
    assert r * (r - p) == r * r - p * r;
    assert p * (p + r) == p * p + p * r;
    assert r * (p + r) == p * r + r * r;
    CancelFactor(p, h, p + r);
    CancelFactor(h, r, p + r);
  }

  lemma HarmonicSwap(p: real, r: real)
    ensures Harmonic(p, r) == Harmonic(r, p)
  {
    assert 2.0 * p * r == 2.0 * r * p;
  }

  lemma HarmonicOne(p: real, r: real)
    requires 0.0 <= p <= 1.0 && 0.0 <= r <= 1.0
    ensures Harmonic(p, r) == 1.0 <==> p == 1.0 && r == 1.0
  {
    if Harmonic(p, r) == 1.0 {
      assert 2.0 * p * r == p + r;
      var pr := p * r;
      assert 2.0 * p * r == 2.0 * pr;
      var a, b := 1.0 - r, 1.0 - p;
      ProductSign(p, a);
      ProductSign(r, b);
      assert p * a == p - pr && r * b == r - pr;
      assert p > 0.0 && r > 0.0 && p * a == 0.0 && r * b == 0.0;
    }
  }

  /** The harmonic mean lies between its arguments, and is 0 if one is. */
  lemma HarmonicMean(p: real, r: real)
    requires 0.0 <= p && 0.0 <= r
    ensures p <= r ==> p <= Harmonic(p, r) <= r
    ensures r <= p ==> r <= Harmonic(p, r) <= p
    ensures Harmonic(p, r) == 0.0 <==> p == 0.0 || r == 0.0
  {
    HarmonicSwap(p, r);
    if p == 0.0 || r == 0.0 {
      assert Harmonic(p, r) == 0.0;
    } else if p <= r {
      HarmonicOrdered(p, r);
    } else {
      HarmonicOrdered(r, p);
    }
  }

  lemma F1Between(t: Trajectory)
    ensures 0.0 <= F1(t) <= 1.0
    ensures Precision(t) <= Recall(t) ==> Precision(t) <= F1(t) <= Recall(t)
    ensures Recall(t) <= Precision(t) ==> Recall(t) <= F1(t) <= Precision(t)
    ensures F1(t) == 0.0 <==> !Overlap(t)
  {
    PrecisionAndRecall(t);
    HarmonicMean(Precision(t), Recall(t));
  }

  /** F1 is the harmonic mean: its reciprocal is the mean of theirs. */
  lemma F1Reciprocal(t: Trajectory)
    requires Precision(t) != 0.0 && Recall(t) != 0.0
    ensures F1(t) * (1.0 / Precision(t) + 1.0 / Recall(t)) == 2.0
  {
    PrecisionAndRecall(t);
    HarmonicReciprocal(Precision(t), Recall(t));
  }

  lemma HarmonicReciprocal(p: real, r: real)
    requires p > 0.0 && r > 0.0
    ensures Harmonic(p, r) * (1.0 / p + 1.0 / r) == 2.0
  {
    var h, x, y := Harmonic(p, r), 1.0 / p, 1.0 / r;
    assert h * (p + r) == 2.0 * p * r;
    assert x * p == 1.0 && y * r == 1.0;
    assert (p + r) * (x * y) == p * x * y + r * y * x == x + y;
    assert h * (x + y) == h * (p + r) * (x * y) == 2.0 * (p * x) * (r * y);
  }

  /** F1 is 1 exactly when something ran and the tools are the same, in
      whatever order and number. */
  lemma F1OneIff(t: Trajectory)
    ensures F1(t) == 1.0 <==> t.actual != [] && forall x :: x in t.actual <==> x in t.expected
  {
    PrecisionAndRecall(t);
    HarmonicOne(Precision(t), Recall(t));
  }

  /** Both scores are perfect exactly when the run did what was expected. */
  lemma PerfectIff(t: Trajectory)
    ensures F1(t) == 1.0 && OrderCorrect(t) <==> t.actual == t.expected && t.actual != []
  {
    F1OneIff(t);
    SharedContents(t.actual, t.expected);
    SharedContents(t.expected, t.actual);
  }

  // ------------------------------------------------ a run against its plan

  lemma {:induction false} ShapesAt(trace: seq<TraceEntry>, i: nat)
    requires i < |trace|
    ensures |Shapes(trace)| == |trace| && Shapes(trace)[i].tool == trace[i].toolName
    decreases |trace|
  {
    var n := |trace| - 1;
    if i < n {
      ShapesAt(trace[..n], i);
    } else {
      ShapesLength(trace[..n]);
    }
  }

  lemma {:induction false} ExpandUngated(reg: Registry, plan: seq<string>, k: nat)
    requires k <= |plan|
    requires forall i :: 0 <= i < k ==> plan[i] in reg && !Gated(reg, plan[i])
    ensures |Expand(reg, plan[..k])| == k
    ensures forall i :: 0 <= i < k ==> Expand(reg, plan[..k])[i].tool == plan[i]
    decreases k
  {
    if k > 0 {
      ExpandSnoc(reg, plan, k - 1);
      ExpandUngated(reg, plan, k - 1);
    }
  }

  lemma NamesFollow(trace: seq<TraceEntry>, plan: seq<string>)
    requires |Shapes(trace)| <= |plan|
    requires forall i :: 0 <= i < |Shapes(trace)| ==> Shapes(trace)[i].tool == plan[i]
    ensures ToolNames(trace) <= plan && |trace| == |Shapes(trace)|
  {
    ShapesLength(trace);
    forall i | 0 <= i < |trace| ensures ToolNames(trace)[i] == plan[i] {
      ShapesAt(trace, i);
    }
  }

  lemma UngatedPrefix(reg: Registry, plan: seq<string>, k: nat, trace: seq<TraceEntry>, atGate: bool)
    requires FollowsPlan(reg, plan, k, trace, atGate)
    requires forall i :: 0 <= i < k ==> !Gated(reg, plan[i])
    ensures ToolNames(trace) <= plan && |trace| == k + if atGate then 1 else 0
  {
    ExpandUngated(reg, plan, k);
    NamesFollow(trace, plan);
  }

  /** The tools an invoke records are the first tools of the plan. */
  lemma InvokeRecordsPrefix(cfg: Config, q: Request, d: Dispatcher)
    requires Invoke(cfg, q, d).Some?
    ensures var f := Invoke(cfg, q, d).value;
            && ToolNames(f.trace) <= f.plan
            && |f.trace| == f.currentStep + if f.status == ApprovalRequired then 1 else 0
  {
    InvokeEnded(cfg, q, d);
    InvokeStopsAtGate(cfg, q, d);
    var f := Invoke(cfg, q, d).value;
    UngatedPrefix(cfg.registry, f.plan, f.currentStep, f.trace, AtGate(f));
  }

  /** When the only gate of a plan is its last tool, a run scores perfectly
      against its own plan exactly when it got to the gate or to the end. */
  lemma OwnPlanPerfectIff(cfg: Config, q: Request, d: Dispatcher)
    requires Invoke(cfg, q, d).Some? && GateOnlyLast(cfg.registry, Planner(cfg, q).value.plan)
    ensures var f := Invoke(cfg, q, d).value;
            var t := Trajectory(Planner(cfg, q).value.plan, ToolNames(f.trace));
            F1(t) == 1.0 && OrderCorrect(t) <==>
            t.expected != [] && (f.status == ApprovalRequired || f.currentStep == |f.plan|)
  {
    InvokeEnded(cfg, q, d);
    InvokeRecordsPrefix(cfg, q, d);
    var f := Invoke(cfg, q, d).value;
    PerfectIff(Trajectory(f.plan, ToolNames(f.trace)));
  }

  // ------------------------------------------------------------ whole suites

  function P95Index(n: nat): nat {
    var idx := (n as real * 0.95).Floor - 1;
    if idx < 0 then 0 else idx
  }

  function P95Latency(latencies: seq<int>): real {
    if latencies == [] then 0.0
    else
      SortSorts(latencies);
      Sort(latencies)[P95Index(|latencies|)] as real
  }

  /** The reported latency is one of them; at least floor(0.95 n) are at most
      it, and at most floor(0.95 n) - 1 are below it, none if that is less. */
  lemma P95Covers(latencies: seq<int>)
    requires latencies != []
    ensures exists v :: v in latencies && P95Latency(latencies) == v as real &&
              AtMost(latencies, v) >= (|latencies| as real * 0.95).Floor &&
              (Below(latencies, v) == 0 || Below(latencies, v) <= (|latencies| as real * 0.95).Floor - 1)
  {
    OrderStatistic(latencies, P95Index(|latencies|));
  }

  function F1Sum(cases: seq<Trajectory>): real {
    if cases == [] then 0.0 else F1Sum(cases[..|cases| - 1]) + F1(cases[|cases| - 1])
  }

  function TrajectoryF1(cases: seq<Trajectory>): real {
    if cases == [] then 0.0 else F1Sum(cases) / |cases| as real
  }

  lemma {:induction false} F1SumBounds(cases: seq<Trajectory>)
    ensures 0.0 <= F1Sum(cases) <= |cases| as real
    ensures F1Sum(cases) == |cases| as real <==> forall r :: r in cases ==> F1(r) == 1.0
    decreases |cases|
  {
    if cases != [] {
      var n := |cases| - 1;
      F1SumBounds(cases[..n]);
      F1Between(cases[n]);
      assert forall r :: r in cases <==> r in cases[..n] || r == cases[n];
    }
  }

  /** The suite's F1 is the mean: one more case adds its own. */
  lemma {:induction false} SuiteF1Adds(cases: seq<Trajectory>, t: Trajectory)
    ensures TrajectoryF1(cases + [t]) * (|cases| + 1) as real == TrajectoryF1(cases) * |cases| as real + F1(t)
  {
    assert (cases + [t])[..|cases|] == cases;
    MeanBack(F1Sum(cases) + F1(t), |cases| + 1);
    if cases != [] {
      MeanBack(F1Sum(cases), |cases|);
    }
  }

  lemma MeanBack(sum: real, n: nat)
    requires n > 0
    ensures sum / n as real * n as real == sum
  {
  }

  /** The suite's F1 is a fraction, and 1 exactly when every case's is. */
  lemma SuiteF1(cases: seq<Trajectory>)
    ensures 0.0 <= TrajectoryF1(cases) <= 1.0
    ensures TrajectoryF1(cases) == 1.0 <==> cases != [] && forall r :: r in cases ==> F1(r) == 1.0
  {
    F1SumBounds(cases);
    if cases != [] {
      Fraction(F1Sum(cases), |cases| as real);
    }
  }
}
