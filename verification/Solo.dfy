/** A job that nobody disturbs persists its result as one unit. */
module Solo {
  import opened Prelude
  import opened Nodes
  import opened RunGraph
  import opened Tables
  import opened Protocol

  /** The state after some more labels. */
  function After(cfg: Config, s: System, labels: seq<Label>): System {
    if labels == [] then s
    else Step(cfg, After(cfg, s, labels[..|labels| - 1]), labels[|labels| - 1])
  }

  lemma {:induction false} HistoryAfter(cfg: Config, before: seq<Label>, labels: seq<Label>)
    ensures History(cfg, before + labels) == After(cfg, History(cfg, before), labels)
    decreases |labels|
  {
    if labels == [] {
      assert before + labels == before;
    } else {
      var n := |labels| - 1;
      assert (before + labels)[..|before + labels| - 1] == before + labels[..n];
      HistoryAfter(cfg, before, labels[..n]);
    }
  }

  lemma HistorySnoc(cfg: Config, labels: seq<Label>, l: Label)
    ensures History(cfg, labels + [l]) == Step(cfg, History(cfg, labels), l)
  {
    assert (labels + [l])[..|labels|] == labels;
  }

  lemma AfterSnoc(cfg: Config, s: System, labels: seq<Label>, l: Label)
    ensures After(cfg, s, labels + [l]) == Step(cfg, After(cfg, s, labels), l)
  {
    assert (labels + [l])[..|labels|] == labels;
  }

  lemma After1(cfg: Config, s: System, a: Label)
    ensures After(cfg, s, [a]) == Step(cfg, s, a)
  {
    AfterSnoc(cfg, s, [], a);
    assert [] + [a] == [a];
  }

  lemma After2(cfg: Config, s: System, a: Label, b: Label)
    ensures After(cfg, s, [a, b]) == Step(cfg, Step(cfg, s, a), b)
  {
    After1(cfg, s, a);
    AfterSnoc(cfg, s, [a], b);
    assert [a] + [b] == [a, b];
  }

  lemma After3(cfg: Config, s: System, a: Label, b: Label, c: Label)
    ensures After(cfg, s, [a, b, c]) == Step(cfg, Step(cfg, Step(cfg, s, a), b), c)
  {
    After2(cfg, s, a, b);
    AfterSnoc(cfg, s, [a, b], c);
    assert [a, b] + [c] == [a, b, c];
  }

  function Appends(j: JobId, n: nat): seq<Label> {
    seq(n, _ => Append(j))
  }

  /** The entry once the job's remaining rows are in and its result is saved. */
  function PersistEntry(e: RunEntry, j: JobId, job: Job, final: RunState, from: nat): RunEntry
    requires from <= |final.trace|
  {
    e.(steps := e.steps + StepsOf(final.trace[from..]),
       authors := e.authors + seq(|final.trace| - from, _ => j),
       row := SaveRow(e.row, final, |final.trace|),
       lineage := job.lineage)
  }

  ghost predicate PersistsFrom(s: System, j: JobId, final: RunState, next: nat) {
    j in s.jobs && s.jobs[j].run in s.runs && s.jobs[j].phase == Persisting(final, next) && next <= |final.trace|
  }

  /** The state in which the job's next n rows are in. */
  function Appended(s: System, j: JobId, final: RunState, next: nat, n: nat): System
    requires j in s.jobs && s.jobs[j].run in s.runs && next + n <= |final.trace|
  {
    var e := s.runs[s.jobs[j].run];
    WithJob(s, j, Persisting(final, next + n)).(runs := s.runs[s.jobs[j].run :=
      e.(steps := e.steps + StepsOf(final.trace[next..next + n]), authors := e.authors + seq(n, _ => j))])
  }

  lemma AppendOnce(s: System, j: JobId, final: RunState, next: nat, n: nat)
    requires PersistsFrom(s, j, final, next) && next + n < |final.trace|
    ensures AppendStep(Appended(s, j, final, next, n), j) == Appended(s, j, final, next, n + 1)
  {
    var e := s.runs[s.jobs[j].run];
    var m := next + n;
    assert StepsOf(final.trace[next..m]) + [StepOf(final.trace[m])] == StepsOf(final.trace[next..m + 1]);
    assert e.steps + StepsOf(final.trace[next..m]) + [StepOf(final.trace[m])] == e.steps + StepsOf(final.trace[next..m + 1]);
    assert e.authors + seq(n, _ => j) + [j] == e.authors + seq(n + 1, _ => j);
  }

  lemma {:induction false} SoloAppends(cfg: Config, s: System, j: JobId, final: RunState, next: nat, n: nat)
    requires PersistsFrom(s, j, final, next) && next + n <= |final.trace|
    ensures After(cfg, s, Appends(j, n)) == Appended(s, j, final, next, n)
    decreases n
  {
    if n == 0 {
      var e := s.runs[s.jobs[j].run];
      assert Appends(j, 0) == [];
      assert e.steps + StepsOf(final.trace[next..next]) == e.steps;
      assert e.authors + seq(0, _ => j) == e.authors;
      assert Appended(s, j, final, next, 0) == s;
    } else {
      SoloAppends(cfg, s, j, final, next, n - 1);
      assert Appends(j, n)[..n - 1] == Appends(j, n - 1);
      AppendOnce(s, j, final, next, n - 1);
    }
  }

  /** Left alone, the statements of a persist add up to one update. */
  lemma {:induction false} SoloPersist(cfg: Config, s: System, j: JobId, final: RunState, next: nat)
    requires PersistsFrom(s, j, final, next)
    ensures var s' := After(cfg, s, Appends(j, |final.trace| - next) + [Save(j)]);
            && s'.runs == s.runs[s.jobs[j].run := PersistEntry(s.runs[s.jobs[j].run], j, s.jobs[j], final, next)]
            && s'.jobs == s.jobs[j := s.jobs[j].(phase := Saved(final))]
            && s'.now == s.now && s'.approvals == s.approvals && s'.nextJob == s.nextJob
  {
    var n := |final.trace| - next;
    SoloAppends(cfg, s, j, final, next, n);
    AfterSnoc(cfg, s, Appends(j, n), Save(j));
    assert final.trace[next..next + n] == final.trace[next..];
  }

  lemma {:induction false} AfterConcat(cfg: Config, s: System, a: seq<Label>, b: seq<Label>)
    ensures After(cfg, s, a + b) == After(cfg, After(cfg, s, a), b)
    decreases |b|
  {
    if b == [] {
      assert a + b == a;
    } else {
      var n := |b| - 1;
      assert (a + b)[..|a + b| - 1] == a + b[..n];
      AfterConcat(cfg, s, a, b[..n]);
    }
  }

  /** The result of resuming from the checkpoint in a row. */
  function ResumedState(cfg: Config, row: Row, order: Order, tools: Dispatcher): Option<RunState>
    requires row.checkpoint.Some?
  {
    match Resume(cfg.registry, row.checkpoint.value.state, order.decision, tools)
    case None => None
    case Some(final) => Some(Annotate(final, order))
  }
}
