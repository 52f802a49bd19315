/** Nothing a checkpoint records is missing from run_steps: under every
    interleaving, the rows written by the jobs a checkpoint descends from are
    exactly its trace, in order. */
module Lineage {
  import opened Prelude
  import opened Nodes
  import opened Tables
  import opened Protocol
  import opened ProtocolSafety

  /** The trace entries of the rows written by the given jobs, in order. */
  ghost function RowsBy(steps: seq<StepRow>, authors: seq<JobId>, family: set<JobId>): seq<TraceEntry>
    requires |steps| == |authors|
  {
    if steps == [] then []
    else
      var n := |steps| - 1;
      RowsBy(steps[..n], authors[..n], family) + if authors[n] in family then [steps[n].output] else []
  }

  function Outputs(steps: seq<StepRow>): seq<TraceEntry> {
    seq(|steps|, i requires 0 <= i < |steps| => steps[i].output)
  }

  lemma RowsBySnoc(steps: seq<StepRow>, authors: seq<JobId>, row: StepRow, author: JobId, family: set<JobId>)
    requires |steps| == |authors|
    ensures RowsBy(steps + [row], authors + [author], family) ==
              RowsBy(steps, authors, family) + if author in family then [row.output] else []
  {
    assert (steps + [row])[..|steps|] == steps && (authors + [author])[..|authors|] == authors;
  }

  lemma {:induction false} RowsByNobody(steps: seq<StepRow>, authors: seq<JobId>, family: set<JobId>)
    requires |steps| == |authors|
    requires forall i :: 0 <= i < |authors| ==> authors[i] !in family
    ensures RowsBy(steps, authors, family) == []
    decreases |steps|
  {
    if steps != [] {
      RowsByNobody(steps[..|steps| - 1], authors[..|steps| - 1], family);
    }
  }

  /** A job that wrote nothing adds nothing. */
  lemma {:induction false} RowsByNewcomer(steps: seq<StepRow>, authors: seq<JobId>, family: set<JobId>, j: JobId)
    requires |steps| == |authors|
    requires forall i :: 0 <= i < |authors| ==> authors[i] != j
    ensures RowsBy(steps, authors, family + {j}) == RowsBy(steps, authors, family)
    decreases |steps|
  {
    if steps != [] {
      RowsByNewcomer(steps[..|steps| - 1], authors[..|steps| - 1], family, j);
    }
  }

  /** The selected rows are all rows exactly when every author is selected. */
  lemma {:induction false} RowsByAll(steps: seq<StepRow>, authors: seq<JobId>, family: set<JobId>)
    requires |steps| == |authors|
    ensures |RowsBy(steps, authors, family)| <= |steps|
    ensures RowsBy(steps, authors, family) == Outputs(steps) <==> forall i :: 0 <= i < |authors| ==> authors[i] in family
    decreases |steps|
  {
    if steps != [] {
      var n := |steps| - 1;
      RowsByAll(steps[..n], authors[..n], family);
      assert Outputs(steps) == Outputs(steps[..n]) + [steps[n].output];
      var front := RowsBy(steps[..n], authors[..n], family);
      if authors[n] in family {
        if front + [steps[n].output] == Outputs(steps) {
          assert front == (front + [steps[n].output])[..n] == Outputs(steps[..n]);
        }
        forall i | 0 <= i < n && (forall k :: 0 <= k < n ==> authors[..n][k] in family) ensures authors[i] in family {
          assert authors[..n][i] == authors[i];
        }
      } else {
        assert |Outputs(steps)| == n + 1;
      }
    }
  }

  lemma SubsequenceRight<T>(xs: seq<T>, ys: seq<T>, y: T)
    requires Subsequence(xs, ys)
    ensures Subsequence(xs, ys + [y])
  {
    var at: seq<nat> :| Embeds(xs, ys, at);
    assert Embeds(xs, ys + [y], at);
  }

  lemma SubsequenceBoth<T>(xs: seq<T>, ys: seq<T>, y: T)
    requires Subsequence(xs, ys)
    ensures Subsequence(xs + [y], ys + [y])
  {
    var at: seq<nat> :| Embeds(xs, ys, at);
    assert Embeds(xs + [y], ys + [y], at + [|ys|]);
  }

  lemma {:induction false} RowsByEmbeds(steps: seq<StepRow>, authors: seq<JobId>, family: set<JobId>)
    requires |steps| == |authors|
    ensures Subsequence(RowsBy(steps, authors, family), Outputs(steps))
    decreases |steps|
  {
    if steps == [] {
      assert Embeds<TraceEntry>([], Outputs(steps), []);
    } else {
      var n := |steps| - 1;
      RowsByEmbeds(steps[..n], authors[..n], family);
      var front := RowsBy(steps[..n], authors[..n], family);
      assert Outputs(steps) == Outputs(steps[..n]) + [steps[n].output];
      if authors[n] in family {
        SubsequenceBoth(front, Outputs(steps[..n]), steps[n].output);
      } else {
        SubsequenceRight(front, Outputs(steps[..n]), steps[n].output);
        assert front + [] == front;
      }
    }
  }

  // ------------------------------------------------------------ the invariant

  /** The job will not write another step row. */
  ghost predicate DoneWriting(s: System, j: JobId) {
    j < s.nextJob && (j in s.jobs ==> s.jobs[j].phase.Saved? || s.jobs[j].phase.Approving?)
  }

  ghost predicate EntryInv(s: System, e: RunEntry) {
    && |e.steps| == |e.authors|
    && (forall i :: 0 <= i < |e.authors| ==> e.authors[i] < s.nextJob)
    && (forall i :: 0 <= i < |e.steps| ==> e.steps[i] == StepOf(e.steps[i].output))
    && (forall i :: i in e.lineage ==> DoneWriting(s, i))
    && (e.row.checkpoint.Some? ==>
          && e.row.checkpoint.value.persistedLen == |e.row.checkpoint.value.state.trace|
          && RowsBy(e.steps, e.authors, e.lineage) == e.row.checkpoint.value.state.trace)
  }

  /** What the job's lineage has written so far. */
  ghost function Written(job: Job): seq<TraceEntry> {
    match job.phase
    case Persisting(final, next) => if next <= |final.trace| then final.trace[..next] else final.trace
    case _ => if job.base.Some? then job.base.value.state.trace else []
  }

  ghost predicate JobInv(s: System, j: JobId, job: Job, e: RunEntry)
    requires |e.steps| == |e.authors|
  {
    && j < s.nextJob && j in job.lineage
    && (forall i :: i in job.lineage && i != j ==> DoneWriting(s, i))
    && (job.base.Some? ==> job.base.value.persistedLen == |job.base.value.state.trace|)
    && (job.phase.Persisting? ==> job.phase.next <= |job.phase.final.trace|)
    && (!job.phase.Saved? && !job.phase.Approving? ==> RowsBy(e.steps, e.authors, job.lineage) == Written(job))
  }

  ghost predicate LineageInv(s: System) {
    && (forall r :: r in s.runs ==> EntryInv(s, s.runs[r]))
    && (forall j :: j in s.jobs ==> s.jobs[j].run in s.runs && JobInv(s, j, s.jobs[j], s.runs[s.jobs[j].run]))
  }

  ghost predicate SameRecord(e: RunEntry, e': RunEntry) {
    e'.steps == e.steps && e'.authors == e.authors && e'.lineage == e.lineage && e'.row.checkpoint == e.row.checkpoint
  }

  /** Nobody starts to write again. */
  ghost predicate StaysDone(s: System, s': System) {
    s.nextJob <= s'.nextJob && forall i :: DoneWriting(s, i) ==> DoneWriting(s', i)
  }

  lemma JobFrame(s: System, s': System, j: JobId, job: Job, e: RunEntry, e': RunEntry)
    requires StaysDone(s, s') && SameRecord(e, e') && |e.steps| == |e.authors| && JobInv(s, j, job, e)
    ensures JobInv(s', j, job, e')
  {
  }

  /** A step that writes no record and leaves every job alone but `mine`. */
  lemma Frame(s: System, s': System, mine: JobId)
    requires LineageInv(s) && StaysDone(s, s')
    requires s'.runs.Keys == s.runs.Keys && forall r :: r in s.runs ==> SameRecord(s.runs[r], s'.runs[r])
    requires forall k :: k in s'.jobs && k != mine ==> k in s.jobs && s'.jobs[k] == s.jobs[k]
    requires mine in s'.jobs ==>
               && s'.jobs[mine].run in s.runs
               && JobInv(s', mine, s'.jobs[mine], s.runs[s'.jobs[mine].run])
    ensures LineageInv(s')
  {
    forall k | k in s'.jobs ensures s'.jobs[k].run in s'.runs && JobInv(s', k, s'.jobs[k], s'.runs[s'.jobs[k].run]) {
      var r := s'.jobs[k].run;
      if k == mine {
        assert SameRecord(s.runs[r], s'.runs[r]);
      } else {
        JobFrame(s, s', k, s.jobs[k], s.runs[r], s'.runs[r]);
      }
    }
  }

  lemma ClaimLineage(s: System, r: RunId, worker: WorkerId, lease: int)
    requires QueueInv(s) && LineageInv(s)
    ensures LineageInv(ClaimStep(s, r, worker, lease))
  {
    var s' := ClaimStep(s, r, worker, lease);
    if r in s.runs && s.runs[r].row.status == Pending {
      RowsByNobody(s.runs[r].steps, s.runs[r].authors, {s.nextJob});
      assert s.runs[r].row.checkpoint == None;
      assert JobInv(s', s.nextJob, s'.jobs[s.nextJob], s.runs[r]);
      Frame(s, s', s.nextJob);
    }
  }

  lemma OpenLineage(s: System, r: RunId, approval: Option<nat>, order: Order)
    requires QueueInv(s) && LineageInv(s)
    ensures LineageInv(OpenStep(s, r, approval, order))
  {
    var s' := OpenStep(s, r, approval, order);
    if CanOpen(s, r, approval) {
      RowsByNewcomer(s.runs[r].steps, s.runs[r].authors, s.runs[r].lineage, s.nextJob);
      Frame(s, s', s.nextJob);
    }
  }

  lemma ReleaseLineage(s: System)
    requires LineageInv(s)
    ensures LineageInv(ReleaseStep(s))
  {
    Frame(s, ReleaseStep(s), s.nextJob);
  }

  lemma {:induction false} RenewLineage(s: System, j: JobId, lease: int)
    requires LineageInv(s)
    ensures LineageInv(RenewStep(s, j, lease))
  {
    Frame(s, RenewStep(s, j, lease), s.nextJob);
  }

  lemma FinishLineage(s: System, j: JobId)
    requires LineageInv(s)
    ensures LineageInv(Finish(s, j))
  {
    Frame(s, Finish(s, j), j);
  }

  lemma {:induction false} RaiseLineage(s: System, j: JobId)
    requires LineageInv(s)
    ensures LineageInv(RaiseStep(s, j))
  {
    if j in s.jobs && s.jobs[j].run in s.runs {
      Frame(s, RaiseStep(s, j), j);
    }
  }

  /** What Execute starts to persist continues what the lineage wrote. */
  lemma {:induction false} ExecuteStarts(cfg: Config, s: System, j: JobId, tools: Dispatcher)
    requires QueueInv(s) && LineageInv(s)
    requires j in s.jobs && ReadyToExecute(s.jobs[j]) && GraphResult(cfg, s.jobs[j], tools).Some?
    ensures var final := GraphResult(cfg, s.jobs[j], tools).value;
            var from := PersistedLen(s.jobs[j].base);
            from <= |final.trace| && final.trace[..from] == Written(s.jobs[j])
  {
    GraphSettles(cfg, s.jobs[j], tools);
  }

  lemma PersistLineage(s: System, j: JobId, final: RunState)
    requires LineageInv(s) && j in s.jobs && ReadyToExecute(s.jobs[j])
    requires var from := PersistedLen(s.jobs[j].base);
             from <= |final.trace| && final.trace[..from] == Written(s.jobs[j])
    ensures LineageInv(WithJob(s, j, Persisting(final, PersistedLen(s.jobs[j].base))))
  {
    Frame(s, WithJob(s, j, Persisting(final, PersistedLen(s.jobs[j].base))), j);
  }

  lemma {:induction false} ExecuteLineage(cfg: Config, s: System, j: JobId, tools: Dispatcher)
    requires QueueInv(s) && LineageInv(s)
    ensures LineageInv(ExecuteStep(cfg, s, j, tools))
  {
    RaiseLineage(s, j);
    if j in s.jobs && ReadyToExecute(s.jobs[j]) && GraphResult(cfg, s.jobs[j], tools).Some? {
      ExecuteStarts(cfg, s, j, tools);
      var final := GraphResult(cfg, s.jobs[j], tools).value;
      PersistLineage(s, j, final);
    }
  }

  /** A row by j changes what j's own lineage wrote, and nobody else's. */
  lemma {:induction false} AppendLineage(s: System, j: JobId)
    requires LineageInv(s)
    ensures LineageInv(AppendStep(s, j))
  {
    var s' := AppendStep(s, j);
    if s' != s {
      var r := s.jobs[j].run;
      AppendEntry(s, j);
      assert StaysDone(s, s');
      forall k | k in s'.jobs ensures s'.jobs[k].run in s'.runs && JobInv(s', k, s'.jobs[k], s'.runs[s'.jobs[k].run]) {
        if s.jobs[k].run == r {
          AppendJob(s, j, k);
        } else {
          JobFrame(s, s', k, s.jobs[k], s.runs[s.jobs[k].run], s'.runs[s.jobs[k].run]);
        }
      }
    }
  }

  lemma AppendEntry(s: System, j: JobId)
    requires LineageInv(s) && AppendStep(s, j) != s
    ensures var s' := AppendStep(s, j);
            StaysDone(s, s') && forall r :: r in s'.runs ==> EntryInv(s', s'.runs[r])
  {
    var job := s.jobs[j];
    var e := s.runs[job.run];
    RowsBySnoc(e.steps, e.authors, StepOf(job.phase.final.trace[job.phase.next]), j, e.lineage);
    assert !DoneWriting(s, j);
  }

  lemma AppendJob(s: System, j: JobId, k: JobId)
    requires LineageInv(s) && AppendStep(s, j) != s
    requires k in s.jobs && s.jobs[k].run == s.jobs[j].run
    requires StaysDone(s, AppendStep(s, j))
    ensures var s' := AppendStep(s, j); var e := s'.runs[s.jobs[j].run];
            |e.steps| == |e.authors| && JobInv(s', k, s'.jobs[k], e)
  {
    var job := s.jobs[j];
    var e := s.runs[job.run];
    var x := job.phase.final.trace[job.phase.next];
    RowsBySnoc(e.steps, e.authors, StepOf(x), j, s.jobs[k].lineage);
    assert !DoneWriting(s, j);
    if k == j {
      assert job.phase.final.trace[..job.phase.next] + [x] == job.phase.final.trace[..job.phase.next + 1];
    }
  }

  lemma {:induction false} SaveLineage(s: System, j: JobId)
    requires LineageInv(s)
    ensures LineageInv(SaveStep(s, j))
  {
    var s' := SaveStep(s, j);
    if s' != s {
      SaveEntry(s, j);
      var r := s.jobs[j].run;
      forall k | k in s'.jobs ensures s'.jobs[k].run in s'.runs && JobInv(s', k, s'.jobs[k], s'.runs[s'.jobs[k].run]) {
        assert JobInv(s, k, s.jobs[k], s.runs[s.jobs[k].run]);
        SaveOther(s, s', k, s'.jobs[k], s.runs[s.jobs[k].run], s'.runs[s.jobs[k].run]);
      }
    }
  }

  /** The saved checkpoint and its lineage, and all other entries. */
  lemma SaveEntry(s: System, j: JobId)
    requires LineageInv(s) && SaveStep(s, j) != s
    ensures var s' := SaveStep(s, j);
            StaysDone(s, s') && forall r :: r in s'.runs ==> EntryInv(s', s'.runs[r])
  {
    var final := s.jobs[j].phase.final;
    assert final.trace[..|final.trace|] == final.trace;
    assert JobInv(s, j, s.jobs[j], s.runs[s.jobs[j].run]);
  }

  lemma SaveOther(s: System, s': System, k: JobId, job: Job, e: RunEntry, e': RunEntry)
    requires StaysDone(s, s') && e'.steps == e.steps && e'.authors == e.authors && |e.steps| == |e.authors|
    requires k in s.jobs && JobInv(s, k, s.jobs[k], e)
    requires job == s.jobs[k] || (job.phase.Saved? && job == s.jobs[k].(phase := job.phase))
    ensures JobInv(s', k, job, e')
  {
  }

  lemma ListLineage(s: System, j: JobId)
    requires LineageInv(s)
    ensures LineageInv(ListStep(s, j))
  {
    if j in s.jobs && s.jobs[j].phase.Opened? {
      Frame(s, ListStep(s, j), j);
    }
  }

  lemma DecideLineage(s: System, j: JobId)
    requires LineageInv(s)
    ensures LineageInv(DecideStep(s, j))
  {
    if CanDecide(s, j) {
      Frame(s, DecideStep(s, j), j);
    }
  }

  lemma {:induction false} CheckLineage(s: System, j: JobId)
    requires LineageInv(s)
    ensures LineageInv(CheckStep(s, j))
  {
    if j in s.jobs && s.jobs[j].phase.Saved? {
      Frame(s, CheckStep(s, j), j);
    }
  }

  lemma RequestLineage(s: System, j: JobId)
    requires LineageInv(s)
    ensures LineageInv(RequestStep(s, j))
  {
    if j in s.jobs && s.jobs[j].phase.Approving? {
      Frame(s, RequestStep(s, j), j);
    }
  }

  lemma CreateLineage(s: System, run: RunId, key: string, vertical: Option<string>)
    requires LineageInv(s)
    ensures LineageInv(CreateStep(s, run, key, vertical))
  {
  }

  lemma TickLineage(s: System, seconds: nat)
    requires LineageInv(s)
    ensures LineageInv(s.(now := s.now + seconds))
  {
    Frame(s, s.(now := s.now + seconds), s.nextJob);
  }

  lemma QueueStepKeepsLineage(cfg: Config, s: System, l: Label)
    requires QueueInv(s) && LineageInv(s)
    requires l.Create? || l.Tick? || l.ReleaseStale? || l.Claim? || l.Renew? || l.OpenResume? || l.Raise? || l.Crash?
    ensures LineageInv(Step(cfg, s, l))
  {
    match l
    case Create(run, key, vertical) => CreateLineage(s, run, key, vertical);
    case Tick(seconds) => TickLineage(s, seconds);
    case ReleaseStale => ReleaseLineage(s);
    case Claim(run, worker, lease) => ClaimLineage(s, run, worker, lease);
    case Renew(j, lease) => RenewLineage(s, j, lease);
    case OpenResume(run, approval, order) => OpenLineage(s, run, approval, order);
    case Raise(j) => RaiseLineage(s, j);
    case Crash(j) => FinishLineage(s, j);
  }

  lemma {:induction false} JobStepKeepsLineage(cfg: Config, s: System, l: Label)
    requires QueueInv(s) && LineageInv(s)
    requires l.ListPending? || l.Decide? || l.Execute? || l.Append? || l.Save? || l.Check? || l.RequestApproval?
    ensures LineageInv(Step(cfg, s, l))
  {
    match l
    case ListPending(j) => ListLineage(s, j);
    case Decide(j) => DecideLineage(s, j);
    case Execute(j, tools) => ExecuteLineage(cfg, s, j, tools);
    case Append(j) => AppendLineage(s, j);
    case Save(j) => SaveLineage(s, j);
    case Check(j) => CheckLineage(s, j);
    case RequestApproval(j) => RequestLineage(s, j);
  }

  lemma {:induction false} StepKeepsLineage(cfg: Config, s: System, l: Label)
    requires QueueInv(s) && LineageInv(s)
    ensures LineageInv(Step(cfg, s, l))
  {
    if l.ListPending? || l.Decide? || l.Execute? || l.Append? || l.Save? || l.Check? || l.RequestApproval? {
      JobStepKeepsLineage(cfg, s, l);
    } else {
      QueueStepKeepsLineage(cfg, s, l);
    }
  }

  lemma {:induction false} LineageAlways(cfg: Config, labels: seq<Label>)
    ensures LineageInv(History(cfg, labels))
    decreases |labels|
  {
    if labels != [] {
      var n := |labels| - 1;
      LineageAlways(cfg, labels[..n]);
      QueueAlways(cfg, labels[..n]);
      StepKeepsLineage(cfg, History(cfg, labels[..n]), labels[n]);
    }
  }

  // -------------------------------------------------------------- the results

  /** No step is lost, in any history: a checkpoint counts its whole trace as
      persisted, the rows of its own lineage are that trace, and so the trace
      is a subsequence of the run's step rows. */
  lemma NoStepLost(cfg: Config, labels: seq<Label>, r: RunId)
    requires r in History(cfg, labels).runs && History(cfg, labels).runs[r].row.checkpoint.Some?
    ensures var e := History(cfg, labels).runs[r];
            var saved := e.row.checkpoint.value;
            && saved.persistedLen == |saved.state.trace|
            && |e.steps| == |e.authors|
            && RowsBy(e.steps, e.authors, e.lineage) == saved.state.trace
            && Subsequence(saved.state.trace, Outputs(e.steps))
  {
    LineageAlways(cfg, labels);
    var e := History(cfg, labels).runs[r];
    RowsByEmbeds(e.steps, e.authors, e.lineage);
  }

  /** Every step row was written exactly once iff no job outside the
      checkpoint's lineage has written a row for the run. */
  lemma ExactlyOnceIff(cfg: Config, labels: seq<Label>, r: RunId)
    requires r in History(cfg, labels).runs && History(cfg, labels).runs[r].row.checkpoint.Some?
    ensures var e := History(cfg, labels).runs[r];
            Outputs(e.steps) == e.row.checkpoint.value.state.trace <==>
              forall i :: 0 <= i < |e.authors| ==> e.authors[i] in e.lineage
  {
    LineageAlways(cfg, labels);
    var e := History(cfg, labels).runs[r];
    RowsByAll(e.steps, e.authors, e.lineage);
  }
}
