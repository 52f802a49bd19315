/** The promise about gated tools once more, at the moment they are called: a
    step row is written later than its tool runs, and not always. */
module Dispatches {
  import opened Prelude
  import opened Nodes
  import opened GraphBudgets
  import opened Tables
  import opened Protocol
  import opened ProtocolSafety
  import opened Lineage
  import opened Checkpoints
  import opened GatedExecutions
  import opened CleanRuns
  import opened ApprovedActions
  import opened Solo
  import opened Crashes

  /** The label starts the job's graph call. */
  predicate Starts(s: System, l: Label) {
    l.Execute? && l.job in s.jobs && ReadyToExecute(s.jobs[l.job])
  }

  /** What the call adds to the trace it was given holds a gated execution. */
  ghost predicate RunsGated(cfg: Config, job: Job, tools: Dispatcher) {
    && GraphResult(cfg, job, tools).Some?
    && var trace := GraphResult(cfg, job, tools).value.trace;
       exists m: nat :: PersistedLen(job.base) <= m < |trace| && GatedEntry(trace[m])
  }

  /** The label starts a graph call that runs a gated tool. */
  ghost predicate Dispatches(cfg: Config, s: System, l: Label) {
    Starts(s, l) && RunsGated(cfg, s.jobs[l.job], l.tools)
  }

  // ------------------------------------------------------------ at most once

  /** The job's graph call has been made. */
  ghost predicate Called(s: System, j: JobId) {
    j < s.nextJob && (j in s.jobs ==> s.jobs[j].phase.Persisting? || s.jobs[j].phase.Saved? || s.jobs[j].phase.Approving?)
  }

  lemma {:induction false} StartedIsCalled(cfg: Config, s: System, l: Label)
    requires QueueInv(s) && LineageInv(s) && Starts(s, l)
    ensures Called(Step(cfg, s, l), l.job)
  {
    assert JobInv(s, l.job, s.jobs[l.job], s.runs[s.jobs[l.job].run]);
  }

  lemma {:induction false} StaysCalled(cfg: Config, s: System, l: Label, j: JobId)
    requires Called(s, j)
    ensures Called(Step(cfg, s, l), j)
  {
  }

  lemma {:induction false} CalledEver(cfg: Config, labels: seq<Label>, k: nat, n: nat)
    requires k < n <= |labels| && Starts(History(cfg, labels[..k]), labels[k])
    ensures Called(History(cfg, labels[..n]), labels[k].job)
    decreases n
  {
    var m := n - 1;
    assert labels[..n] == labels[..m] + [labels[m]];
    HistorySnoc(cfg, labels[..m], labels[m]);
    if m == k {
      QueueAlways(cfg, labels[..k]);
      LineageAlways(cfg, labels[..k]);
      StartedIsCalled(cfg, History(cfg, labels[..k]), labels[k]);
    } else {
      CalledEver(cfg, labels, k, m);
      StaysCalled(cfg, History(cfg, labels[..m]), labels[m], labels[k].job);
    }
  }

  /** No job makes its graph call twice. */
  lemma {:induction false} CalledOnce(cfg: Config, labels: seq<Label>, k: nat, n: nat)
    requires k < n < |labels|
    requires Starts(History(cfg, labels[..k]), labels[k]) && Starts(History(cfg, labels[..n]), labels[n])
    ensures labels[k].job != labels[n].job
  {
    CalledEver(cfg, labels, k, n);
  }

  // --------------------------------------------------- only what was approved

  /** A call of a job that started from a checkpoint runs a gated tool exactly
      when it approves a state that needs an approval. */
  lemma RunsGatedIff(cfg: Config, job: Job, tools: Dispatcher)
    requires job.order == None <==> job.base == None
    requires job.base.Some? ==>
               WithinBudget(cfg.registry, job.base.value.state) && job.base.value.persistedLen == |job.base.value.state.trace|
    ensures RunsGated(cfg, job, tools) <==> Approves(job) && BaseNeedsApproval(job)
  {
    if RunsGated(cfg, job, tools) {
      var trace := GraphResult(cfg, job, tools).value.trace;
      var m: nat :| PersistedLen(job.base) <= m < |trace| && GatedEntry(trace[m]);
      ApprovalRunsPending(cfg, job, tools, m);
    }
    if Approves(job) && BaseNeedsApproval(job) {
      ApprovalDispatches(cfg, job, tools);
    }
  }

  lemma ApprovalDispatches(cfg: Config, job: Job, tools: Dispatcher)
    requires Approves(job) && BaseNeedsApproval(job) && WithinBudget(cfg.registry, job.base.value.state)
    requires job.base.value.persistedLen == |job.base.value.state.trace|
    ensures RunsGated(cfg, job, tools)
  {
    var s := job.base.value.state;
    ResumeWithin(cfg.registry, s, Approved, tools);
    var executed := ExecutePending(cfg.registry, s, tools).value;
    LoopAddsNone(cfg.registry, executed, tools);
    var trace := GraphResult(cfg, job, tools).value.trace;
    assert trace[|s.trace|] == executed.trace[|s.trace|];
    assert GatedEntry(trace[|s.trace|]);
  }

  lemma {:induction false} ReadyJob(cfg: Config, labels: seq<Label>, l: Label)
    requires Starts(History(cfg, labels), l)
    ensures var s := History(cfg, labels);
            var job := s.jobs[l.job];
            && (Dispatches(cfg, s, l) <==> Approves(job) && BaseNeedsApproval(job))
            && (Approves(job) ==> Grant(job.run, l.job) in Grants(cfg, labels))
  {
    var s := History(cfg, labels);
    var job := s.jobs[l.job];
    QueueAlways(cfg, labels);
    LineageAlways(cfg, labels);
    CheckpointsAlways(cfg, labels);
    GrantsAlways(cfg, labels);
    assert JobSettled(job) && JobInv(s, l.job, job, s.runs[job.run]) && JobFromGraph(cfg, job);
    RunsGatedIff(cfg, job, l.tools);
    assert JobGranted(l.job, job, s.runs[job.run], Grants(cfg, labels));
  }

  /** In every history: a graph call runs a gated tool exactly when its job was
      opened to approve a run that waited on a tool with a name. So whoever
      runs one was granted it beforehand, and does so once. */
  lemma {:induction false} DispatchedIffApproved(cfg: Config, labels: seq<Label>, n: nat)
    requires n < |labels| && Starts(History(cfg, labels[..n]), labels[n])
    ensures var s := History(cfg, labels[..n]);
            var job := s.jobs[labels[n].job];
            && (Dispatches(cfg, s, labels[n]) <==> Approves(job) && BaseNeedsApproval(job))
            && (Dispatches(cfg, s, labels[n]) ==> Grant(job.run, labels[n].job) in Grants(cfg, labels[..n]))
            && forall k :: 0 <= k < n && Starts(History(cfg, labels[..k]), labels[k]) ==> labels[k].job != labels[n].job
  {
    ReadyJob(cfg, labels[..n], labels[n]);
    forall k | 0 <= k < n && Starts(History(cfg, labels[..k]), labels[k]) ensures labels[k].job != labels[n].job {
      CalledOnce(cfg, labels, k, n);
    }
  }

  // -------------------------------------------------------------- how often

  /** The grants used so far. */
  ghost function Used(cfg: Config, labels: seq<Label>): set<Grant> {
    if labels == [] then {}
    else
      var n := |labels| - 1;
      Used(cfg, labels[..n]) + UsedBy(cfg, History(cfg, labels[..n]), labels[n])
  }

  ghost function UsedBy(cfg: Config, s: System, l: Label): set<Grant> {
    if Dispatches(cfg, s, l) then {Grant(s.jobs[l.job].run, l.job)} else {}
  }

  /** How often a gated tool of the run was called. */
  ghost function GatedCalls(cfg: Config, labels: seq<Label>, r: RunId): nat {
    if labels == [] then 0
    else
      var n := |labels| - 1;
      var s := History(cfg, labels[..n]);
      GatedCalls(cfg, labels[..n], r) + if Dispatches(cfg, s, labels[n]) && s.jobs[labels[n].job].run == r then 1 else 0
  }

  lemma {:induction false} UsedOnce(cfg: Config, labels: seq<Label>)
    ensures Used(cfg, labels) <= Grants(cfg, labels)
    ensures forall g :: g in Used(cfg, labels) ==> Called(History(cfg, labels), g.job)
    decreases |labels|
  {
    if labels != [] {
      var n := |labels| - 1;
      var s := History(cfg, labels[..n]);
      UsedOnce(cfg, labels[..n]);
      if Starts(s, labels[n]) {
        ReadyJob(cfg, labels[..n], labels[n]);
        QueueAlways(cfg, labels[..n]);
        LineageAlways(cfg, labels[..n]);
        StartedIsCalled(cfg, s, labels[n]);
      }
      forall g | g in Used(cfg, labels[..n]) ensures Called(Step(cfg, s, labels[n]), g.job) {
        StaysCalled(cfg, s, labels[n], g.job);
      }
    }
  }

  lemma {:induction false} CallsCounted(cfg: Config, labels: seq<Label>, r: RunId)
    ensures GatedCalls(cfg, labels, r) == |GrantsOf(Used(cfg, labels), r)|
    decreases |labels|
  {
    if labels == [] {
      assert GrantsOf({}, r) == {};
    } else {
      var n := |labels| - 1;
      var s, used := History(cfg, labels[..n]), Used(cfg, labels[..n]);
      CallsCounted(cfg, labels[..n], r);
      UsedOnce(cfg, labels[..n]);
      if Dispatches(cfg, s, labels[n]) {
        GrantAdds(used, Grant(s.jobs[labels[n].job].run, labels[n].job), r);
      } else {
        assert used + {} == used;
      }
    }
  }

  /** A gated row, or one still to be written, is by a job that has called. */
  ghost predicate UsedInv(s: System, used: set<Grant>) {
    && (forall r, i :: r in s.runs && 0 <= i < |s.runs[r].steps| && i < |s.runs[r].authors| && GatedEntry(s.runs[r].steps[i].output) ==>
          Grant(r, s.runs[r].authors[i]) in used)
    && (forall j :: j in s.jobs ==> JobUsed(j, s.jobs[j], used))
  }

  ghost predicate JobUsed(j: JobId, job: Job, used: set<Grant>) {
    job.phase.Persisting? ==>
      forall m :: job.phase.next <= m < |job.phase.final.trace| && GatedEntry(job.phase.final.trace[m]) ==> Grant(job.run, j) in used
  }

  lemma {:induction false} AppendUsed(s: System, used: set<Grant>, j: JobId)
    requires LineageInv(s) && UsedInv(s, used)
    ensures UsedInv(AppendStep(s, j), used)
  {
    var s' := AppendStep(s, j);
    if s' != s {
      var q := s.jobs[j].run;
      assert EntryInv(s, s.runs[q]) && JobUsed(j, s.jobs[j], used);
      forall r, i | r in s'.runs && 0 <= i < |s'.runs[r].steps| && i < |s'.runs[r].authors| && GatedEntry(s'.runs[r].steps[i].output)
        ensures Grant(r, s'.runs[r].authors[i]) in used
      {
        if r == q && i == |s.runs[q].steps| {
          assert s'.runs[r].authors[i] == j;
        } else {
          assert s'.runs[r].steps[i] == s.runs[r].steps[i] && s'.runs[r].authors[i] == s.runs[r].authors[i];
        }
      }
      forall k | k in s'.jobs ensures JobUsed(k, s'.jobs[k], used) {
        assert JobUsed(k, s.jobs[k], used);
      }
    }
  }

  lemma {:induction false} ExecuteUsed(cfg: Config, s: System, used: set<Grant>, j: JobId, tools: Dispatcher)
    requires UsedInv(s, used)
    ensures UsedInv(ExecuteStep(cfg, s, j, tools), used + UsedBy(cfg, s, Execute(j, tools)))
  {
    var all, s' := used + UsedBy(cfg, s, Execute(j, tools)), ExecuteStep(cfg, s, j, tools);
    forall k | k in s'.jobs ensures JobUsed(k, s'.jobs[k], all) {
      if k in s.jobs && s'.jobs[k] == s.jobs[k] {
        assert JobUsed(k, s.jobs[k], used);
      }
    }
  }

  /** Any other step writes no step row and starts no persist. */
  lemma {:induction false} OtherKeeps(cfg: Config, s: System, l: Label)
    requires !l.Append? && !l.Execute?
    ensures var s' := Step(cfg, s, l);
            && (forall r :: r in s'.runs ==> s'.runs[r].authors == [] || (r in s.runs && SameSteps(s.runs[r], s'.runs[r])))
            && (forall k :: k in s'.jobs && s'.jobs[k].phase.Persisting? ==> k in s.jobs && s'.jobs[k] == s.jobs[k])
  {
  }

  lemma {:induction false} OtherUsed(cfg: Config, s: System, used: set<Grant>, l: Label)
    requires UsedInv(s, used) && !l.Append? && !l.Execute?
    ensures UsedInv(Step(cfg, s, l), used)
  {
    OtherKeeps(cfg, s, l);
    var s' := Step(cfg, s, l);
    forall k | k in s'.jobs ensures JobUsed(k, s'.jobs[k], used) {
      if s'.jobs[k].phase.Persisting? {
        assert JobUsed(k, s.jobs[k], used);
      }
    }
  }

  lemma {:induction false} StepKeepsUsed(cfg: Config, s: System, used: set<Grant>, l: Label)
    requires LineageInv(s) && UsedInv(s, used)
    ensures UsedInv(Step(cfg, s, l), used + UsedBy(cfg, s, l))
  {
    match l
    case Execute(j, tools) => ExecuteUsed(cfg, s, used, j, tools);
    case Append(j) =>
      assert used + UsedBy(cfg, s, l) == used;
      AppendUsed(s, used, j);
    case _ =>
      assert used + UsedBy(cfg, s, l) == used;
      OtherUsed(cfg, s, used, l);
  }

  lemma {:induction false} UsedAlways(cfg: Config, labels: seq<Label>)
    ensures UsedInv(History(cfg, labels), Used(cfg, labels))
    decreases |labels|
  {
    if labels != [] {
      var n := |labels| - 1;
      UsedAlways(cfg, labels[..n]);
      LineageAlways(cfg, labels[..n]);
      StepKeepsUsed(cfg, History(cfg, labels[..n]), Used(cfg, labels[..n]), labels[n]);
    }
  }

  /** However workers, resumes, crashes and leases interleave: every gated row
      of a run stands for a call of its own, and every such call for a resume
      of its own that was opened to approve the run. */
  lemma {:induction false} RowsCallsApprovals(cfg: Config, labels: seq<Label>, r: RunId)
    requires r in History(cfg, labels).runs
    ensures GatedRows(History(cfg, labels).runs[r].steps) <= GatedCalls(cfg, labels, r) <= ApprovalsOf(cfg, labels, r)
  {
    GrantsAlways(cfg, labels);
    UsedAlways(cfg, labels);
    var e := History(cfg, labels).runs[r];
    assert EntryGranted(r, e, Grants(cfg, labels));
    var authors := GatedAuthors(r, e, Used(cfg, labels));
    SubsetSmaller(authors, GrantsOf(Used(cfg, labels), r));
    CallsCounted(cfg, labels, r);
    UsedOnce(cfg, labels);
    SubsetSmaller(GrantsOf(Used(cfg, labels), r), GrantsOf(Grants(cfg, labels), r));
    GrantsCounted(cfg, labels, r);
  }

  // -------------------------------------------------------- calls of no row

  /** An approval of a waiting run with one open approval, as far as its call. */
  function ApprovedCall(r: RunId, a: nat, j: JobId, order: Order): seq<Label> {
    [OpenResume(r, Some(a), order), Decide(j)]
  }

  lemma {:induction false} ApprovedJob(cfg: Config, labels: seq<Label>, r: RunId, a: nat, order: Order)
    requires var s := History(cfg, labels);
             r in s.runs && s.runs[r].row.checkpoint.Some? && PendingFor(s.approvals, r) == [a]
    ensures var s := History(cfg, labels);
            var s' := History(cfg, labels + ApprovedCall(r, a, s.nextJob, order));
            && s'.runs == s.runs && PendingFor(s'.approvals, r) == []
            && a < |s'.approvals| && s'.approvals[a].decision == Some(order.decision)
            && s'.jobs == s.jobs[s.nextJob := Opening(s.runs[r], r, Some(a), order, s.nextJob).(phase := Deciding([]))]
  {
    var s := History(cfg, labels);
    HistoryAfter(cfg, labels, ApprovedCall(r, a, s.nextJob, order));
    After2(cfg, s, OpenResume(r, Some(a), order), Decide(s.nextJob));
    DecidedAlone(s, r, a, order);
  }

  lemma CalledAndCrashed(cfg: Config, s: System, j: JobId, tools: Dispatcher)
    requires Dispatches(cfg, s, Execute(j, tools))
    ensures var s' := Step(cfg, Step(cfg, s, Execute(j, tools)), Crash(j));
            s'.runs == s.runs && s'.approvals == s.approvals && s'.jobs == s.jobs - {j}
  {
  }

  /** A gated tool that was approved and called need not show in the table: a
      crash before the first row leaves the run as it was, except that its
      approval is decided, and waiting for nobody's word. */
  lemma {:induction false} CallLeavesNoRow(cfg: Config, labels: seq<Label>, r: RunId, a: nat, order: Order, tools: Dispatcher)
    requires var s := History(cfg, labels);
             && r in s.runs && s.runs[r].row.status == ApprovalRequired && s.runs[r].row.checkpoint.Some?
             && NeedsApproval(s.runs[r].row.checkpoint.value.state)
             && Idle(s, r) && PendingFor(s.approvals, r) == [a]
    requires order.decision == Approved
    ensures var s := History(cfg, labels);
            var called := labels + ApprovedCall(r, a, s.nextJob, order);
            var s' := History(cfg, called + [Execute(s.nextJob, tools), Crash(s.nextJob)]);
            && Dispatches(cfg, History(cfg, called), Execute(s.nextJob, tools))
            && Stranded(s', r) && s'.runs == s.runs
            && a < |s'.approvals| && s'.approvals[a].decision == Some(Approved)
  {
    var s := History(cfg, labels);
    var j, called := s.nextJob, labels + ApprovedCall(r, a, s.nextJob, order);
    ApprovedJob(cfg, labels, r, a, order);
    ReadyJob(cfg, called, Execute(j, tools));
    HistoryAfter(cfg, called, [Execute(j, tools), Crash(j)]);
    After2(cfg, History(cfg, called), Execute(j, tools), Crash(j));
    CalledAndCrashed(cfg, History(cfg, called), j, tools);
  }
}
