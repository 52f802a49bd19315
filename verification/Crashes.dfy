/** What a crash, or an exception, does to a run: where it leaves the run
    waiting with nobody asked, and where it leaves rows of no checkpoint. */
module Crashes {
  import opened Prelude
  import opened Nodes
  import opened RunGraph
  import opened GraphRuns
  import opened Tables
  import opened Protocol
  import opened ProtocolSafety
  import opened Lineage
  import opened Checkpoints
  import opened OpenApprovals
  import opened CleanRuns
  import opened RestingRuns
  import opened Solo

  // ------------------------------------------------- waiting for nobody's word

  /** The run waits, nobody is at work on it, and no approval is open for it. */
  ghost predicate Stranded(s: System, r: RunId) {
    && r in s.runs && s.runs[r].row.status == ApprovalRequired
    && Idle(s, r) && PendingFor(s.approvals, r) == []
  }

  predicate BaseWaits(job: Job) {
    job.base.Some? && job.base.value.state.status == ApprovalRequired
  }

  /** The job has saved a waiting state and not finished; or it resumes a
      waiting run and has no approval left to decide; or there never was one,
      because the pending tool has no name. */
  predicate Strands(job: Job) {
    match job.phase
    case Saved(final) => final.status == ApprovalRequired
    case Approving(final) => final.status == ApprovalRequired
    case Persisting(_, _) => BaseWaits(job)
    case Deciding(targets) => targets == [] && BaseWaits(job)
    case _ => BaseWaits(job) && !BaseNeedsApproval(job)
  }

  lemma LeftWaiting(approvals: seq<Approval>, job: Job, e: RunEntry)
    requires WorkInv(OneApproval, approvals, job, e) && JobSettled(job)
    ensures e.row.status == ApprovalRequired && PendingFor(approvals, job.run) == [] <==> Strands(job)
  {
  }

  lemma FinishStrands(s: System, j: JobId)
    requires j in s.jobs && s.jobs[j].run in s.runs && JobSettled(s.jobs[j])
    requires WorkInv(OneApproval, s.approvals, s.jobs[j], s.runs[s.jobs[j].run])
    requires forall k :: k in s.jobs && s.jobs[k].run == s.jobs[j].run ==> k == j
    ensures Stranded(Finish(s, j), s.jobs[j].run) <==> Strands(s.jobs[j])
  {
    LeftWaiting(s.approvals, s.jobs[j], s.runs[s.jobs[j].run]);
    assert Idle(Finish(s, j), s.jobs[j].run);
  }

  lemma RaiseStrands(s: System, j: JobId)
    requires QueueInv(s) && j in s.jobs
    ensures var r := s.jobs[j].run;
            Stranded(RaiseStep(s, j), r) <==> s.jobs[j].order.Some? && Stranded(Finish(s, j), r)
  {
  }

  lemma {:induction false} JobsStrand(cfg: Config, labels: seq<Label>, j: JobId)
    requires CleanHistory(cfg, OneApproval, labels) && j in History(cfg, labels).jobs
    ensures var s := History(cfg, labels);
            var job := s.jobs[j];
            && (Stranded(Finish(s, j), job.run) <==> Strands(job))
            && (Stranded(RaiseStep(s, j), job.run) <==> job.order.Some? && Strands(job))
            && (NamedPlans(cfg) ==> (Strands(job) <==> HalfAsked(job)))
  {
    CleanAlways(cfg, OneApproval, labels);
    QueueAlways(cfg, labels);
    var s := History(cfg, labels);
    assert WorkInv(OneApproval, s.approvals, s.jobs[j], s.runs[s.jobs[j].run]);
    FinishStrands(s, j);
    RaiseStrands(s, j);
    if NamedPlans(cfg) {
      CheckpointsAlways(cfg, labels);
      NamedStrands(cfg, History(cfg, labels).jobs[j]);
    }
  }

  /** In every clean history, for every job: its crash strands its run exactly
      at those points, and so does an exception, except that an execution's
      handler marks the run failed. If every gate has a name, they are exactly
      the points that a clean history must spare. */
  lemma {:induction false} CrashStrandsIff(cfg: Config, labels: seq<Label>, j: JobId)
    requires CleanHistory(cfg, OneApproval, labels) && j in History(cfg, labels).jobs
    ensures var job := History(cfg, labels).jobs[j];
            && (Stranded(History(cfg, labels + [Crash(j)]), job.run) <==> Strands(job))
            && (Stranded(History(cfg, labels + [Raise(j)]), job.run) <==> job.order.Some? && Strands(job))
            && (NamedPlans(cfg) ==> (Strands(job) <==> HalfAsked(job)))
  {
    JobsStrand(cfg, labels, j);
    HistorySnoc(cfg, labels, Crash(j));
    HistorySnoc(cfg, labels, Raise(j));
  }

  /** Where every gate has a name, whoever waits needs an approval. */
  lemma WaitingNeedsApproval(cfg: Config, s: RunState)
    requires NamedPlans(cfg) && FromGraph(cfg, s)
    ensures s.status == ApprovalRequired <==> NeedsApproval(s)
  {
    PendingIsNamed(cfg.registry, s);
  }

  lemma NamedStrands(cfg: Config, job: Job)
    requires NamedPlans(cfg) && JobFromGraph(cfg, job)
    ensures Strands(job) <==> HalfAsked(job)
  {
    if job.base.Some? {
      WaitingNeedsApproval(cfg, job.base.value.state);
    }
    if job.phase.Saved? || job.phase.Approving? {
      WaitingNeedsApproval(cfg, job.phase.final);
    }
  }

  /** A resume that has decided the one open approval of a waiting run, and
      crashes before it saves, strands the run: whatever came before. */
  lemma {:induction false} ResumeCrashStrands(cfg: Config, labels: seq<Label>, r: RunId, a: nat, order: Order)
    requires var s := History(cfg, labels);
             && r in s.runs && s.runs[r].row.status == ApprovalRequired
             && Idle(s, r) && PendingFor(s.approvals, r) == [a]
    ensures var j := History(cfg, labels).nextJob;
            Stranded(History(cfg, labels + [OpenResume(r, Some(a), order), Decide(j), Crash(j)]), r)
  {
    var s := History(cfg, labels);
    WaitingHasCheckpoint(cfg, labels, r);
    HistoryAfter(cfg, labels, [OpenResume(r, Some(a), order), Decide(s.nextJob), Crash(s.nextJob)]);
    After3(cfg, s, OpenResume(r, Some(a), order), Decide(s.nextJob), Crash(s.nextJob));
    DecidedAlone(s, r, a, order);
  }

  /** The run's one open approval is decided by a resume. */
  lemma DecidedAlone(s: System, r: RunId, a: nat, order: Order)
    requires r in s.runs && s.runs[r].row.checkpoint.Some? && PendingFor(s.approvals, r) == [a]
    ensures var s' := DecideStep(OpenStep(s, r, Some(a), order), s.nextJob);
            && s'.runs == s.runs && PendingFor(s'.approvals, r) == []
            && a < |s'.approvals| && s'.approvals[a].decision == Some(order.decision)
            && s'.jobs == s.jobs[s.nextJob := Opening(s.runs[r], r, Some(a), order, s.nextJob).(phase := Deciding([]))]
  {
    PendingForMeaning(s.approvals, r);
    assert a in PendingFor(s.approvals, r);
    DecideOnly(s.approvals, a, order.decision, order.reason, r);
    var job := Opening(s.runs[r], r, Some(a), order, s.nextJob);
    assert [a][1..] == [];
    assert s.jobs[s.nextJob := job][s.nextJob := job.(phase := Deciding([]))] == s.jobs[s.nextJob := job.(phase := Deciding([]))];
  }

  lemma {:induction false} WaitingHasCheckpoint(cfg: Config, labels: seq<Label>, r: RunId)
    requires r in History(cfg, labels).runs && History(cfg, labels).runs[r].row.status == ApprovalRequired
    ensures History(cfg, labels).runs[r].row.checkpoint.Some?
    decreases |labels|
  {
    if labels != [] {
      var n := |labels| - 1;
      var s := History(cfg, labels[..n]);
      if r in s.runs && s.runs[r].row.status == ApprovalRequired {
        WaitingHasCheckpoint(cfg, labels[..n], r);
      }
      StepSetsWaiting(cfg, s, labels[n], r);
    }
  }

  /** Only a save makes a run wait, and no step takes a checkpoint away. */
  lemma {:induction false} StepSetsWaiting(cfg: Config, s: System, l: Label, r: RunId)
    requires r in Step(cfg, s, l).runs && Step(cfg, s, l).runs[r].row.status == ApprovalRequired
    ensures Step(cfg, s, l).runs[r].row.checkpoint.Some? ||
              (r in s.runs && s.runs[r].row.status == ApprovalRequired && s.runs[r].row.checkpoint == None)
  {
  }

  // --------------------------------------------------- rows of no checkpoint

  lemma LeftRecorded(s: System, j: JobId, job: Job, e: RunEntry)
    requires WorkInv(StepsOnce, s.approvals, job, e) && EntryInv(s, e) && JobInv(s, j, job, e)
    ensures RecordedOnce(e) <==> !HalfWritten(job)
  {
    RowsByAll(e.steps, e.authors, e.lineage);
    RowsByAll(e.steps, e.authors, job.lineage);
    if HalfWritten(job) {
      assert |e.steps| >= |RowsBy(e.steps, e.authors, job.lineage)| == job.phase.next;
    }
  }

  lemma {:induction false} JobsSplit(cfg: Config, labels: seq<Label>, j: JobId)
    requires CleanHistory(cfg, StepsOnce, labels) && j in History(cfg, labels).jobs
    ensures var s := History(cfg, labels);
            var job := s.jobs[j];
            && job.run in Finish(s, j).runs && (RecordedOnce(Finish(s, j).runs[job.run]) <==> !HalfWritten(job))
            && job.run in RaiseStep(s, j).runs && (RecordedOnce(RaiseStep(s, j).runs[job.run]) <==> !HalfWritten(job))
  {
    CleanAlways(cfg, StepsOnce, labels);
    LineageAlways(cfg, labels);
    var s := History(cfg, labels);
    LeftRecorded(s, j, s.jobs[j], s.runs[s.jobs[j].run]);
  }

  /** In every history clean for the steps, for every job: its crash leaves
      rows in the table that its run's checkpoint does not record exactly when
      it has written one and not saved; and so does an exception. */
  lemma {:induction false} CrashSplitsIff(cfg: Config, labels: seq<Label>, j: JobId)
    requires CleanHistory(cfg, StepsOnce, labels) && j in History(cfg, labels).jobs
    ensures var job := History(cfg, labels).jobs[j];
            var crashed, raised := History(cfg, labels + [Crash(j)]), History(cfg, labels + [Raise(j)]);
            && job.run in crashed.runs && (RecordedOnce(crashed.runs[job.run]) <==> !HalfWritten(job))
            && job.run in raised.runs && (RecordedOnce(raised.runs[job.run]) <==> !HalfWritten(job))
  {
    JobsSplit(cfg, labels, j);
    HistorySnoc(cfg, labels, Crash(j));
    HistorySnoc(cfg, labels, Raise(j));
  }

  // ------------------------------------------------------- a run's first job

  /** A new run, claimed and executed: job 0 is about to persist. */
  function Prologue(r: RunId, key: string, vertical: Option<string>, worker: WorkerId, lease: nat, tools: Dispatcher): seq<Label> {
    [Create(r, key, vertical), Claim(r, worker, lease), Execute(0, tools)]
  }

  function FirstRequest(r: RunId, key: string, vertical: Option<string>): Request {
    RequestOf(r, NewRow(key, vertical, Pending, 0))
  }

  /** Only run r and job 0 exist, and the job has its result. */
  ghost predicate Started(s: System, r: RunId, q: Request, lease: nat, final: RunState) {
    && s.now == 0 && s.approvals == [] && s.nextJob == 1
    && r in s.runs && s.runs[r].steps == []
    && s.runs[r].row.status == Running && s.runs[r].row.lease == Some(lease) && s.runs[r].row.checkpoint == None
    && RequestOf(r, s.runs[r].row) == q
    && s.jobs.Keys == {0} && s.jobs[0].run == r && s.jobs[0].phase == Persisting(final, 0)
  }

  lemma CreateAndClaim(r: RunId, key: string, vertical: Option<string>, worker: WorkerId, lease: nat)
    ensures var s := ClaimStep(CreateStep(INIT, r, key, vertical), r, worker, lease);
            && s.now == 0 && s.approvals == [] && s.nextJob == 1
            && r in s.runs && s.runs[r].steps == [] && s.runs[r].row == ClaimRow(NewRow(key, vertical, Pending, 0), worker, lease)
            && s.jobs.Keys == {0} && s.jobs[0].run == r && s.jobs[0].phase == Claimed && s.jobs[0].order == None
            && s.jobs[0].base == None && s.jobs[0].request == FirstRequest(r, key, vertical)
  {
  }

  lemma AfterPrologue(cfg: Config, r: RunId, key: string, vertical: Option<string>, worker: WorkerId, lease: nat, tools: Dispatcher)
    requires Invoke(cfg, FirstRequest(r, key, vertical), tools).Some?
    ensures Started(History(cfg, Prologue(r, key, vertical, worker, lease, tools)), r, FirstRequest(r, key, vertical), lease,
                    Invoke(cfg, FirstRequest(r, key, vertical), tools).value)
  {
    var labels := Prologue(r, key, vertical, worker, lease, tools);
    After3(cfg, INIT, Create(r, key, vertical), Claim(r, worker, lease), Execute(0, tools));
    HistoryAfter(cfg, [], labels);
    assert [] + labels == labels;
    CreateAndClaim(r, key, vertical, worker, lease);
  }

  // ------------------------------------------- crashing the first job half way

  /** All statements of a first persist, in order. */
  function Statements(final: RunState): seq<Label> {
    Appends(0, |final.trace|) + [Save(0), Check(0), RequestApproval(0)]
  }

  /** Before the save the run still counts as running. */
  lemma CrashBeforeSave(cfg: Config, s: System, r: RunId, q: Request, lease: nat, final: RunState, n: nat)
    requires Started(s, r, q, lease, final) && n <= |final.trace|
    ensures !Stranded(Finish(After(cfg, s, Statements(final)[..n]), 0), r)
  {
    assert Statements(final)[..n] == Appends(0, n);
    SoloAppends(cfg, s, 0, final, 0, n);
  }

  lemma AfterSave(cfg: Config, s: System, r: RunId, q: Request, lease: nat, final: RunState)
    requires Started(s, r, q, lease, final)
    ensures var saved := After(cfg, s, Statements(final)[..|final.trace| + 1]);
            && saved.approvals == [] && saved.jobs.Keys == {0}
            && saved.jobs[0].run == r && saved.jobs[0].phase == Saved(final)
            && r in saved.runs && saved.runs[r].row.status == final.status
  {
    assert Statements(final)[..|final.trace| + 1] == Appends(0, |final.trace|) + [Save(0)];
    SoloPersist(cfg, s, 0, final, 0);
  }

  lemma CrashAfterSave(s: System, r: RunId, final: RunState)
    requires s.approvals == [] && s.jobs.Keys == {0} && s.jobs[0].run == r
    requires s.jobs[0].phase == Saved(final) || s.jobs[0].phase == Approving(final)
    requires r in s.runs && s.runs[r].row.status == final.status == ApprovalRequired
    ensures Stranded(Finish(s, 0), r)
  {
    assert Finish(s, 0).jobs == map[];
  }

  lemma CrashAfterCheck(s: System, r: RunId, final: RunState)
    requires s.approvals == [] && s.jobs.Keys == {0} && s.jobs[0].run == r && s.jobs[0].phase == Saved(final)
    requires r in s.runs && s.runs[r].row.status == final.status == ApprovalRequired
    ensures Stranded(Finish(CheckStep(s, 0), 0), r)
  {
    assert Finish(CheckStep(s, 0), 0).jobs == map[];
  }

  lemma {:induction false} CrashAfterRequest(s: System, r: RunId, final: RunState)
    requires s.approvals == [] && s.jobs.Keys == {0} && s.jobs[0].run == r && s.jobs[0].phase == Saved(final)
    requires r in s.runs && s.runs[r].row.status == final.status == ApprovalRequired
    ensures Stranded(Finish(RequestStep(CheckStep(s, 0), 0), 0), r) <==> !NeedsApproval(final)
  {
    var end := Finish(RequestStep(CheckStep(s, 0), 0), 0);
    assert end.jobs == map[];
    if NeedsApproval(final) {
      assert end.approvals == [] + [RequestFor(r, final)];
      PendingSnoc([], RequestFor(r, final), r);
    }
  }

  /** So crashing the first job of a run that comes to wait, after n of its
      statements, strands the run exactly between the save and the request for
      approval, and behind it if no request is made because the pending tool
      has no name. */
  lemma {:induction false} FirstCrashStrandsIff(cfg: Config, r: RunId, key: string, vertical: Option<string>, worker: WorkerId,
                                               lease: nat, tools: Dispatcher, n: nat)
    requires var f := Invoke(cfg, FirstRequest(r, key, vertical), tools);
             f.Some? && f.value.status == ApprovalRequired && n <= |f.value.trace| + 3
    ensures var final := Invoke(cfg, FirstRequest(r, key, vertical), tools).value;
            var before := Prologue(r, key, vertical, worker, lease, tools);
            Stranded(History(cfg, before + Statements(final)[..n] + [Crash(0)]), r) <==>
              |final.trace| < n && (n < |final.trace| + 3 || !NeedsApproval(final))
  {
    AfterPrologue(cfg, r, key, vertical, worker, lease, tools);
    CrashAfter(cfg, Prologue(r, key, vertical, worker, lease, tools), r, FirstRequest(r, key, vertical), lease,
               Invoke(cfg, FirstRequest(r, key, vertical), tools).value, n);
  }

  lemma {:induction false} CrashAfter(cfg: Config, before: seq<Label>, r: RunId, q: Request, lease: nat, final: RunState, n: nat)
    requires Started(History(cfg, before), r, q, lease, final) && final.status == ApprovalRequired && n <= |final.trace| + 3
    ensures Stranded(History(cfg, before + Statements(final)[..n] + [Crash(0)]), r) <==>
              |final.trace| < n && (n < |final.trace| + 3 || !NeedsApproval(final))
  {
    var s := History(cfg, before);
    HistoryAfter(cfg, before, Statements(final)[..n]);
    HistoryAfter(cfg, before + Statements(final)[..n], [Crash(0)]);
    After1(cfg, After(cfg, s, Statements(final)[..n]), Crash(0));
    CrashPoint(cfg, s, r, q, lease, final, n);
  }

  lemma {:induction false} CrashPoint(cfg: Config, s: System, r: RunId, q: Request, lease: nat, final: RunState, n: nat)
    requires Started(s, r, q, lease, final) && final.status == ApprovalRequired && n <= |final.trace| + 3
    ensures Stranded(Finish(After(cfg, s, Statements(final)[..n]), 0), r) <==>
              |final.trace| < n && (n < |final.trace| + 3 || !NeedsApproval(final))
  {
    var k := |final.trace| + 1;
    if n < k {
      CrashBeforeSave(cfg, s, r, q, lease, final, n);
    } else {
      AfterSave(cfg, s, r, q, lease, final);
      BehindSave(cfg, s, final);
      var saved := After(cfg, s, Statements(final)[..k]);
      if n == k {
        CrashAfterSave(saved, r, final);
      } else if n == k + 1 {
        CrashAfterCheck(saved, r, final);
      } else {
        CrashAfterRequest(saved, r, final);
      }
    }
  }

  /** The last two statements. */
  lemma BehindSave(cfg: Config, s: System, final: RunState)
    ensures var k := |final.trace| + 1;
            var saved := After(cfg, s, Statements(final)[..k]);
            && After(cfg, s, Statements(final)[..k + 1]) == CheckStep(saved, 0)
            && After(cfg, s, Statements(final)[..k + 2]) == RequestStep(CheckStep(saved, 0), 0)
  {
    var k, all := |final.trace| + 1, Statements(final);
    assert all[..k + 1] == all[..k] + [Check(0)] && all[..k + 2] == all[..k + 1] + [RequestApproval(0)];
    AfterSnoc(cfg, s, all[..k], Check(0));
    AfterSnoc(cfg, s, all[..k + 1], RequestApproval(0));
  }

  /** So some history strands it. */
  lemma {:induction false} CrashStrandsApproval(cfg: Config, r: RunId, key: string, vertical: Option<string>, worker: WorkerId,
                                               lease: nat, tools: Dispatcher)
    requires var f := Invoke(cfg, FirstRequest(r, key, vertical), tools);
             f.Some? && f.value.status == ApprovalRequired
    ensures exists labels :: Stranded(History(cfg, labels), r)
  {
    var final := Invoke(cfg, FirstRequest(r, key, vertical), tools).value;
    FirstCrashStrandsIff(cfg, r, key, vertical, worker, lease, tools, |final.trace| + 1);
    var labels := Prologue(r, key, vertical, worker, lease, tools) + Statements(final)[..|final.trace| + 1] + [Crash(0)];
    assert Stranded(History(cfg, labels), r);
  }

  // ------------------------------------------------------- and going on again

  /** A resume through the run itself, as far as its result. */
  function ThroughRun(r: RunId, j: JobId, order: Order, tools: Dispatcher): seq<Label> {
    [OpenResume(r, None, order), ListPending(j), Execute(j, tools)]
  }

  lemma OpenedAndListed(s: System, r: RunId, order: Order)
    requires r in s.runs && s.runs[r].row.checkpoint.Some? && PendingFor(s.approvals, r) == []
    ensures var job := Opening(s.runs[r], r, None, order, s.nextJob);
            ListStep(OpenStep(s, r, None, order), s.nextJob) ==
              s.(jobs := s.jobs[s.nextJob := job.(phase := Deciding([]))], nextJob := s.nextJob + 1)
  {
    var s' := OpenStep(s, r, None, order);
    assert s'.jobs[s.nextJob].phase == Opened && s'.jobs[s.nextJob].run == r;
  }

  lemma ResumeThroughRun(cfg: Config, s: System, r: RunId, order: Order, tools: Dispatcher)
    requires r in s.runs && s.runs[r].row.checkpoint.Some? && PendingFor(s.approvals, r) == []
    requires ResumedState(cfg, s.runs[r].row, order, tools).Some?
    ensures var s' := After(cfg, s, ThroughRun(r, s.nextJob, order, tools));
            && s'.runs == s.runs && s'.approvals == s.approvals && s'.nextJob == s.nextJob + 1
            && s.nextJob in s'.jobs && s'.jobs[s.nextJob].run == r
            && s'.jobs[s.nextJob].phase ==
                 Persisting(ResumedState(cfg, s.runs[r].row, order, tools).value, s.runs[r].row.checkpoint.value.persistedLen)
            && forall k :: k in s.jobs && k != s.nextJob ==> k in s'.jobs && s'.jobs[k] == s.jobs[k]
  {
    After3(cfg, s, OpenResume(r, None, order), ListPending(s.nextJob), Execute(s.nextJob, tools));
    OpenedAndListed(s, r, order);
  }

  /** A stranded run is not lost: nobody is asked, but a resume through the
      run itself, with either decision, takes it up where it waits. */
  lemma {:induction false} StrandedCanBeResumed(cfg: Config, labels: seq<Label>, r: RunId, order: Order, tools: Dispatcher)
    requires Stranded(History(cfg, labels), r)
    ensures var s := History(cfg, labels);
            && s.runs[r].row.checkpoint.Some?
            && var f := ResumedState(cfg, s.runs[r].row, order, tools);
               var s' := History(cfg, labels + ThroughRun(r, s.nextJob, order, tools));
               && f.Some? && s.nextJob in s'.jobs && s'.jobs[s.nextJob].run == r
               && s'.jobs[s.nextJob].phase == Persisting(f.value, s.runs[r].row.checkpoint.value.persistedLen)
  {
    var s := History(cfg, labels);
    WaitingHasCheckpoint(cfg, labels, r);
    CheckpointsAlways(cfg, labels);
    assert RowFromGraph(cfg, s.runs[r].row);
    ResumeFromGraph(cfg, s.runs[r].row.checkpoint.value.state, order.decision, tools);
    ResumeThroughRun(cfg, s, r, order, tools);
    HistoryAfter(cfg, labels, ThroughRun(r, s.nextJob, order, tools));
  }
}
