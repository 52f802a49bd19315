/** Histories in which no lease is released from a job at work, resumes of a
    run are serialized, and no job goes away where a promise depends on it.
    There are two such promises about runs that nobody works on: each step is
    in the table once, and a run that waits has one open approval. */
module CleanRuns {
  import opened Prelude
  import opened Nodes
  import opened Tables
  import opened OpenApprovals
  import opened Protocol
  import opened ProtocolSafety
  import opened Checkpoints

  datatype Promise = StepsOnce | OneApproval

  /** The job has written a row and not saved. */
  predicate HalfWritten(job: Job) {
    job.phase.Persisting? && job.phase.next > PersistedLen(job.base)
  }

  predicate BaseNeedsApproval(job: Job) {
    job.base.Some? && NeedsApproval(job.base.value.state)
  }

  /** The job has saved a waiting state and not requested its approval, or has
      decided the approval of a waiting run and not saved. */
  predicate HalfAsked(job: Job) {
    match job.phase
    case Saved(final) => NeedsApproval(final)
    case Approving(final) => NeedsApproval(final)
    case Persisting(_, _) => BaseNeedsApproval(job)
    case Deciding(targets) => targets == [] && BaseNeedsApproval(job)
    case _ => false
  }

  /** The promise depends on this job going on. */
  predicate Critical(p: Promise, job: Job) {
    match p
    case StepsOnce => HalfWritten(job)
    case OneApproval => HalfAsked(job)
  }

  /** An exception now would mark a waiting run failed. */
  predicate FailsWaiting(job: Job) {
    && job.order == None && (job.phase.Saved? || job.phase.Approving?)
    && job.phase.final.status == ApprovalRequired
  }

  /** The label is taken at a moment when it does not break the promise. */
  ghost predicate Undisturbed(p: Promise, s: System, l: Label) {
    match l
    case Crash(j) => j in s.jobs ==> !Critical(p, s.jobs[j])
    case Raise(j) => j in s.jobs ==> !Critical(p, s.jobs[j]) && (p.OneApproval? ==> !FailsWaiting(s.jobs[j]))
    case ReleaseStale => forall r :: r in s.runs && Stale(s.runs[r].row, s.now) ==> Idle(s, r)
    case OpenResume(run, approval, order) => Idle(s, run)
    case _ => true
  }

  ghost predicate CleanHistory(cfg: Config, p: Promise, labels: seq<Label>) {
    labels == [] ||
    (&& CleanHistory(cfg, p, labels[..|labels| - 1])
     && Undisturbed(p, History(cfg, labels[..|labels| - 1]), labels[|labels| - 1]))
  }

  // ----------------------------------------------------------- the invariant

  /** The row's total is the checkpoint's. */
  ghost predicate TotalShown(row: Row) {
    row.totalCost == if row.checkpoint.Some? then row.checkpoint.value.state.cost else 0.0
  }

  /** The row waits exactly when the checkpoint does. */
  ghost predicate WaitShown(row: Row) {
    row.status == ApprovalRequired <==> row.checkpoint.Some? && row.checkpoint.value.state.status == ApprovalRequired
  }

  ghost predicate AuthorsIn(e: RunEntry, family: set<JobId>) {
    forall i :: 0 <= i < |e.authors| ==> e.authors[i] in family
  }

  /** The promise holds of the run. */
  ghost predicate IdleInv(p: Promise, approvals: seq<Approval>, r: RunId, e: RunEntry) {
    match p
    case StepsOnce => TotalShown(e.row) && AuthorsIn(e, e.lineage) && (e.row.checkpoint == None ==> e.authors == [])
    case OneApproval =>
      && WaitShown(e.row)
      && (match e.row.checkpoint
          case None => PendingFor(approvals, r) == []
          case Some(saved) => OpenApproval(approvals, r, saved.state))
  }

  /** The checkpoint is the one the job read, or the one it saved. */
  ghost predicate AtWork(job: Job, e: RunEntry) {
    if job.phase.Saved? || job.phase.Approving? then
      e.row.checkpoint == Some(Checkpoint(job.phase.final, |job.phase.final.trace|)) && e.lineage == job.lineage
    else
      && e.row.checkpoint == job.base
      && (if job.order == None then e.row.status == Running && job.base == None else job.base.Some?)
  }

  /** What is true of the run of a job even where the promise depends on it. */
  ghost predicate Meanwhile(p: Promise, approvals: seq<Approval>, job: Job, e: RunEntry) {
    match p
    case StepsOnce =>
      && TotalShown(e.row) && AuthorsIn(e, job.lineage)
      && (job.phase.Persisting? ==> PersistedLen(job.base) <= job.phase.next)
    case OneApproval =>
      && WaitShown(e.row)
      && (HalfAsked(job) ==> PendingFor(approvals, job.run) == [])
      && (job.phase.Deciding? ==> PendingFor(approvals, job.run) == job.phase.targets)
  }

  ghost predicate WorkInv(p: Promise, approvals: seq<Approval>, job: Job, e: RunEntry) {
    && AtWork(job, e) && Meanwhile(p, approvals, job, e)
    && (!Critical(p, job) ==> IdleInv(p, approvals, job.run, e))
  }

  ghost predicate CleanInv(p: Promise, s: System) {
    && (forall i :: 0 <= i < |s.approvals| ==> s.approvals[i].run in s.runs)
    && (forall j :: j in s.jobs ==> j < s.nextJob && s.jobs[j].run in s.runs && j in s.jobs[j].lineage)
    && (forall j, k :: j in s.jobs && k in s.jobs && s.jobs[j].run == s.jobs[k].run ==> j == k)
    && (forall j :: j in s.jobs ==> WorkInv(p, s.approvals, s.jobs[j], s.runs[s.jobs[j].run]))
    && (forall r :: r in s.runs && Idle(s, r) ==> IdleInv(p, s.approvals, r, s.runs[r]))
  }

  lemma ElsewhereIdle(p: Promise, before: seq<Approval>, after: seq<Approval>, r: RunId, e: RunEntry)
    requires p.OneApproval? ==> SameOpen(before, after, r)
    ensures IdleInv(p, before, r, e) ==> IdleInv(p, after, r, e)
  {
    if p.OneApproval? && e.row.checkpoint.Some? {
      OpenStays(before, after, r, e.row.checkpoint.value.state);
    }
  }

  lemma ElsewhereWork(p: Promise, before: seq<Approval>, after: seq<Approval>, job: Job, e: RunEntry)
    requires p.OneApproval? ==> SameOpen(before, after, job.run)
    ensures WorkInv(p, before, job, e) ==> WorkInv(p, after, job, e)
  {
    ElsewhereIdle(p, before, after, job.run, e);
  }

  /** The step works on run r with job j, and touches nothing else. */
  ghost predicate OnlyTouches(p: Promise, s: System, s': System, r: RunId, j: JobId) {
    && s.nextJob <= s'.nextJob && j < s'.nextJob
    && s'.runs.Keys == s.runs.Keys + {r}
    && (forall q :: q in s.runs && q != r ==> s'.runs[q] == s.runs[q] && (p.OneApproval? ==> SameOpen(s.approvals, s'.approvals, q)))
    && (forall k :: k in s'.jobs && k != j ==> k in s.jobs && s'.jobs[k] == s.jobs[k])
    && (forall k :: k in s.jobs && k != j ==> k in s'.jobs && s'.jobs[k] == s.jobs[k])
  }

  /** The other runs' jobs find their runs and approvals as they were. */
  lemma OthersWork(p: Promise, s: System, s': System, r: RunId, j: JobId, k: JobId)
    requires CleanInv(p, s) && OnlyTouches(p, s, s', r, j)
    requires forall k :: k in s.jobs && s.jobs[k].run == r ==> k == j
    requires k in s'.jobs && k != j
    ensures k in s.jobs && s'.jobs[k] == s.jobs[k] && s'.jobs[k].run != r && s'.jobs[k].run in s'.runs
    ensures WorkInv(p, s'.approvals, s'.jobs[k], s'.runs[s'.jobs[k].run])
  {
    assert WorkInv(p, s.approvals, s.jobs[k], s.runs[s.jobs[k].run]);
    ElsewhereWork(p, s.approvals, s'.approvals, s.jobs[k], s.runs[s.jobs[k].run]);
  }

  lemma OthersIdle(p: Promise, s: System, s': System, r: RunId, j: JobId, q: RunId)
    requires CleanInv(p, s) && OnlyTouches(p, s, s', r, j)
    requires forall k :: k in s.jobs && s.jobs[k].run == r ==> k == j
    requires j in s.jobs ==> s.jobs[j].run == r
    requires q in s'.runs && q != r && Idle(s', q)
    ensures IdleInv(p, s'.approvals, q, s'.runs[q])
  {
    assert Idle(s, q) && IdleInv(p, s.approvals, q, s.runs[q]);
    ElsewhereIdle(p, s.approvals, s'.approvals, q, s.runs[q]);
  }

  lemma CleanFrame(p: Promise, s: System, s': System, r: RunId, j: JobId)
    requires CleanInv(p, s) && OnlyTouches(p, s, s', r, j)
    requires forall k :: k in s.jobs && s.jobs[k].run == r ==> k == j
    requires forall i :: 0 <= i < |s'.approvals| ==> s'.approvals[i].run in s'.runs
    requires j in s.jobs ==> s.jobs[j].run == r
    requires if j in s'.jobs then s'.jobs[j].run == r && j in s'.jobs[j].lineage && WorkInv(p, s'.approvals, s'.jobs[j], s'.runs[r])
             else IdleInv(p, s'.approvals, r, s'.runs[r])
    ensures CleanInv(p, s')
  {
    forall k | k in s'.jobs
      ensures k < s'.nextJob && s'.jobs[k].run in s'.runs && k in s'.jobs[k].lineage
      ensures (s'.jobs[k].run == r <==> k == j) && WorkInv(p, s'.approvals, s'.jobs[k], s'.runs[s'.jobs[k].run])
    {
      if k != j {
        OthersWork(p, s, s', r, j, k);
      }
    }
    forall q | q in s'.runs && Idle(s', q) ensures IdleInv(p, s'.approvals, q, s'.runs[q]) {
      if q != r {
        OthersIdle(p, s, s', r, j, q);
      }
    }
  }

  /** A step that sets job j and its run's entry, or ends the job. */
  lemma SetTouches(p: Promise, s: System, j: JobId, job: Job, e: RunEntry)
    requires j < s.nextJob && job.run in s.runs
    ensures OnlyTouches(p, s, s.(jobs := s.jobs[j := job], runs := s.runs[job.run := e]), job.run, j)
    ensures OnlyTouches(p, s, s.(jobs := s.jobs - {j}, runs := s.runs[job.run := e]), job.run, j)
  {
  }

  lemma MoveTouches(p: Promise, s: System, j: JobId, job: Job, nextJob: JobId)
    requires s.nextJob <= nextJob && j < nextJob && job.run in s.runs
    ensures OnlyTouches(p, s, s.(jobs := s.jobs[j := job], nextJob := nextJob), job.run, j)
  {
  }

  /** A step that only starts or moves job j. */
  lemma {:induction false} MoveJobClean(p: Promise, s: System, j: JobId, job: Job, nextJob: JobId)
    requires CleanInv(p, s)
    requires job.run in s.runs && j in job.lineage && WorkInv(p, s.approvals, job, s.runs[job.run])
    requires s.nextJob <= nextJob && j < nextJob
    requires if j in s.jobs then s.jobs[j].run == job.run else Idle(s, job.run)
    ensures CleanInv(p, s.(jobs := s.jobs[j := job], nextJob := nextJob))
  {
    MoveTouches(p, s, j, job, nextJob);
    CleanFrame(p, s, s.(jobs := s.jobs[j := job], nextJob := nextJob), job.run, j);
  }

  /** A step that starts a job. */
  lemma {:induction false} StartClean(p: Promise, s: System, job: Job)
    requires CleanInv(p, s)
    requires job.run in s.runs && s.nextJob in job.lineage && WorkInv(p, s.approvals, job, s.runs[job.run])
    requires Idle(s, job.run)
    ensures CleanInv(p, s.(jobs := s.jobs[s.nextJob := job], nextJob := s.nextJob + 1))
  {
    assert s.nextJob !in s.jobs;
    MoveJobClean(p, s, s.nextJob, job, s.nextJob + 1);
  }

  /** A step that moves job j and rewrites its run's entry. */
  lemma {:induction false} MoveBothClean(p: Promise, s: System, j: JobId, job: Job, e: RunEntry)
    requires CleanInv(p, s) && j in s.jobs
    requires job.run == s.jobs[j].run && j in job.lineage && WorkInv(p, s.approvals, job, e)
    ensures CleanInv(p, s.(jobs := s.jobs[j := job], runs := s.runs[job.run := e]))
  {
    SetTouches(p, s, j, job, e);
    CleanFrame(p, s, s.(jobs := s.jobs[j := job], runs := s.runs[job.run := e]), job.run, j);
  }

  /** A step that ends job j and leaves its run idle with entry e. */
  lemma {:induction false} EndJobClean(p: Promise, s: System, j: JobId, e: RunEntry)
    requires CleanInv(p, s) && j in s.jobs && IdleInv(p, s.approvals, s.jobs[j].run, e)
    ensures CleanInv(p, s.(jobs := s.jobs - {j}, runs := s.runs[s.jobs[j].run := e]))
  {
    SetTouches(p, s, j, s.jobs[j], e);
    CleanFrame(p, s, s.(jobs := s.jobs - {j}, runs := s.runs[s.jobs[j].run := e]), s.jobs[j].run, j);
  }

  /** A step that ends job j and leaves its run as it is. */
  lemma {:induction false} FinishClean(p: Promise, s: System, j: JobId)
    requires CleanInv(p, s) && j in s.jobs && IdleInv(p, s.approvals, s.jobs[j].run, s.runs[s.jobs[j].run])
    ensures CleanInv(p, Finish(s, j))
  {
    var r := s.jobs[j].run;
    EndJobClean(p, s, j, s.runs[r]);
    assert s.runs[r := s.runs[r]] == s.runs;
  }

  // ------------------------------------------------------------------- steps

  lemma {:induction false} CreateClean(p: Promise, s: System, run: RunId, key: string, vertical: Option<string>)
    requires CleanInv(p, s)
    ensures CleanInv(p, CreateStep(s, run, key, vertical))
  {
    if run !in s.runs {
      NobodyAsks(s.approvals, run);
      var s' := CreateStep(s, run, key, vertical);
      forall k | k in s'.jobs ensures WorkInv(p, s'.approvals, s'.jobs[k], s'.runs[s'.jobs[k].run]) {
        assert s'.jobs[k] == s.jobs[k] && s'.runs[s.jobs[k].run] == s.runs[s.jobs[k].run];
      }
      forall q | q in s'.runs && Idle(s', q) ensures IdleInv(p, s'.approvals, q, s'.runs[q]) {
        if q != run {
          assert Idle(s, q) && s'.runs[q] == s.runs[q];
        }
      }
    }
  }

  lemma ReleaseIdle(p: Promise, approvals: seq<Approval>, r: RunId, e: RunEntry, now: Time)
    requires IdleInv(p, approvals, r, e)
    ensures IdleInv(p, approvals, r, e.(row := ReleaseRow(e.row, now)))
  {
  }

  lemma {:induction false} ReleaseClean(p: Promise, s: System)
    requires CleanInv(p, s) && Undisturbed(p, s, ReleaseStale)
    ensures CleanInv(p, ReleaseStep(s))
  {
    var s' := ReleaseStep(s);
    forall j | j in s'.jobs ensures WorkInv(p, s'.approvals, s'.jobs[j], s'.runs[s'.jobs[j].run]) {
      var r := s.jobs[j].run;
      assert !Idle(s, r);
      assert s'.runs[r] == s.runs[r];
    }
    forall r | r in s'.runs && Idle(s', r) ensures IdleInv(p, s'.approvals, r, s'.runs[r]) {
      assert Idle(s, r) && IdleInv(p, s.approvals, r, s.runs[r]);
      ReleaseIdle(p, s.approvals, r, s.runs[r], s.now);
    }
  }

  lemma WorkIsNotPending(job: Job, e: RunEntry)
    requires AtWork(job, e) && RowQueued(e.row)
    ensures e.row.status != Pending
  {
  }

  /** Only an idle run is pending. */
  lemma PendingIsIdle(p: Promise, s: System, r: RunId)
    requires CleanInv(p, s) && QueueInv(s)
    requires r in s.runs && s.runs[r].row.status == Pending
    ensures Idle(s, r)
  {
    forall j | j in s.jobs ensures s.jobs[j].run != r {
      if s.jobs[j].run == r {
        WorkIsNotPending(s.jobs[j], s.runs[r]);
      }
    }
  }

  lemma ClaimWork(p: Promise, approvals: seq<Approval>, job: Job, e: RunEntry, worker: WorkerId, until: Time, leases: seq<Lease>)
    requires IdleInv(p, approvals, job.run, e) && RowQueued(e.row) && e.row.status == Pending
    requires job.phase.Claimed? && job.order == None && job.base == e.row.checkpoint
    ensures WorkInv(p, approvals, job, e.(row := ClaimRow(e.row, worker, until), leases := leases))
  {
  }

  lemma ClaimTouches(p: Promise, s: System, r: RunId, worker: WorkerId, lease: int)
    requires r in s.runs && s.nextJob !in s.jobs
    ensures OnlyTouches(p, s, ClaimStep(s, r, worker, lease), r, s.nextJob)
              || ClaimStep(s, r, worker, lease) == s
  {
  }

  lemma {:induction false} ClaimClean(p: Promise, s: System, r: RunId, worker: WorkerId, lease: int)
    requires CleanInv(p, s) && QueueInv(s)
    ensures CleanInv(p, ClaimStep(s, r, worker, lease))
  {
    if r in s.runs && s.runs[r].row.status == Pending {
      PendingIsIdle(p, s, r);
      var e, s' := s.runs[r], ClaimStep(s, r, worker, lease);
      assert RowQueued(e.row) && IdleInv(p, s.approvals, r, e);
      ClaimTouches(p, s, r, worker, lease);
      ClaimWork(p, s.approvals, s'.jobs[s.nextJob], e, worker, s.now + lease, s'.runs[r].leases);
      CleanFrame(p, s, s', r, s.nextJob);
    }
  }

  function Renewed(e: RunEntry, worker: WorkerId, until: Time): RunEntry {
    e.(row := RenewRow(e.row, worker, until), leases := RenewLeases(e, worker, until))
  }

  lemma RenewSets(s: System, j: JobId, lease: int)
    requires j in s.jobs && s.jobs[j].phase.Claimed? && s.jobs[j].run in s.runs
    ensures var job := s.jobs[j];
            RenewStep(s, j, lease) ==
              s.(jobs := s.jobs[j := job], runs := s.runs[job.run := Renewed(s.runs[job.run], job.worker, s.now + lease)])
  {
    assert s.jobs[j := s.jobs[j]] == s.jobs;
  }

  lemma RenewWork(p: Promise, approvals: seq<Approval>, job: Job, e: RunEntry, until: Time)
    requires WorkInv(p, approvals, job, e)
    ensures WorkInv(p, approvals, job, Renewed(e, job.worker, until))
  {
  }

  lemma {:induction false} RenewClean(p: Promise, s: System, j: JobId, lease: int)
    requires CleanInv(p, s)
    ensures CleanInv(p, RenewStep(s, j, lease))
  {
    if j in s.jobs && s.jobs[j].phase.Claimed? {
      var job := s.jobs[j];
      assert WorkInv(p, s.approvals, job, s.runs[job.run]);
      RenewWork(p, s.approvals, job, s.runs[job.run], s.now + lease);
      RenewSets(s, j, lease);
      MoveBothClean(p, s, j, job, Renewed(s.runs[job.run], job.worker, s.now + lease));
    }
  }

  lemma OpenWork(p: Promise, approvals: seq<Approval>, e: RunEntry, approval: Option<nat>, job: Job)
    requires IdleInv(p, approvals, job.run, e) && e.row.checkpoint.Some?
    requires job.base == e.row.checkpoint && job.order.Some? && e.lineage <= job.lineage
    requires approval.Some? ==>
               && approval.value < |approvals| && approvals[approval.value].run == job.run
               && approvals[approval.value].decision == None
    requires job.phase == if approval.Some? then Deciding([approval.value]) else Opened
    ensures WorkInv(p, approvals, job, e)
  {
    if approval.Some? {
      PendingForMeaning(approvals, job.run);
      assert approval.value in PendingFor(approvals, job.run);
      assert p.OneApproval? ==> PendingFor(approvals, job.run) == [approval.value];
    }
  }

  lemma OpeningWork(p: Promise, s: System, r: RunId, approval: Option<nat>, order: Order)
    requires CanOpen(s, r, approval) && IdleInv(p, s.approvals, r, s.runs[r])
    ensures var job := Opening(s.runs[r], r, approval, order, s.nextJob);
            && job.run == r && s.nextJob in job.lineage && WorkInv(p, s.approvals, job, s.runs[r])
            && OpenStep(s, r, approval, order) == s.(jobs := s.jobs[s.nextJob := job], nextJob := s.nextJob + 1)
  {
    OpenWork(p, s.approvals, s.runs[r], approval, Opening(s.runs[r], r, approval, order, s.nextJob));
  }

  lemma {:induction false} OpenClean(p: Promise, s: System, r: RunId, approval: Option<nat>, order: Order)
    requires CleanInv(p, s) && Idle(s, r)
    ensures CleanInv(p, OpenStep(s, r, approval, order))
  {
    if CanOpen(s, r, approval) {
      OpeningWork(p, s, r, approval, order);
      StartClean(p, s, Opening(s.runs[r], r, approval, order, s.nextJob));
    }
  }

  lemma ListWork(p: Promise, approvals: seq<Approval>, job: Job, e: RunEntry)
    requires WorkInv(p, approvals, job, e) && job.phase.Opened?
    ensures WorkInv(p, approvals, job.(phase := Deciding(PendingFor(approvals, job.run))), e)
  {
  }

  lemma {:induction false} ListClean(p: Promise, s: System, j: JobId)
    requires CleanInv(p, s)
    ensures CleanInv(p, ListStep(s, j))
  {
    if j in s.jobs && s.jobs[j].phase.Opened? {
      ListWork(p, s.approvals, s.jobs[j], s.runs[s.jobs[j].run]);
      MoveJobClean(p, s, j, s.jobs[j].(phase := Deciding(PendingFor(s.approvals, s.jobs[j].run))), s.nextJob);
    }
  }

  /** A job decides its run's only open approval, if one is promised. */
  lemma DecideWork(p: Promise, before: seq<Approval>, after: seq<Approval>, job: Job, e: RunEntry)
    requires WorkInv(p, before, job, e) && job.phase.Deciding? && job.phase.targets != []
    requires p.OneApproval? ==> PendingFor(after, job.run) == []
    ensures WorkInv(p, after, job.(phase := Deciding(job.phase.targets[1..])), e)
  {
  }

  lemma DecideTargets(approvals: seq<Approval>, job: Job, e: RunEntry)
    requires WorkInv(OneApproval, approvals, job, e) && job.phase.Deciding? && job.phase.targets != []
    ensures |PendingFor(approvals, job.run)| == 1 && PendingFor(approvals, job.run) == job.phase.targets
  {
  }

  lemma {:induction false} DecideEffect(s: System, j: JobId)
    requires CleanInv(OneApproval, s) && CanDecide(s, j)
    ensures var s' := DecideStep(s, j);
            && (forall q :: q != s.jobs[j].run ==> SameOpen(s.approvals, s'.approvals, q))
            && PendingFor(s'.approvals, s.jobs[j].run) == []
  {
    var job := s.jobs[j];
    assert WorkInv(OneApproval, s.approvals, job, s.runs[job.run]);
    DecideTargets(s.approvals, job, s.runs[job.run]);
    PendingFirst(s.approvals, job.run);
    DecideElsewhere(s.approvals, job.phase.targets[0], job.order.value.decision, job.order.value.reason, job.run);
  }

  lemma DecideTouches(p: Promise, s: System, j: JobId)
    requires CleanInv(p, s) && CanDecide(s, j)
    ensures OnlyTouches(p, s, DecideStep(s, j), s.jobs[j].run, j)
    ensures p.OneApproval? ==> PendingFor(DecideStep(s, j).approvals, s.jobs[j].run) == []
  {
    if p.OneApproval? {
      DecideEffect(s, j);
    }
  }

  lemma {:induction false} DecideClean(p: Promise, s: System, j: JobId)
    requires CleanInv(p, s)
    ensures CleanInv(p, DecideStep(s, j))
  {
    if CanDecide(s, j) {
      var job, s' := s.jobs[j], DecideStep(s, j);
      assert WorkInv(p, s.approvals, job, s.runs[job.run]);
      DecideTouches(p, s, j);
      DecideWork(p, s.approvals, s'.approvals, job, s.runs[job.run]);
      CleanFrame(p, s, s', job.run, j);
    }
  }

  lemma PersistWork(p: Promise, approvals: seq<Approval>, job: Job, e: RunEntry, final: RunState)
    requires WorkInv(p, approvals, job, e) && ReadyToExecute(job)
    ensures WorkInv(p, approvals, job.(phase := Persisting(final, PersistedLen(job.base))), e)
  {
  }

  lemma {:induction false} PersistClean(p: Promise, s: System, j: JobId, final: RunState)
    requires CleanInv(p, s) && j in s.jobs && ReadyToExecute(s.jobs[j])
    ensures CleanInv(p, WithJob(s, j, Persisting(final, PersistedLen(s.jobs[j].base))))
  {
    PersistWork(p, s.approvals, s.jobs[j], s.runs[s.jobs[j].run], final);
    MoveJobClean(p, s, j, s.jobs[j].(phase := Persisting(final, PersistedLen(s.jobs[j].base))), s.nextJob);
  }

  lemma {:induction false} CrashClean(p: Promise, s: System, j: JobId)
    requires CleanInv(p, s) && Undisturbed(p, s, Crash(j))
    ensures CleanInv(p, Finish(s, j))
  {
    if j in s.jobs {
      assert WorkInv(p, s.approvals, s.jobs[j], s.runs[s.jobs[j].run]);
      FinishClean(p, s, j);
    } else {
      assert Finish(s, j) == s;
    }
  }

  lemma FailedIsIdle(p: Promise, approvals: seq<Approval>, job: Job, e: RunEntry)
    requires WorkInv(p, approvals, job, e) && !Critical(p, job) && job.order == None
    requires p.OneApproval? ==> !FailsWaiting(job)
    ensures IdleInv(p, approvals, job.run, e.(row := FailRow(e.row)))
  {
  }

  lemma {:induction false} RaiseClean(p: Promise, s: System, j: JobId)
    requires CleanInv(p, s) && Undisturbed(p, s, Raise(j))
    ensures CleanInv(p, RaiseStep(s, j))
  {
    if j in s.jobs {
      var job := s.jobs[j];
      var e := s.runs[job.run];
      assert WorkInv(p, s.approvals, job, e);
      if job.order == None {
        FailedIsIdle(p, s.approvals, job, e);
        EndJobClean(p, s, j, e.(row := FailRow(e.row)));
      } else {
        CrashClean(p, s, j);
      }
    }
  }

  lemma {:induction false} ExecuteClean(cfg: Config, p: Promise, s: System, j: JobId, tools: Dispatcher)
    requires CheckpointInv(cfg, s) && QueueInv(s) && CleanInv(p, s)
    ensures CleanInv(p, ExecuteStep(cfg, s, j, tools))
  {
    if j in s.jobs && ReadyToExecute(s.jobs[j]) {
      assert JobFromGraph(cfg, s.jobs[j]) && JobSettled(s.jobs[j]);
      ResultFromGraph(cfg, s.jobs[j], tools);
      match GraphResult(cfg, s.jobs[j], tools)
      case None => RaiseClean(p, s, j);
      case Some(final) => PersistClean(p, s, j, final);
    }
  }

  lemma AppendWork(p: Promise, approvals: seq<Approval>, j: JobId, job: Job, e: RunEntry, row: StepRow)
    requires WorkInv(p, approvals, job, e) && job.phase.Persisting? && j in job.lineage
    ensures WorkInv(p, approvals, job.(phase := Persisting(job.phase.final, job.phase.next + 1)),
                    e.(steps := e.steps + [row], authors := e.authors + [j]))
  {
  }

  lemma {:induction false} AppendClean(p: Promise, s: System, j: JobId)
    requires CleanInv(p, s)
    ensures CleanInv(p, AppendStep(s, j))
  {
    if AppendStep(s, j) != s {
      var job := s.jobs[j];
      var e, persisting := s.runs[job.run], job.phase;
      assert WorkInv(p, s.approvals, job, e);
      var row := StepOf(persisting.final.trace[persisting.next]);
      AppendWork(p, s.approvals, j, job, e, row);
      MoveBothClean(p, s, j, job.(phase := Persisting(persisting.final, persisting.next + 1)),
                    e.(steps := e.steps + [row], authors := e.authors + [j]));
    }
  }

  lemma SaveWork(p: Promise, approvals: seq<Approval>, job: Job, e: RunEntry)
    requires WorkInv(p, approvals, job, e) && job.phase.Persisting?
    ensures var final := job.phase.final;
            WorkInv(p, approvals, job.(phase := Saved(final)),
                    e.(row := SaveRow(e.row, final, |final.trace|), lineage := job.lineage))
  {
  }

  lemma {:induction false} SaveClean(p: Promise, s: System, j: JobId)
    requires CleanInv(p, s)
    ensures CleanInv(p, SaveStep(s, j))
  {
    if SaveStep(s, j) != s {
      var job := s.jobs[j];
      var e, final := s.runs[job.run], job.phase.final;
      SaveWork(p, s.approvals, job, e);
      MoveBothClean(p, s, j, job.(phase := Saved(final)),
                    e.(row := SaveRow(e.row, final, |final.trace|), lineage := job.lineage));
    }
  }

  /** A job that checked goes on to request, or its run is at rest. */
  lemma CheckWork(p: Promise, approvals: seq<Approval>, job: Job, e: RunEntry)
    requires WorkInv(p, approvals, job, e) && job.phase.Saved?
    ensures if NeedsApproval(job.phase.final) && PendingFor(approvals, job.run) == [] then
              WorkInv(p, approvals, job.(phase := Approving(job.phase.final)), e)
            else IdleInv(p, approvals, job.run, e)
  {
  }

  lemma {:induction false} CheckClean(p: Promise, s: System, j: JobId)
    requires CleanInv(p, s)
    ensures CleanInv(p, CheckStep(s, j))
  {
    if j in s.jobs && s.jobs[j].phase.Saved? {
      var job := s.jobs[j];
      CheckWork(p, s.approvals, job, s.runs[job.run]);
      if NeedsApproval(job.phase.final) && PendingFor(s.approvals, job.run) == [] {
        MoveJobClean(p, s, j, job.(phase := Approving(job.phase.final)), s.nextJob);
      } else {
        FinishClean(p, s, j);
      }
    }
  }

  lemma RequestWork(p: Promise, approvals: seq<Approval>, job: Job, e: RunEntry)
    requires WorkInv(p, approvals, job, e) && job.phase.Approving? && NeedsApproval(job.phase.final)
    ensures IdleInv(p, approvals + [RequestFor(job.run, job.phase.final)], job.run, e)
  {
    if p.OneApproval? {
      RequestOpens(approvals, job.run, job.phase.final);
    }
  }

  lemma RequestTouches(p: Promise, s: System, j: JobId)
    requires j in s.jobs && j < s.nextJob && s.jobs[j].phase.Approving? && s.jobs[j].run in s.runs
    requires NeedsApproval(s.jobs[j].phase.final)
    ensures OnlyTouches(p, s, RequestStep(s, j), s.jobs[j].run, j)
  {
    var request := RequestFor(s.jobs[j].run, s.jobs[j].phase.final);
    forall q | q in s.runs && q != s.jobs[j].run ensures SameOpen(s.approvals, s.approvals + [request], q) {
      PendingSnoc(s.approvals, request, q);
    }
  }

  lemma {:induction false} RequestClean(p: Promise, s: System, j: JobId)
    requires CleanInv(p, s)
    ensures CleanInv(p, RequestStep(s, j))
  {
    if j in s.jobs && s.jobs[j].phase.Approving? && NeedsApproval(s.jobs[j].phase.final) {
      var job := s.jobs[j];
      assert WorkInv(p, s.approvals, job, s.runs[job.run]);
      RequestWork(p, s.approvals, job, s.runs[job.run]);
      RequestTouches(p, s, j);
      CleanFrame(p, s, RequestStep(s, j), job.run, j);
    }
  }

  lemma TickClean(p: Promise, s: System, seconds: nat)
    requires CleanInv(p, s)
    ensures CleanInv(p, s.(now := s.now + seconds))
  {
    var s' := s.(now := s.now + seconds);
    forall q | q in s'.runs && Idle(s', q) ensures IdleInv(p, s'.approvals, q, s'.runs[q]) {
      assert Idle(s, q);
    }
  }

  lemma {:induction false} JobStepKeepsClean(cfg: Config, p: Promise, s: System, l: Label)
    requires CheckpointInv(cfg, s) && QueueInv(s) && CleanInv(p, s)
    requires l.Renew? || l.ListPending? || l.Decide? || l.Execute? || l.Append? || l.Save? || l.Check? || l.RequestApproval?
    ensures CleanInv(p, Step(cfg, s, l))
  {
    match l
    case Renew(j, lease) => RenewClean(p, s, j, lease);
    case ListPending(j) => ListClean(p, s, j);
    case Decide(j) => DecideClean(p, s, j);
    case Execute(j, tools) => ExecuteClean(cfg, p, s, j, tools);
    case Append(j) => AppendClean(p, s, j);
    case Save(j) => SaveClean(p, s, j);
    case Check(j) => CheckClean(p, s, j);
    case RequestApproval(j) => RequestClean(p, s, j);
  }

  lemma {:induction false} QueueStepKeepsClean(cfg: Config, p: Promise, s: System, l: Label)
    requires QueueInv(s) && CleanInv(p, s)
    requires l.Create? || l.Tick? || l.Claim?
    ensures CleanInv(p, Step(cfg, s, l))
  {
    match l
    case Create(run, key, vertical) => CreateClean(p, s, run, key, vertical);
    case Tick(seconds) => TickClean(p, s, seconds);
    case Claim(run, worker, lease) => ClaimClean(p, s, run, worker, lease);
  }

  /** The steps that a clean history restricts. */
  lemma {:induction false} RestrictedStepKeepsClean(cfg: Config, p: Promise, s: System, l: Label)
    requires CleanInv(p, s) && Undisturbed(p, s, l)
    requires l.ReleaseStale? || l.OpenResume? || l.Raise? || l.Crash?
    ensures CleanInv(p, Step(cfg, s, l))
  {
    match l
    case ReleaseStale => ReleaseClean(p, s);
    case OpenResume(run, approval, order) => OpenClean(p, s, run, approval, order);
    case Raise(j) => RaiseClean(p, s, j);
    case Crash(j) => CrashClean(p, s, j);
  }

  lemma {:induction false} StepKeepsClean(cfg: Config, p: Promise, s: System, l: Label)
    requires CheckpointInv(cfg, s) && QueueInv(s) && CleanInv(p, s) && Undisturbed(p, s, l)
    ensures CleanInv(p, Step(cfg, s, l))
  {
    if l.Create? || l.Tick? || l.Claim? {
      QueueStepKeepsClean(cfg, p, s, l);
    } else if l.ReleaseStale? || l.OpenResume? || l.Raise? || l.Crash? {
      RestrictedStepKeepsClean(cfg, p, s, l);
    } else {
      JobStepKeepsClean(cfg, p, s, l);
    }
  }

  lemma {:induction false} CleanAlways(cfg: Config, p: Promise, labels: seq<Label>)
    requires CleanHistory(cfg, p, labels)
    ensures CleanInv(p, History(cfg, labels))
    decreases |labels|
  {
    if labels != [] {
      var n := |labels| - 1;
      CleanAlways(cfg, p, labels[..n]);
      QueueAlways(cfg, labels[..n]);
      CheckpointsAlways(cfg, labels[..n]);
      StepKeepsClean(cfg, p, History(cfg, labels[..n]), labels[n]);
    }
  }
}
