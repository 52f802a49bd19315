/** In a clean history the approvals a human decides on are the executions
    that follow: each gated row in run_steps was written by a resume of a run
    with one open approval, which was then decided as approved and names the
    very tool that the row executes. */
module ApprovedActions {
  import opened Prelude
  import opened Nodes
  import opened GraphBudgets
  import opened Tables
  import opened Protocol
  import opened ProtocolSafety
  import opened Checkpoints
  import opened Lineage
  import opened OpenApprovals
  import opened CleanRuns
  import opened GatedExecutions

  // ---------------------------------------------- what is asked, what is done

  /** The question a job was opened to answer: the run's one open approval. */
  function AskedBy(s: System, l: Label): map<JobId, nat> {
    if l.OpenResume? && CanOpen(s, l.run, l.approval) && |PendingFor(s.approvals, l.run)| == 1 then
      map[s.nextJob := PendingFor(s.approvals, l.run)[0]]
    else map[]
  }

  function Asked(cfg: Config, labels: seq<Label>): map<JobId, nat> {
    if labels == [] then map[]
    else
      var n := |labels| - 1;
      Asked(cfg, labels[..n]) + AskedBy(History(cfg, labels[..n]), labels[n])
  }

  /** The approval of a job is about this run and tool. */
  ghost predicate AsksFor(approvals: seq<Approval>, asked: map<JobId, nat>, j: JobId, r: RunId, tool: string) {
    && j in asked && asked[j] < |approvals|
    && approvals[asked[j]].run == r && approvals[asked[j]].action == tool
  }

  ghost predicate DecidedAs(approvals: seq<Approval>, asked: map<JobId, nat>, j: JobId, decision: Decision) {
    j in asked && asked[j] < |approvals| && approvals[asked[j]].decision == Some(decision)
  }

  ghost predicate RowAsked(approvals: seq<Approval>, asked: map<JobId, nat>, r: RunId, row: StepRow, author: JobId) {
    GatedEntry(row.output) ==>
      AsksFor(approvals, asked, author, r, row.output.toolName) && DecidedAs(approvals, asked, author, Approved)
  }

  /** A resume of a waiting run knows its question, and from the time it
      persists it has answered it; only then may it write a gated row. */
  ghost predicate JobAsked(approvals: seq<Approval>, asked: map<JobId, nat>, j: JobId, job: Job) {
    && (job.order.Some? && BaseNeedsApproval(job) ==>
          && AsksFor(approvals, asked, j, job.run, job.base.value.state.pendingTool.value)
          && match job.phase
             case Deciding(targets) =>
               targets == [asked[j]] || (targets == [] && DecidedAs(approvals, asked, j, job.order.value.decision))
             case Opened => PendingFor(approvals, job.run) == [asked[j]]
             case Claimed => true
             case _ => DecidedAs(approvals, asked, j, job.order.value.decision))
    && (job.phase.Persisting? ==>
          forall m :: job.phase.next <= m < |job.phase.final.trace| ==>
            RowAsked(approvals, asked, job.run, StepOf(job.phase.final.trace[m]), j))
  }

  ghost predicate AskedInv(s: System, asked: map<JobId, nat>) {
    && (forall j :: j in asked ==> j < s.nextJob)
    && (forall r, i :: r in s.runs && 0 <= i < |s.runs[r].steps| && i < |s.runs[r].authors| ==>
          RowAsked(s.approvals, asked, r, s.runs[r].steps[i], s.runs[r].authors[i]))
    && (forall j :: j in s.jobs ==> JobAsked(s.approvals, asked, j, s.jobs[j]))
  }

  /** What is asked and decided stays so. */
  ghost predicate KeepsAnswers(before: seq<Approval>, after: seq<Approval>) {
    && |before| <= |after|
    && forall i :: 0 <= i < |before| ==>
         && after[i].run == before[i].run && after[i].action == before[i].action
         && (before[i].decision.Some? ==> after[i].decision == before[i].decision)
  }

  lemma RowStaysAsked(before: seq<Approval>, after: seq<Approval>, asked: map<JobId, nat>, asked': map<JobId, nat>,
                      r: RunId, row: StepRow, author: JobId)
    requires KeepsAnswers(before, after) && RowAsked(before, asked, r, row, author)
    requires forall j :: j in asked ==> j in asked' && asked'[j] == asked[j]
    ensures RowAsked(after, asked', r, row, author)
  {
  }

  lemma JobStaysAsked(before: seq<Approval>, after: seq<Approval>, asked: map<JobId, nat>, asked': map<JobId, nat>, j: JobId, job: Job)
    requires KeepsAnswers(before, after) && JobAsked(before, asked, j, job)
    requires job.phase.Opened? ==> PendingFor(after, job.run) == PendingFor(before, job.run)
    requires forall j :: j in asked ==> j in asked' && asked'[j] == asked[j]
    ensures JobAsked(after, asked', j, job)
  {
    if job.phase.Persisting? {
      forall m | job.phase.next <= m < |job.phase.final.trace|
        ensures RowAsked(after, asked', job.run, StepOf(job.phase.final.trace[m]), j)
      {
        RowStaysAsked(before, after, asked, asked', job.run, StepOf(job.phase.final.trace[m]), j);
      }
    }
  }

  /** A step that writes no row and moves no job but `mine`. */
  lemma AskedFrame(s: System, s': System, asked: map<JobId, nat>, asked': map<JobId, nat>, mine: JobId)
    requires AskedInv(s, asked) && KeepsAnswers(s.approvals, s'.approvals)
    requires forall j :: j in asked ==> j in asked' && asked'[j] == asked[j]
    requires (forall j :: j in asked' ==> j < s'.nextJob)
    requires forall r :: r in s'.runs ==>
               s'.runs[r].authors == [] || (r in s.runs && SameSteps(s.runs[r], s'.runs[r]))
    requires forall k :: k in s'.jobs && k != mine ==>
               && k in s.jobs && s'.jobs[k] == s.jobs[k]
               && (s.jobs[k].phase.Opened? ==> PendingFor(s'.approvals, s.jobs[k].run) == PendingFor(s.approvals, s.jobs[k].run))
    requires mine in s'.jobs ==> JobAsked(s'.approvals, asked', mine, s'.jobs[mine])
    ensures AskedInv(s', asked')
  {
    forall r, i | r in s'.runs && 0 <= i < |s'.runs[r].steps| && i < |s'.runs[r].authors|
      ensures RowAsked(s'.approvals, asked', r, s'.runs[r].steps[i], s'.runs[r].authors[i])
    {
      RowStaysAsked(s.approvals, s'.approvals, asked, asked', r, s.runs[r].steps[i], s.runs[r].authors[i]);
    }
    forall k | k in s'.jobs && k != mine ensures JobAsked(s'.approvals, asked', k, s'.jobs[k]) {
      JobStaysAsked(s.approvals, s'.approvals, asked, asked', k, s.jobs[k]);
    }
  }

  // ------------------------------------------------------------------- steps

  /** The one open approval of a waiting run asks for its pending tool. */
  lemma OpeningAsks(s: System, r: RunId, approval: Option<nat>, order: Order)
    requires CanOpen(s, r, approval) && IdleInv(OneApproval, s.approvals, r, s.runs[r])
    ensures var job := Opening(s.runs[r], r, approval, order, s.nextJob);
            JobAsked(s.approvals, AskedBy(s, OpenResume(r, approval, order)), s.nextJob, job)
  {
    var saved := s.runs[r].row.checkpoint.value.state;
    if NeedsApproval(saved) {
      PendingFirst(s.approvals, r);
      assert AskedBy(s, OpenResume(r, approval, order)) == map[s.nextJob := PendingFor(s.approvals, r)[0]];
      if approval.Some? {
        PendingForMeaning(s.approvals, r);
        assert approval.value in PendingFor(s.approvals, r);
      }
    }
  }

  lemma {:induction false} StartAsked(s: System, asked: map<JobId, nat>, asked': map<JobId, nat>, job: Job)
    requires AskedInv(s, asked) && JobAsked(s.approvals, asked', s.nextJob, job)
    requires forall j :: j in asked ==> j in asked' && asked'[j] == asked[j]
    requires forall j :: j in asked' ==> j <= s.nextJob
    ensures AskedInv(s.(jobs := s.jobs[s.nextJob := job], nextJob := s.nextJob + 1), asked')
  {
    AskedFrame(s, s.(jobs := s.jobs[s.nextJob := job], nextJob := s.nextJob + 1), asked, asked', s.nextJob);
  }

  lemma {:induction false} OpenAsked(s: System, asked: map<JobId, nat>, r: RunId, approval: Option<nat>, order: Order)
    requires CleanInv(OneApproval, s) && AskedInv(s, asked) && Idle(s, r)
    ensures AskedInv(OpenStep(s, r, approval, order), asked + AskedBy(s, OpenResume(r, approval, order)))
  {
    if CanOpen(s, r, approval) {
      assert IdleInv(OneApproval, s.approvals, r, s.runs[r]);
      OpeningAsks(s, r, approval, order);
      var asked' := asked + AskedBy(s, OpenResume(r, approval, order));
      assert s.nextJob !in asked;
      var job := Opening(s.runs[r], r, approval, order, s.nextJob);
      JobStaysAsked(s.approvals, s.approvals, AskedBy(s, OpenResume(r, approval, order)), asked', s.nextJob, job);
      StartAsked(s, asked, asked', job);
    } else {
      assert asked + map[] == asked;
    }
  }

  lemma {:induction false} ListAsked(s: System, asked: map<JobId, nat>, j: JobId)
    requires CleanInv(OneApproval, s) && AskedInv(s, asked)
    ensures AskedInv(ListStep(s, j), asked)
  {
    if j in s.jobs && s.jobs[j].phase.Opened? {
      assert JobAsked(s.approvals, asked, j, s.jobs[j]);
      AskedFrame(s, ListStep(s, j), asked, asked, j);
    }
  }

  lemma OpenIsUndecided(approvals: seq<Approval>, t: nat, r: RunId)
    requires PendingFor(approvals, r) == [t]
    ensures t < |approvals| && approvals[t].decision == None
  {
    PendingForMeaning(approvals, r);
    assert t in PendingFor(approvals, r);
  }

  /** Deciding an open approval changes no answer already given. */
  lemma DecideKeepsAnswers(approvals: seq<Approval>, t: nat, decision: Decision, reason: string)
    requires t < |approvals| && approvals[t].decision == None
    ensures KeepsAnswers(approvals, DecideAt(approvals, t, decision, reason))
    ensures DecideAt(approvals, t, decision, reason)[t].decision == Some(decision)
  {
  }

  /** Its own question answered, the job may go on. */
  lemma DecideJobAsked(before: seq<Approval>, after: seq<Approval>, asked: map<JobId, nat>, j: JobId, job: Job)
    requires JobAsked(before, asked, j, job) && KeepsAnswers(before, after)
    requires job.phase.Deciding? && |job.phase.targets| == 1 && job.order.Some?
    requires job.phase.targets[0] < |after| && after[job.phase.targets[0]].decision == Some(job.order.value.decision)
    ensures JobAsked(after, asked, j, job.(phase := Deciding(job.phase.targets[1..])))
  {
  }

  lemma DecideOwn(s: System, asked: map<JobId, nat>, j: JobId)
    requires CanDecide(s, j) && s.jobs[j].run in s.runs
    requires WorkInv(OneApproval, s.approvals, s.jobs[j], s.runs[s.jobs[j].run]) && JobAsked(s.approvals, asked, j, s.jobs[j])
    ensures var s' := DecideStep(s, j);
            KeepsAnswers(s.approvals, s'.approvals) && JobAsked(s'.approvals, asked, j, s'.jobs[j])
  {
    var job := s.jobs[j];
    var t := job.phase.targets[0];
    DecideTargets(s.approvals, job, s.runs[job.run]);
    OpenIsUndecided(s.approvals, t, job.run);
    DecideKeepsAnswers(s.approvals, t, job.order.value.decision, job.order.value.reason);
    DecideJobAsked(s.approvals, DecideStep(s, j).approvals, asked, j, job);
  }

  lemma {:induction false} DecideAsked(s: System, asked: map<JobId, nat>, j: JobId)
    requires CleanInv(OneApproval, s) && AskedInv(s, asked)
    ensures AskedInv(DecideStep(s, j), asked)
  {
    if CanDecide(s, j) {
      DecideOwnAsked(s, asked, j);
      DecideOthers(s, j);
      AskedFrame(s, DecideStep(s, j), asked, asked, j);
    }
  }

  lemma {:induction false} DecideOwnAsked(s: System, asked: map<JobId, nat>, j: JobId)
    requires CleanInv(OneApproval, s) && AskedInv(s, asked) && CanDecide(s, j)
    ensures var s' := DecideStep(s, j);
            KeepsAnswers(s.approvals, s'.approvals) && JobAsked(s'.approvals, asked, j, s'.jobs[j])
  {
    assert WorkInv(OneApproval, s.approvals, s.jobs[j], s.runs[s.jobs[j].run]) && JobAsked(s.approvals, asked, j, s.jobs[j]);
    DecideOwn(s, asked, j);
  }

  lemma DecideOthers(s: System, j: JobId)
    requires CleanInv(OneApproval, s) && CanDecide(s, j)
    ensures DecideStep(s, j).runs == s.runs && DecideStep(s, j).nextJob == s.nextJob
    ensures forall k :: k in DecideStep(s, j).jobs && k != j ==> k in s.jobs && DecideStep(s, j).jobs[k] == s.jobs[k]
    ensures forall k :: k in s.jobs && k != j ==>
              PendingFor(DecideStep(s, j).approvals, s.jobs[k].run) == PendingFor(s.approvals, s.jobs[k].run)
  {
    DecideEffect(s, j);
    var after := DecideStep(s, j).approvals;
    forall k | k in s.jobs && k != j ensures PendingFor(after, s.jobs[k].run) == PendingFor(s.approvals, s.jobs[k].run) {
      assert s.jobs[k].run != s.jobs[j].run;
      assert SameOpen(s.approvals, after, s.jobs[k].run);
    }
  }

  /** The gated execution an approval leads to is that of the pending tool. */
  lemma ApprovalRunsPending(cfg: Config, job: Job, d: Dispatcher, m: nat)
    requires GraphResult(cfg, job, d).Some? && (job.order == None <==> job.base == None)
    requires job.base.Some? ==> WithinBudget(cfg.registry, job.base.value.state)
    requires var final := GraphResult(cfg, job, d).value;
             var from := if job.base.Some? then |job.base.value.state.trace| else 0;
             from <= m < |final.trace| && GatedEntry(final.trace[m])
    ensures Approves(job) && BaseNeedsApproval(job)
    ensures job.base.value.state.pendingTool == Some(GraphResult(cfg, job, d).value.trace[m].toolName)
  {
    GraphAddsOne(cfg, job, d, m);
    var s := job.base.value.state;
    if s.status == ApprovalRequired {
      var executed := ExecutePending(cfg.registry, s, d).value;
      LoopAddsNone(cfg.registry, executed, d);
      if NeedsApproval(s) {
        assert executed.trace[|s.trace|].toolName == s.pendingTool.value;
      }
    }
  }

  lemma {:induction false} ResultAsked(cfg: Config, s: System, asked: map<JobId, nat>, j: JobId, tools: Dispatcher)
    requires QueueInv(s) && LineageInv(s) && CheckpointInv(cfg, s) && AskedInv(s, asked)
    requires j in s.jobs && ReadyToExecute(s.jobs[j]) && GraphResult(cfg, s.jobs[j], tools).Some?
    ensures var final := GraphResult(cfg, s.jobs[j], tools).value;
            var from := PersistedLen(s.jobs[j].base);
            forall m :: from <= m < |final.trace| ==> RowAsked(s.approvals, asked, s.jobs[j].run, StepOf(final.trace[m]), j)
  {
    var job := s.jobs[j];
    var final := GraphResult(cfg, job, tools).value;
    assert JobSettled(job) && JobFromGraph(cfg, job) && JobAsked(s.approvals, asked, j, job);
    assert JobInv(s, j, job, s.runs[job.run]);
    forall m | PersistedLen(job.base) <= m < |final.trace| && GatedEntry(final.trace[m])
      ensures AsksFor(s.approvals, asked, j, job.run, final.trace[m].toolName) && DecidedAs(s.approvals, asked, j, Approved)
    {
      ApprovalRunsPending(cfg, job, tools, m);
    }
  }

  lemma {:induction false} ExecuteAsked(cfg: Config, s: System, asked: map<JobId, nat>, j: JobId, tools: Dispatcher)
    requires QueueInv(s) && LineageInv(s) && CheckpointInv(cfg, s) && AskedInv(s, asked)
    ensures AskedInv(ExecuteStep(cfg, s, j, tools), asked)
  {
    if j in s.jobs && ReadyToExecute(s.jobs[j]) {
      match GraphResult(cfg, s.jobs[j], tools)
      case None => EndAsked(s, asked, j);
      case Some(final) =>
        ResultAsked(cfg, s, asked, j, tools);
        PersistAsked(s, asked, j, final);
    }
  }

  lemma {:induction false} PersistAsked(s: System, asked: map<JobId, nat>, j: JobId, final: RunState)
    requires AskedInv(s, asked) && j in s.jobs && ReadyToExecute(s.jobs[j])
    requires forall m :: PersistedLen(s.jobs[j].base) <= m < |final.trace| ==>
               RowAsked(s.approvals, asked, s.jobs[j].run, StepOf(final.trace[m]), j)
    ensures AskedInv(WithJob(s, j, Persisting(final, PersistedLen(s.jobs[j].base))), asked)
  {
    assert JobAsked(s.approvals, asked, j, s.jobs[j]);
    AskedFrame(s, WithJob(s, j, Persisting(final, PersistedLen(s.jobs[j].base))), asked, asked, j);
  }

  lemma {:induction false} EndAsked(s: System, asked: map<JobId, nat>, j: JobId)
    requires AskedInv(s, asked)
    ensures AskedInv(Finish(s, j), asked) && AskedInv(RaiseStep(s, j), asked)
  {
    AskedFrame(s, Finish(s, j), asked, asked, j);
    AskedFrame(s, RaiseStep(s, j), asked, asked, j);
  }

  lemma {:induction false} AppendAsked(s: System, asked: map<JobId, nat>, j: JobId)
    requires LineageInv(s) && AskedInv(s, asked)
    ensures AskedInv(AppendStep(s, j), asked)
  {
    var s' := AppendStep(s, j);
    if s' != s {
      var r := s.jobs[j].run;
      assert JobAsked(s.approvals, asked, j, s.jobs[j]) && EntryInv(s, s.runs[r]);
      forall q, i | q in s'.runs && 0 <= i < |s'.runs[q].steps| && i < |s'.runs[q].authors|
        ensures RowAsked(s'.approvals, asked, q, s'.runs[q].steps[i], s'.runs[q].authors[i])
      {
        if q != r || i < |s.runs[r].steps| {
          assert RowAsked(s.approvals, asked, q, s.runs[q].steps[i], s.runs[q].authors[i]);
        }
      }
      forall k | k in s'.jobs ensures JobAsked(s'.approvals, asked, k, s'.jobs[k]) {
        assert JobAsked(s.approvals, asked, k, s.jobs[k]);
      }
    }
  }

  lemma {:induction false} SaveAsked(s: System, asked: map<JobId, nat>, j: JobId)
    requires AskedInv(s, asked)
    ensures AskedInv(SaveStep(s, j), asked)
  {
    if SaveStep(s, j) != s {
      assert JobAsked(s.approvals, asked, j, s.jobs[j]);
      AskedFrame(s, SaveStep(s, j), asked, asked, j);
    }
  }

  lemma {:induction false} CheckAsked(s: System, asked: map<JobId, nat>, j: JobId)
    requires AskedInv(s, asked)
    ensures AskedInv(CheckStep(s, j), asked)
  {
    if j in s.jobs && s.jobs[j].phase.Saved? {
      assert JobAsked(s.approvals, asked, j, s.jobs[j]);
      AskedFrame(s, CheckStep(s, j), asked, asked, j);
    }
  }

  lemma {:induction false} RequestAsked(s: System, asked: map<JobId, nat>, j: JobId)
    requires CleanInv(OneApproval, s) && AskedInv(s, asked)
    ensures AskedInv(RequestStep(s, j), asked)
  {
    if j in s.jobs && s.jobs[j].phase.Approving? && NeedsApproval(s.jobs[j].phase.final) {
      RequestTouches(OneApproval, s, j);
      var after := RequestStep(s, j).approvals;
      forall k | k in s.jobs && k != j ensures PendingFor(after, s.jobs[k].run) == PendingFor(s.approvals, s.jobs[k].run) {
        assert s.jobs[k].run != s.jobs[j].run;
      }
      AskedFrame(s, RequestStep(s, j), asked, asked, j);
    }
  }

  lemma {:induction false} ClaimAsked(s: System, asked: map<JobId, nat>, r: RunId, worker: WorkerId, lease: int)
    requires AskedInv(s, asked)
    ensures AskedInv(ClaimStep(s, r, worker, lease), asked)
  {
    if ClaimStep(s, r, worker, lease) != s {
      AskedFrame(s, ClaimStep(s, r, worker, lease), asked, asked, s.nextJob);
    }
  }

  lemma {:induction false} QueueStepKeepsAsked(cfg: Config, s: System, asked: map<JobId, nat>, l: Label)
    requires AskedInv(s, asked)
    requires l.Create? || l.Tick? || l.ReleaseStale? || l.Claim? || l.Renew? || l.Raise? || l.Crash?
    ensures AskedInv(Step(cfg, s, l), asked)
  {
    match l
    case Create(run, key, vertical) => AskedFrame(s, CreateStep(s, run, key, vertical), asked, asked, s.nextJob);
    case Tick(seconds) => AskedFrame(s, s.(now := s.now + seconds), asked, asked, s.nextJob);
    case ReleaseStale => AskedFrame(s, ReleaseStep(s), asked, asked, s.nextJob);
    case Claim(run, worker, lease) => ClaimAsked(s, asked, run, worker, lease);
    case Renew(j, lease) => AskedFrame(s, RenewStep(s, j, lease), asked, asked, s.nextJob);
    case Raise(j) => EndAsked(s, asked, j);
    case Crash(j) => EndAsked(s, asked, j);
  }

  lemma {:induction false} JobStepKeepsAsked(cfg: Config, s: System, asked: map<JobId, nat>, l: Label)
    requires QueueInv(s) && LineageInv(s) && CheckpointInv(cfg, s) && CleanInv(OneApproval, s)
    requires AskedInv(s, asked)
    requires l.ListPending? || l.Decide? || l.Execute? || l.Append? || l.Save? || l.Check? || l.RequestApproval?
    ensures AskedInv(Step(cfg, s, l), asked)
  {
    match l
    case ListPending(j) => ListAsked(s, asked, j);
    case Decide(j) => DecideAsked(s, asked, j);
    case Execute(j, tools) => ExecuteAsked(cfg, s, asked, j, tools);
    case Append(j) => AppendAsked(s, asked, j);
    case Save(j) => SaveAsked(s, asked, j);
    case Check(j) => CheckAsked(s, asked, j);
    case RequestApproval(j) => RequestAsked(s, asked, j);
  }

  lemma NothingAsked(s: System, asked: map<JobId, nat>, l: Label)
    requires !l.OpenResume?
    ensures asked + AskedBy(s, l) == asked
  {
  }

  lemma {:induction false} StepKeepsAsked(cfg: Config, s: System, asked: map<JobId, nat>, l: Label)
    requires QueueInv(s) && LineageInv(s) && CheckpointInv(cfg, s) && CleanInv(OneApproval, s)
    requires AskedInv(s, asked) && Undisturbed(OneApproval, s, l)
    ensures AskedInv(Step(cfg, s, l), asked + AskedBy(s, l))
  {
    match l
    case OpenResume(r, approval, order) => OpenAsked(s, asked, r, approval, order);
    case _ =>
      NothingAsked(s, asked, l);
      OtherStepKeepsAsked(cfg, s, asked, l);
  }

  lemma {:induction false} OtherStepKeepsAsked(cfg: Config, s: System, asked: map<JobId, nat>, l: Label)
    requires QueueInv(s) && LineageInv(s) && CheckpointInv(cfg, s) && CleanInv(OneApproval, s)
    requires AskedInv(s, asked) && !l.OpenResume?
    ensures AskedInv(Step(cfg, s, l), asked)
  {
    if l.ListPending? || l.Decide? || l.Execute? || l.Append? || l.Save? || l.Check? || l.RequestApproval? {
      JobStepKeepsAsked(cfg, s, asked, l);
    } else {
      QueueStepKeepsAsked(cfg, s, asked, l);
    }
  }

  lemma {:induction false} AskedAlways(cfg: Config, labels: seq<Label>)
    requires CleanHistory(cfg, OneApproval, labels)
    ensures AskedInv(History(cfg, labels), Asked(cfg, labels))
    decreases |labels|
  {
    if labels != [] {
      var n := |labels| - 1;
      AskedAlways(cfg, labels[..n]);
      QueueAlways(cfg, labels[..n]);
      LineageAlways(cfg, labels[..n]);
      CheckpointsAlways(cfg, labels[..n]);
      CleanAlways(cfg, OneApproval, labels[..n]);
      StepKeepsAsked(cfg, History(cfg, labels[..n]), Asked(cfg, labels[..n]), labels[n]);
    }
  }

  /** In every clean history: the approval that the author of a gated row was
      opened to answer is the run's, was decided as approved, and names the
      tool that the row executes. */
  lemma {:induction false} GatedRowsRunApprovedActions(cfg: Config, labels: seq<Label>, r: RunId, i: nat)
    requires CleanHistory(cfg, OneApproval, labels)
    requires r in History(cfg, labels).runs && i < |History(cfg, labels).runs[r].steps|
    requires GatedEntry(History(cfg, labels).runs[r].steps[i].output)
    ensures var s, asked := History(cfg, labels), Asked(cfg, labels);
            && |s.runs[r].steps| == |s.runs[r].authors|
            && var author := s.runs[r].authors[i];
               && author in asked && asked[author] < |s.approvals|
               && var a := s.approvals[asked[author]];
                  a.run == r && a.decision == Some(Approved) && a.action == s.runs[r].steps[i].toolName
  {
    AskedAlways(cfg, labels);
    LineageAlways(cfg, labels);
    var s := History(cfg, labels);
    var e := s.runs[r];
    assert EntryInv(s, e);
    assert RowAsked(s.approvals, Asked(cfg, labels), r, e.steps[i], e.authors[i]);
    assert e.steps[i] == StepOf(e.steps[i].output);
  }
}
