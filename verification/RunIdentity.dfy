/** Whose checkpoint it is: in every history a checkpoint is about the run in
    whose row it stands, of the skill and the vertical that the row names, and
    follows that skill's plan. */
module RunIdentity {
  import opened Prelude
  import opened Nodes
  import opened RunGraph
  import opened GraphAnswers
  import opened Tables
  import opened Protocol

  /** The vertical a run is executed in. */
  ghost predicate InVertical(row: Row, vertical: string) {
    if row.vertical == None || row.vertical == Some("") then vertical == "finance" else Some(vertical) == row.vertical
  }

  /** The state is about this run, and its error is the reason. */
  ghost predicate About(cfg: Config, r: RunId, row: Row, s: RunState) {
    && s.runId == r && s.skillName == row.workflowKey && InVertical(row, s.vertical)
    && PlansFor(cfg, row.workflowKey, s.plan)
    && ErrorTells(cfg, s)
  }

  ghost predicate AsksFor(r: RunId, row: Row, q: Request) {
    q.runId == r && q.skillName == row.workflowKey && InVertical(row, q.vertical)
  }

  ghost predicate JobAbout(cfg: Config, row: Row, job: Job) {
    && AsksFor(job.run, row, job.request)
    && (job.base.Some? ==> About(cfg, job.run, row, job.base.value.state))
    && (job.phase.Persisting? || job.phase.Saved? || job.phase.Approving? ==> About(cfg, job.run, row, job.phase.final))
  }

  ghost predicate RowAbout(cfg: Config, r: RunId, row: Row) {
    row.checkpoint.Some? ==> About(cfg, r, row, row.checkpoint.value.state)
  }

  ghost predicate AboutInv(cfg: Config, s: System) {
    && (forall r :: r in s.runs ==> RowAbout(cfg, r, s.runs[r].row))
    && (forall j :: j in s.jobs ==> s.jobs[j].run in s.runs && JobAbout(cfg, s.runs[s.jobs[j].run].row, s.jobs[j]))
  }

  /** What the row says of the run is never changed. */
  ghost predicate SameNames(row: Row, row': Row) {
    row'.workflowKey == row.workflowKey && row'.vertical == row.vertical
  }

  lemma RequestAsks(r: RunId, row: Row)
    ensures AsksFor(r, row, RequestOf(r, row))
  {
  }

  lemma InvokeAbout(cfg: Config, r: RunId, row: Row, q: Request, tools: Dispatcher)
    requires AsksFor(r, row, q) && Invoke(cfg, q, tools).Some?
    ensures About(cfg, r, row, Invoke(cfg, q, tools).value)
  {
    RunKeepsRequest(cfg, q, tools, []);
    RunErrs(cfg, q, tools, []);
  }

  lemma ResumeAbout(cfg: Config, r: RunId, row: Row, s: RunState, decision: Decision, tools: Dispatcher)
    requires About(cfg, r, row, s) && Resume(cfg.registry, s, decision, tools).Some?
    ensures About(cfg, r, row, Resume(cfg.registry, s, decision, tools).value)
  {
    ResumeKeepsRun(cfg.registry, s, decision, tools);
    ResumeErrs(cfg, s, decision, tools);
  }

  lemma ResultAbout(cfg: Config, row: Row, job: Job, tools: Dispatcher)
    requires JobAbout(cfg, row, job) && GraphResult(cfg, job, tools).Some?
    ensures About(cfg, job.run, row, GraphResult(cfg, job, tools).value)
  {
    match job.order
    case None => InvokeAbout(cfg, job.run, row, job.request, tools);
    case Some(order) => ResumeAbout(cfg, job.run, row, job.base.value.state, order.decision, tools);
  }

  // ------------------------------------------------------------------- steps

  lemma AboutFrame(cfg: Config, s: System, s': System, mine: JobId)
    requires AboutInv(cfg, s) && s.runs.Keys <= s'.runs.Keys
    requires forall r :: r in s.runs ==> SameNames(s.runs[r].row, s'.runs[r].row)
    requires forall r :: r in s'.runs ==>
               || s'.runs[r].row.checkpoint == None || RowAbout(cfg, r, s'.runs[r].row)
               || (r in s.runs && s'.runs[r].row.checkpoint == s.runs[r].row.checkpoint)
    requires forall k :: k in s'.jobs && k != mine ==> k in s.jobs && s'.jobs[k] == s.jobs[k]
    requires mine in s'.jobs ==>
               s'.jobs[mine].run in s'.runs && JobAbout(cfg, s'.runs[s'.jobs[mine].run].row, s'.jobs[mine])
    ensures AboutInv(cfg, s')
  {
    forall k | k in s'.jobs ensures s'.jobs[k].run in s'.runs && JobAbout(cfg, s'.runs[s'.jobs[k].run].row, s'.jobs[k]) {
      if k != mine {
        assert JobAbout(cfg, s.runs[s.jobs[k].run].row, s.jobs[k]);
      }
    }
    forall r | r in s'.runs ensures RowAbout(cfg, r, s'.runs[r].row) {
      if r in s.runs && s'.runs[r].row.checkpoint == s.runs[r].row.checkpoint {
        assert RowAbout(cfg, r, s.runs[r].row);
      }
    }
  }

  lemma ClaimAbout(cfg: Config, s: System, r: RunId, worker: WorkerId, lease: int)
    requires AboutInv(cfg, s)
    ensures AboutInv(cfg, ClaimStep(s, r, worker, lease))
  {
    if r in s.runs && s.runs[r].row.status == Pending {
      RequestAsks(r, s.runs[r].row);
      assert RowAbout(cfg, r, s.runs[r].row);
      AboutFrame(cfg, s, ClaimStep(s, r, worker, lease), s.nextJob);
    }
  }

  lemma OpenAbout(cfg: Config, s: System, r: RunId, approval: Option<nat>, order: Order)
    requires AboutInv(cfg, s)
    ensures AboutInv(cfg, OpenStep(s, r, approval, order))
  {
    if CanOpen(s, r, approval) {
      RequestAsks(r, s.runs[r].row);
      assert RowAbout(cfg, r, s.runs[r].row);
      AboutFrame(cfg, s, OpenStep(s, r, approval, order), s.nextJob);
    }
  }

  lemma EndAbout(cfg: Config, s: System, j: JobId)
    requires AboutInv(cfg, s)
    ensures AboutInv(cfg, RaiseStep(s, j)) && AboutInv(cfg, Finish(s, j))
  {
    AboutFrame(cfg, s, RaiseStep(s, j), j);
    AboutFrame(cfg, s, Finish(s, j), j);
  }

  lemma {:induction false} ExecuteAbout(cfg: Config, s: System, j: JobId, tools: Dispatcher)
    requires AboutInv(cfg, s)
    ensures AboutInv(cfg, ExecuteStep(cfg, s, j, tools))
  {
    if j in s.jobs && ReadyToExecute(s.jobs[j]) {
      match GraphResult(cfg, s.jobs[j], tools)
      case None => EndAbout(cfg, s, j);
      case Some(final) =>
        ResultAbout(cfg, s.runs[s.jobs[j].run].row, s.jobs[j], tools);
        AboutFrame(cfg, s, WithJob(s, j, Persisting(final, PersistedLen(s.jobs[j].base))), j);
    }
  }

  lemma {:induction false} SaveAbout(cfg: Config, s: System, j: JobId)
    requires AboutInv(cfg, s)
    ensures AboutInv(cfg, SaveStep(s, j))
  {
    if SaveStep(s, j) != s {
      assert JobAbout(cfg, s.runs[s.jobs[j].run].row, s.jobs[j]);
      assert RowAbout(cfg, s.jobs[j].run, SaveStep(s, j).runs[s.jobs[j].run].row);
      AboutFrame(cfg, s, SaveStep(s, j), j);
    }
  }

  /** The job may be in another phase, with the same result. */
  ghost predicate MovedOn(job: Job, job': Job) {
    && job'.run == job.run && job'.request == job.request && job'.base == job.base
    && (job'.phase.Persisting? || job'.phase.Saved? || job'.phase.Approving? ==>
          (job.phase.Persisting? || job.phase.Saved? || job.phase.Approving?) && job'.phase.final == job.phase.final)
  }

  /** The step only moves job j on. */
  ghost predicate Moves(s: System, s': System, j: JobId) {
    && s'.runs.Keys == s.runs.Keys
    && (forall r :: r in s.runs ==>
          SameNames(s.runs[r].row, s'.runs[r].row) && s'.runs[r].row.checkpoint == s.runs[r].row.checkpoint)
    && (forall k :: k in s'.jobs && k != j ==> k in s.jobs && s'.jobs[k] == s.jobs[k])
    && (j in s'.jobs ==> j in s.jobs && MovedOn(s.jobs[j], s'.jobs[j]))
  }

  lemma RenewMoves(s: System, j: JobId, lease: int)
    ensures Moves(s, RenewStep(s, j, lease), j)
  {
  }

  lemma AppendMoves(s: System, j: JobId)
    ensures Moves(s, AppendStep(s, j), j)
  {
  }

  lemma ApprovalStepsMove(s: System, j: JobId)
    ensures Moves(s, ListStep(s, j), j) && Moves(s, DecideStep(s, j), j)
    ensures Moves(s, CheckStep(s, j), j) && Moves(s, RequestStep(s, j), j)
  {
  }

  lemma MoveAbout(cfg: Config, s: System, s': System, j: JobId)
    requires AboutInv(cfg, s) && Moves(s, s', j)
    ensures AboutInv(cfg, s')
  {
    if j in s'.jobs {
      assert JobAbout(cfg, s.runs[s.jobs[j].run].row, s.jobs[j]);
    }
    AboutFrame(cfg, s, s', j);
  }

  lemma CreateAbout(cfg: Config, s: System, r: RunId, key: string, vertical: Option<string>)
    requires AboutInv(cfg, s)
    ensures AboutInv(cfg, CreateStep(s, r, key, vertical))
  {
    AboutFrame(cfg, s, CreateStep(s, r, key, vertical), s.nextJob);
  }

  lemma ReleaseAbout(cfg: Config, s: System)
    requires AboutInv(cfg, s)
    ensures AboutInv(cfg, ReleaseStep(s))
  {
    AboutFrame(cfg, s, ReleaseStep(s), s.nextJob);
  }

  lemma TickAbout(cfg: Config, s: System, seconds: nat)
    requires AboutInv(cfg, s)
    ensures AboutInv(cfg, s.(now := s.now + seconds))
  {
    AboutFrame(cfg, s, s.(now := s.now + seconds), s.nextJob);
  }

  lemma {:induction false} MoveStepKeepsAbout(cfg: Config, s: System, l: Label)
    requires AboutInv(cfg, s)
    requires l.Renew? || l.ListPending? || l.Decide? || l.Append? || l.Check? || l.RequestApproval?
    ensures AboutInv(cfg, Step(cfg, s, l))
  {
    match l
    case Renew(j, lease) => RenewMoves(s, j, lease); MoveAbout(cfg, s, RenewStep(s, j, lease), j);
    case Append(j) => AppendMoves(s, j); MoveAbout(cfg, s, AppendStep(s, j), j);
    case ListPending(j) => ApprovalStepsMove(s, j); MoveAbout(cfg, s, ListStep(s, j), j);
    case Decide(j) => ApprovalStepsMove(s, j); MoveAbout(cfg, s, DecideStep(s, j), j);
    case Check(j) => ApprovalStepsMove(s, j); MoveAbout(cfg, s, CheckStep(s, j), j);
    case RequestApproval(j) => ApprovalStepsMove(s, j); MoveAbout(cfg, s, RequestStep(s, j), j);
  }

  lemma {:induction false} StepKeepsAbout(cfg: Config, s: System, l: Label)
    requires AboutInv(cfg, s)
    ensures AboutInv(cfg, Step(cfg, s, l))
  {
    match l
    case Create(r, key, vertical) => CreateAbout(cfg, s, r, key, vertical);
    case Tick(seconds) => TickAbout(cfg, s, seconds);
    case ReleaseStale => ReleaseAbout(cfg, s);
    case Claim(r, worker, lease) => ClaimAbout(cfg, s, r, worker, lease);
    case OpenResume(r, approval, order) => OpenAbout(cfg, s, r, approval, order);
    case Execute(j, tools) => ExecuteAbout(cfg, s, j, tools);
    case Save(j) => SaveAbout(cfg, s, j);
    case Raise(j) => EndAbout(cfg, s, j);
    case Crash(j) => EndAbout(cfg, s, j);
    case _ => MoveStepKeepsAbout(cfg, s, l);
  }

  lemma {:induction false} AboutAlways(cfg: Config, labels: seq<Label>)
    ensures AboutInv(cfg, History(cfg, labels))
    decreases |labels|
  {
    if labels != [] {
      var n := |labels| - 1;
      AboutAlways(cfg, labels[..n]);
      StepKeepsAbout(cfg, History(cfg, labels[..n]), labels[n]);
    }
  }

  /** In every history: a checkpoint is about its row's run, skill and
      vertical, "finance" where the row names none; its plan is that of the
      skill, and its error says why it failed, or that there was no plan. */
  lemma {:induction false} EveryCheckpointIsAboutItsRun(cfg: Config, labels: seq<Label>, r: RunId)
    requires r in History(cfg, labels).runs && History(cfg, labels).runs[r].row.checkpoint.Some?
    ensures var row := History(cfg, labels).runs[r].row;
            var saved := row.checkpoint.value.state;
            && saved.runId == r && saved.skillName == row.workflowKey
            && (row.vertical.Some? && row.vertical.value != "" ==> saved.vertical == row.vertical.value)
            && (row.vertical == None || row.vertical == Some("") ==> saved.vertical == "finance")
            && PlansFor(cfg, row.workflowKey, saved.plan)
            && ErrorTells(cfg, saved)
  {
    AboutAlways(cfg, labels);
    assert RowAbout(cfg, r, History(cfg, labels).runs[r].row);
  }
}
