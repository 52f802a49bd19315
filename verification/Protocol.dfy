/** Workers and the API sharing the tables: every SQL statement is one atomic
    step, and the steps of any number of jobs interleave with the clock,
    crashes and exceptions. A label picks the next step; a label that is not
    enabled changes nothing, so every sequence of labels is a history. */
module Protocol {
  import opened Prelude
  import opened Nodes
  import opened RunGraph
  import opened Tables

  type JobId = nat

  /** A lease as it was taken, with the end of its last extension. */
  datatype Lease = Lease(worker: WorkerId, start: Time, end: Time)

  /** A run's row and step rows. The last three fields are history variables:
      which job wrote each step row, which jobs' work the checkpoint holds,
      and the leases taken so far. */
  datatype RunEntry = RunEntry(
    row: Row, steps: seq<StepRow>, authors: seq<JobId>, lineage: set<JobId>, leases: seq<Lease>)

  /** How a resume was asked for; the API records the decision, a worker not. */
  datatype Order = Order(decision: Decision, reason: string, viaApi: bool)

  datatype Phase =
    | Claimed
    | Opened
    | Deciding(targets: seq<nat>)
    | Persisting(final: RunState, next: nat)
    | Saved(final: RunState)
    | Approving(final: RunState)

  /** One execution or resume in progress: `base` is the checkpoint in the row
      it read, `order` is absent for a fresh execution. */
  datatype Job = Job(
    run: RunId, worker: WorkerId, request: Request, base: Option<Checkpoint>, order: Option<Order>,
    lineage: set<JobId>, phase: Phase)

  datatype System = System(
    now: Time, runs: map<RunId, RunEntry>, approvals: seq<Approval>, jobs: map<JobId, Job>, nextJob: JobId)

  datatype Label =
    | Create(run: RunId, workflowKey: string, vertical: Option<string>)
    | Tick(seconds: nat)
    | ReleaseStale
    | Claim(run: RunId, worker: WorkerId, lease: int)
    | Renew(job: JobId, lease: int)
    | OpenResume(run: RunId, approval: Option<nat>, order: Order)
    | ListPending(job: JobId)
    | Decide(job: JobId)
    | Execute(job: JobId, tools: Dispatcher)
    | Append(job: JobId)
    | Save(job: JobId)
    | Check(job: JobId)
    | RequestApproval(job: JobId)
    | Raise(job: JobId)
    | Crash(job: JobId)

  const INIT := System(0, map[], [], map[], 0)

  /** Nobody is at work on the run. */
  ghost predicate Idle(s: System, r: RunId) {
    forall j :: j in s.jobs ==> s.jobs[j].run != r
  }

  /** The label is one of job j's own statements. */
  predicate ActsOn(l: Label, j: JobId) {
    match l
    case Renew(k, _) => k == j
    case ListPending(k) => k == j
    case Decide(k) => k == j
    case Execute(k, _) => k == j
    case Append(k) => k == j
    case Save(k) => k == j
    case Check(k) => k == j
    case RequestApproval(k) => k == j
    case Raise(k) => k == j
    case Crash(k) => k == j
    case _ => false
  }

  function WithJob(s: System, j: JobId, phase: Phase): System
    requires j in s.jobs
  {
    s.(jobs := s.jobs[j := s.jobs[j].(phase := phase)])
  }

  function Finish(s: System, j: JobId): System {
    s.(jobs := s.jobs - {j})
  }

  function RequestOf(run: RunId, row: Row): Request {
    Request(run, if row.vertical.Some? && row.vertical.value != "" then row.vertical.value else "finance", row.workflowKey)
  }

  function PersistedLen(base: Option<Checkpoint>): nat {
    if base.Some? then base.value.persistedLen else 0
  }

  function Annotate(final: RunState, order: Order): RunState {
    if order.viaApi then final.(outcome := final.outcome.(decision := Some((order.decision, order.reason)))) else final
  }

  /** What the graph returns to the job; None is an exception. */
  function GraphResult(cfg: Config, job: Job, tools: Dispatcher): Option<RunState> {
    match job.order
    case None => Invoke(cfg, job.request, tools)
    case Some(order) =>
      if job.base == None then None
      else
        match Resume(cfg.registry, job.base.value.state, order.decision, tools)
        case None => None
        case Some(final) => Some(Annotate(final, order))
  }

  predicate ReadyToExecute(job: Job) {
    if job.order == None then job.phase.Claimed? else job.phase == Deciding([])
  }

  /** The renewed lease is the current one, if the row was renewed at all. */
  function RenewLeases(e: RunEntry, worker: WorkerId, until: Time): seq<Lease> {
    if RenewRow(e.row, worker, until) != e.row && e.leases != [] then
      e.leases[|e.leases| - 1 := e.leases[|e.leases| - 1].(end := until)]
    else e.leases
  }

  function CreateStep(s: System, run: RunId, key: string, vertical: Option<string>): System {
    if run in s.runs then s
    else s.(runs := s.runs[run := RunEntry(NewRow(key, vertical, Pending, s.now), [], [], {}, [])])
  }

  function ReleaseStep(s: System): System {
    s.(runs := map r | r in s.runs :: s.runs[r].(row := ReleaseRow(s.runs[r].row, s.now)))
  }

  function ClaimStep(s: System, run: RunId, worker: WorkerId, lease: int): System {
    if run in s.runs && s.runs[run].row.status == Pending then
      var e := s.runs[run];
      var until := s.now + lease;
      s.(runs := s.runs[run := e.(row := ClaimRow(e.row, worker, until), leases := e.leases + [Lease(worker, s.now, until)])],
         jobs := s.jobs[s.nextJob := Job(run, worker, RequestOf(run, e.row), e.row.checkpoint, None, {s.nextJob}, Claimed)],
         nextJob := s.nextJob + 1)
    else s
  }

  function RenewStep(s: System, j: JobId, lease: int): System {
    if j in s.jobs && s.jobs[j].phase.Claimed? && s.jobs[j].run in s.runs then
      var job := s.jobs[j];
      var e := s.runs[job.run];
      var until := s.now + lease;
      s.(runs := s.runs[job.run := e.(row := RenewRow(e.row, job.worker, until), leases := RenewLeases(e, job.worker, until))])
    else s
  }

  /** A run is resumed from its checkpoint; through an approval only if that
      one is the run's and undecided. */
  predicate CanOpen(s: System, run: RunId, approval: Option<nat>) {
    && run in s.runs && s.runs[run].row.checkpoint.Some?
    && (approval.Some? ==> approval.value < |s.approvals| && s.approvals[approval.value].run == run
                           && s.approvals[approval.value].decision == None)
  }

  function Opening(e: RunEntry, run: RunId, approval: Option<nat>, order: Order, j: JobId): Job {
    Job(run, "", RequestOf(run, e.row), e.row.checkpoint, Some(order), e.lineage + {j},
        if approval.Some? then Deciding([approval.value]) else Opened)
  }

  function OpenStep(s: System, run: RunId, approval: Option<nat>, order: Order): System {
    if CanOpen(s, run, approval) then
      s.(jobs := s.jobs[s.nextJob := Opening(s.runs[run], run, approval, order, s.nextJob)], nextJob := s.nextJob + 1)
    else s
  }

  function ListStep(s: System, j: JobId): System {
    if j in s.jobs && s.jobs[j].phase.Opened? then WithJob(s, j, Deciding(PendingFor(s.approvals, s.jobs[j].run)))
    else s
  }

  predicate CanDecide(s: System, j: JobId) {
    j in s.jobs && s.jobs[j].phase.Deciding? && s.jobs[j].phase.targets != [] && s.jobs[j].order.Some?
  }

  function DecideStep(s: System, j: JobId): System {
    if CanDecide(s, j) then
      var targets, order := s.jobs[j].phase.targets, s.jobs[j].order.value;
      WithJob(s, j, Deciding(targets[1..])).(approvals := DecideAt(s.approvals, targets[0], order.decision, order.reason))
    else s
  }

  /** The exception handler of a fresh execution marks the run failed; a
      resume has none. */
  function RaiseStep(s: System, j: JobId): System {
    if j in s.jobs && s.jobs[j].run in s.runs then
      var e := s.runs[s.jobs[j].run];
      if s.jobs[j].order == None then Finish(s, j).(runs := s.runs[s.jobs[j].run := e.(row := FailRow(e.row))])
      else Finish(s, j)
    else s
  }

  function ExecuteStep(cfg: Config, s: System, j: JobId, tools: Dispatcher): System {
    if j in s.jobs && ReadyToExecute(s.jobs[j]) then
      match GraphResult(cfg, s.jobs[j], tools)
      case None => RaiseStep(s, j)
      case Some(final) => WithJob(s, j, Persisting(final, PersistedLen(s.jobs[j].base)))
    else s
  }

  function AppendStep(s: System, j: JobId): System {
    if j in s.jobs && s.jobs[j].run in s.runs && s.jobs[j].phase.Persisting? &&
       s.jobs[j].phase.next < |s.jobs[j].phase.final.trace| then
      var job := s.jobs[j];
      var e := s.runs[job.run];
      var p := job.phase;
      WithJob(s, j, Persisting(p.final, p.next + 1)).(
        runs := s.runs[job.run := e.(steps := e.steps + [StepOf(p.final.trace[p.next])], authors := e.authors + [j])])
    else s
  }

  function SaveStep(s: System, j: JobId): System {
    if j in s.jobs && s.jobs[j].run in s.runs && s.jobs[j].phase.Persisting? &&
       s.jobs[j].phase.next >= |s.jobs[j].phase.final.trace| then
      var job := s.jobs[j];
      var e := s.runs[job.run];
      var final := job.phase.final;
      WithJob(s, j, Saved(final)).(
        runs := s.runs[job.run := e.(row := SaveRow(e.row, final, |final.trace|), lineage := job.lineage)])
    else s
  }

  function CheckStep(s: System, j: JobId): System {
    if j in s.jobs && s.jobs[j].phase.Saved? then
      var job := s.jobs[j];
      if NeedsApproval(job.phase.final) && PendingFor(s.approvals, job.run) == [] then
        WithJob(s, j, Approving(job.phase.final))
      else Finish(s, j)
    else s
  }

  function RequestStep(s: System, j: JobId): System {
    if j in s.jobs && s.jobs[j].phase.Approving? && NeedsApproval(s.jobs[j].phase.final) then
      Finish(s, j).(approvals := s.approvals + [RequestFor(s.jobs[j].run, s.jobs[j].phase.final)])
    else s
  }

  function Step(cfg: Config, s: System, l: Label): System {
    match l
    case Create(run, key, vertical) => CreateStep(s, run, key, vertical)
    case Tick(seconds) => s.(now := s.now + seconds)
    case ReleaseStale => ReleaseStep(s)
    case Claim(run, worker, lease) => ClaimStep(s, run, worker, lease)
    case Renew(j, lease) => RenewStep(s, j, lease)
    case OpenResume(run, approval, order) => OpenStep(s, run, approval, order)
    case ListPending(j) => ListStep(s, j)
    case Decide(j) => DecideStep(s, j)
    case Execute(j, tools) => ExecuteStep(cfg, s, j, tools)
    case Append(j) => AppendStep(s, j)
    case Save(j) => SaveStep(s, j)
    case Check(j) => CheckStep(s, j)
    case RequestApproval(j) => RequestStep(s, j)
    case Raise(j) => RaiseStep(s, j)
    case Crash(j) => Finish(s, j)
  }

  /** The state after a history. */
  function History(cfg: Config, labels: seq<Label>): System {
    if labels == [] then INIT
    else Step(cfg, History(cfg, labels[..|labels| - 1]), labels[|labels| - 1])
  }
}
