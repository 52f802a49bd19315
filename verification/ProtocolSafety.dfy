/** What every history keeps, whatever the interleaving, the clock, the
    crashes and the answers of the tools. */
module ProtocolSafety {
  import opened Prelude
  import opened Nodes
  import opened RunGraph
  import opened Tables
  import opened Protocol

  // --------------------------------------------------- what graph calls return

  ghost predicate Settled(s: RunState) {
    s.status != Running && s.status != Pending
  }

  lemma {:induction false} LoopSettles(cfg: Config, s: RunState, d: Dispatcher)
    requires s.status in {Running, ApprovalRequired}
    ensures var f := SpecialistLoop(cfg.registry, s, d);
            && f.status in {ApprovalRequired, Completed, Failed}
            && (f.status == Completed ==> f.currentStep >= |f.plan|)
            && s.trace <= f.trace
    decreases StepsLeft(s)
  {
    var next := Specialist(cfg.registry, s, d);
    if next.status == Running {
      LoopSettles(cfg, next, d);
    }
  }

  lemma ResumeExtends(cfg: Config, s: RunState, decision: Decision, d: Dispatcher)
    requires Resume(cfg.registry, s, decision, d).Some?
    ensures s.trace <= Resume(cfg.registry, s, decision, d).value.trace
    ensures Settled(s) ==> Settled(Resume(cfg.registry, s, decision, d).value)
  {
    if s.status == ApprovalRequired && decision == Approved {
      LoopSettles(cfg, ExecutePending(cfg.registry, s, d).value, d);
    }
  }

  /** No graph call returns running or pending, whatever the registry, and a
      resume only ever extends the trace it was given. */
  lemma GraphSettles(cfg: Config, job: Job, d: Dispatcher)
    requires job.base.Some? ==> Settled(job.base.value.state)
    requires GraphResult(cfg, job, d).Some?
    ensures Settled(GraphResult(cfg, job, d).value)
    ensures job.order.Some? ==> job.base.Some? && job.base.value.state.trace <= GraphResult(cfg, job, d).value.trace
  {
    match job.order
    case None =>
      LoopSettles(cfg, Planner(cfg, job.request).value, d);
    case Some(order) =>
      ResumeExtends(cfg, job.base.value.state, order.decision, d);
  }

  // -------------------------------------------------------------- the queue

  ghost predicate RowQueued(row: Row) {
    && (row.status == Pending || row.status == Running ==> row.checkpoint == None)
    && (row.status == Running ==> row.worker.Some? && row.lease.Some?)
    && (row.status == Pending ==> row.worker == None && row.lease == None)
    && (row.checkpoint.Some? ==> Settled(row.checkpoint.value.state))
  }

  ghost predicate JobSettled(job: Job) {
    && (job.order == None <==> job.base == None)
    && (job.base.Some? ==> Settled(job.base.value.state))
    && (job.phase.Claimed? ==> job.order == None)
    && (job.phase.Opened? || job.phase.Deciding? ==> job.order.Some?)
    && (job.phase.Persisting? || job.phase.Saved? || job.phase.Approving? ==> Settled(job.phase.final))
  }

  ghost predicate QueueInv(s: System) {
    && (forall r :: r in s.runs ==> RowQueued(s.runs[r].row))
    && (forall j :: j in s.jobs ==> JobSettled(s.jobs[j]) && s.jobs[j].run in s.runs)
  }

  lemma ClaimQueue(s: System, run: RunId, worker: WorkerId, lease: int)
    requires QueueInv(s)
    ensures QueueInv(ClaimStep(s, run, worker, lease))
  {
  }

  lemma OpenQueue(s: System, run: RunId, approval: Option<nat>, order: Order)
    requires QueueInv(s)
    ensures QueueInv(OpenStep(s, run, approval, order))
  {
  }

  lemma ReleaseQueue(s: System)
    requires QueueInv(s)
    ensures QueueInv(ReleaseStep(s))
  {
  }

  lemma RenewQueue(s: System, j: JobId, lease: int)
    requires QueueInv(s)
    ensures QueueInv(RenewStep(s, j, lease))
  {
  }

  lemma RaiseQueue(s: System, j: JobId)
    requires QueueInv(s)
    ensures QueueInv(RaiseStep(s, j))
  {
  }

  lemma {:induction false} ExecuteQueue(cfg: Config, s: System, j: JobId, tools: Dispatcher)
    requires QueueInv(s)
    ensures QueueInv(ExecuteStep(cfg, s, j, tools))
  {
    RaiseQueue(s, j);
    if j in s.jobs && ReadyToExecute(s.jobs[j]) && GraphResult(cfg, s.jobs[j], tools).Some? {
      GraphSettles(cfg, s.jobs[j], tools);
    }
  }

  lemma AppendQueue(s: System, j: JobId)
    requires QueueInv(s)
    ensures QueueInv(AppendStep(s, j))
  {
  }

  lemma SaveQueue(s: System, j: JobId)
    requires QueueInv(s)
    ensures QueueInv(SaveStep(s, j))
  {
  }

  lemma ApprovalStepsQueue(s: System, j: JobId)
    requires QueueInv(s)
    ensures QueueInv(ListStep(s, j)) && QueueInv(DecideStep(s, j))
    ensures QueueInv(CheckStep(s, j)) && QueueInv(RequestStep(s, j)) && QueueInv(Finish(s, j))
  {
  }

  lemma {:induction false} StepKeepsQueue(cfg: Config, s: System, l: Label)
    requires QueueInv(s)
    ensures QueueInv(Step(cfg, s, l))
  {
    match l
    case Create(run, key, vertical) =>
    case Tick(seconds) =>
    case ReleaseStale => ReleaseQueue(s);
    case Claim(run, worker, lease) => ClaimQueue(s, run, worker, lease);
    case Renew(j, lease) => RenewQueue(s, j, lease);
    case OpenResume(run, approval, order) => OpenQueue(s, run, approval, order);
    case ListPending(j) => ApprovalStepsQueue(s, j);
    case Decide(j) => ApprovalStepsQueue(s, j);
    case Execute(j, tools) => ExecuteQueue(cfg, s, j, tools);
    case Append(j) => AppendQueue(s, j);
    case Save(j) => SaveQueue(s, j);
    case Check(j) => ApprovalStepsQueue(s, j);
    case RequestApproval(j) => ApprovalStepsQueue(s, j);
    case Raise(j) => RaiseQueue(s, j);
    case Crash(j) => ApprovalStepsQueue(s, j);
  }

  lemma {:induction false} QueueAlways(cfg: Config, labels: seq<Label>)
    ensures QueueInv(History(cfg, labels))
    decreases |labels|
  {
    if labels != [] {
      var n := |labels| - 1;
      QueueAlways(cfg, labels[..n]);
      StepKeepsQueue(cfg, History(cfg, labels[..n]), labels[n]);
    }
  }

  /** In every history a pending or running run has no checkpoint, a running
      one has a worker and a lease, a pending one neither; and an execution
      never starts from a checkpoint, so it counts persisted steps from 0. */
  lemma {:induction false} QueueSafety(cfg: Config, labels: seq<Label>)
    ensures var s := History(cfg, labels);
            && (forall r :: r in s.runs ==>
                  var row := s.runs[r].row;
                  && (row.status in {Pending, Running} ==> row.checkpoint == None)
                  && (row.status == Running ==> row.worker.Some? && row.lease.Some?)
                  && (row.status == Pending ==> row.worker == None && row.lease == None))
            && (forall j :: j in s.jobs && s.jobs[j].order == None ==> PersistedLen(s.jobs[j].base) == 0)
  {
    QueueAlways(cfg, labels);
  }

  /** A running run whose lease has passed is requeued by the next release,
      whoever held it, and can be claimed again from the start. */
  lemma OrphansAreRequeued(cfg: Config, labels: seq<Label>, r: RunId, worker: WorkerId, lease: int)
    requires var s := History(cfg, labels); r in s.runs && s.runs[r].row.status == Running
    requires var s := History(cfg, labels); s.runs[r].row.lease.Some? ==> s.runs[r].row.lease.value < s.now
    ensures var released := History(cfg, labels + [ReleaseStale]);
            && r in released.runs && released.runs[r].row.status == Pending
            && var claimed := Step(cfg, released, Claim(r, worker, lease));
               && claimed.runs[r].row.worker == Some(worker)
               && released.nextJob in claimed.jobs
               && claimed.jobs[released.nextJob].run == r
               && claimed.jobs[released.nextJob].base == None
  {
    QueueAlways(cfg, labels);
    assert (labels + [ReleaseStale])[..|labels|] == labels;
  }

  // -------------------------------------------------------------- the leases

  ghost predicate LeasesOrdered(now: Time, leases: seq<Lease>) {
    && (forall i :: 0 <= i < |leases| ==> leases[i].start <= now)
    && (forall i, k :: 0 <= i < k < |leases| ==> leases[i].end < leases[k].start)
  }

  /** The last lease is the row's, while it runs; it is over once the run is
      back in the queue. */
  ghost predicate LeaseCurrent(now: Time, row: Row, leases: seq<Lease>) {
    && (row.status == Running ==>
          leases != [] && row.lease == Some(leases[|leases| - 1].end) && row.worker == Some(leases[|leases| - 1].worker))
    && (row.status == Pending && leases != [] ==> leases[|leases| - 1].end < now)
  }

  ghost predicate LeaseInv(s: System) {
    forall r :: r in s.runs ==>
      LeasesOrdered(s.now, s.runs[r].leases) && LeaseCurrent(s.now, s.runs[r].row, s.runs[r].leases)
  }

  lemma ClaimKeepsLeases(now: Time, leases: seq<Lease>, lease: Lease)
    requires LeasesOrdered(now, leases) && (leases != [] ==> leases[|leases| - 1].end < now) && lease.start == now
    ensures LeasesOrdered(now, leases + [lease])
  {
    var all := leases + [lease];
    forall i, k | 0 <= i < k < |all| ensures all[i].end < all[k].start {
      if k == |leases| && i < |leases| - 1 {
        assert leases[i].end < leases[|leases| - 1].start <= now;
      }
    }
  }

  lemma RenewKeepsLeases(now: Time, e: RunEntry, worker: WorkerId, until: Time)
    requires LeasesOrdered(now, e.leases) && LeaseCurrent(now, e.row, e.leases)
    ensures LeasesOrdered(now, RenewLeases(e, worker, until))
    ensures LeaseCurrent(now, RenewRow(e.row, worker, until), RenewLeases(e, worker, until))
  {
  }

  lemma ClaimLeases(s: System, r: RunId, worker: WorkerId, lease: int)
    requires LeaseInv(s)
    ensures LeaseInv(ClaimStep(s, r, worker, lease))
  {
    if r in s.runs && s.runs[r].row.status == Pending {
      ClaimKeepsLeases(s.now, s.runs[r].leases, Lease(worker, s.now, s.now + lease));
    }
  }

  lemma RenewLeaseInv(s: System, j: JobId, lease: int)
    requires LeaseInv(s)
    ensures LeaseInv(RenewStep(s, j, lease))
  {
    if j in s.jobs && s.jobs[j].run in s.runs {
      RenewKeepsLeases(s.now, s.runs[s.jobs[j].run], s.jobs[j].worker, s.now + lease);
    }
  }

  lemma ReleaseLeases(s: System)
    requires LeaseInv(s)
    ensures LeaseInv(ReleaseStep(s))
  {
  }

  lemma RaiseLeases(s: System, j: JobId)
    requires LeaseInv(s)
    ensures LeaseInv(RaiseStep(s, j))
  {
  }

  lemma PersistLeases(s: System, j: JobId)
    requires QueueInv(s) && LeaseInv(s)
    ensures LeaseInv(AppendStep(s, j)) && LeaseInv(SaveStep(s, j))
  {
  }

  /** Steps that touch no row and no lease. */
  lemma OtherLeases(cfg: Config, s: System, l: Label)
    requires LeaseInv(s)
    requires l.OpenResume? || l.ListPending? || l.Decide? || l.Check? || l.RequestApproval? || l.Crash?
    ensures Step(cfg, s, l).runs == s.runs && Step(cfg, s, l).now == s.now
  {
  }

  lemma {:induction false} StepKeepsLeases(cfg: Config, s: System, l: Label)
    requires QueueInv(s) && LeaseInv(s)
    ensures LeaseInv(Step(cfg, s, l))
  {
    match l
    case Create(run, key, vertical) =>
    case Tick(seconds) =>
    case ReleaseStale => ReleaseLeases(s);
    case Claim(run, worker, lease) => ClaimLeases(s, run, worker, lease);
    case Renew(j, lease) => RenewLeaseInv(s, j, lease);
    case Execute(j, tools) => RaiseLeases(s, j);
    case Append(j) => PersistLeases(s, j);
    case Save(j) => PersistLeases(s, j);
    case Raise(j) => RaiseLeases(s, j);
    case _ => OtherLeases(cfg, s, l);
  }

  lemma {:induction false} LeasesAlways(cfg: Config, labels: seq<Label>)
    ensures LeaseInv(History(cfg, labels))
    decreases |labels|
  {
    if labels != [] {
      var n := |labels| - 1;
      LeasesAlways(cfg, labels[..n]);
      QueueAlways(cfg, labels[..n]);
      StepKeepsLeases(cfg, History(cfg, labels[..n]), labels[n]);
    }
  }

  /** Two leases of one run never overlap: at no time do two of them hold. */
  lemma LeaseExclusion(cfg: Config, labels: seq<Label>, r: RunId, i: nat, k: nat, time: Time)
    requires r in History(cfg, labels).runs
    requires var leases := History(cfg, labels).runs[r].leases;
             && i < |leases| && k < |leases|
             && leases[i].start <= time <= leases[i].end && leases[k].start <= time <= leases[k].end
    ensures i == k
  {
    LeasesAlways(cfg, labels);
    var leases := History(cfg, labels).runs[r].leases;
  }

  /** Whoever renews late changes nothing: a row held by another worker, or
      not running, stays as it is. */
  lemma LateRenewIsHarmless(cfg: Config, s: System, j: JobId, lease: int)
    requires j in s.jobs && s.jobs[j].run in s.runs
    requires var row := s.runs[s.jobs[j].run].row; row.worker != Some(s.jobs[j].worker) || row.status != Running
    ensures Step(cfg, s, Renew(j, lease)) == s
  {
    var e := s.runs[s.jobs[j].run];
    assert e.(row := e.row, leases := e.leases) == e;
    assert s.runs[s.jobs[j].run := e] == s.runs;
  }
}
