/** The promise the whole system exists for, at the level of the tables: in
    every history, each financial or destructive execution that run_steps
    records was written by a resume that a human approved, and no approval
    accounts for two of them. */
module GatedExecutions {
  import opened Prelude
  import opened RiskRegistry
  import opened Nodes
  import opened RunGraph
  import opened Tables
  import opened Protocol
  import opened ProtocolSafety
  import opened Lineage

  predicate GatedEntry(e: TraceEntry) {
    e.executed && e.tier != ReadOnly
  }

  // ------------------------------------------------ what one graph call adds

  lemma {:induction false} LoopAddsNone(reg: Registry, s: RunState, d: Dispatcher)
    ensures var f := SpecialistLoop(reg, s, d);
            s.trace <= f.trace && forall m :: |s.trace| <= m < |f.trace| ==> !GatedEntry(f.trace[m])
    decreases StepsLeft(s)
  {
    var next := Specialist(reg, s, d);
    assert s.trace <= next.trace && forall m :: |s.trace| <= m < |next.trace| ==> !GatedEntry(next.trace[m]);
    if next.status == Running {
      LoopAddsNone(reg, next, d);
    }
  }

  predicate Approves(job: Job) {
    job.order.Some? && job.order.value.decision == Approved
  }

  /** A graph call adds a gated execution only on approval, and then only as
      the first new entry. */
  lemma GraphAddsOne(cfg: Config, job: Job, d: Dispatcher, m: nat)
    requires GraphResult(cfg, job, d).Some?
    requires var final := GraphResult(cfg, job, d).value;
             var from := if job.base.Some? && job.order.Some? then |job.base.value.state.trace| else 0;
             from <= m < |final.trace| && GatedEntry(final.trace[m])
    ensures Approves(job) && job.base.Some? && m == |job.base.value.state.trace|
  {
    match job.order
    case None =>
      LoopAddsNone(cfg.registry, Planner(cfg, job.request).value, d);
    case Some(order) =>
      var s := job.base.value.state;
      if s.status == ApprovalRequired && order.decision == Approved {
        LoopAddsNone(cfg.registry, ExecutePending(cfg.registry, s, d).value, d);
      }
  }

  // ------------------------------------------------------------ the invariant

  /** A resume opened by a human's approval. */
  datatype Grant = Grant(run: RunId, job: JobId)

  /** The grants one step adds. */
  function Granted(s: System, l: Label): set<Grant> {
    if l.OpenResume? && l.order.decision == Approved && CanOpen(s, l.run, l.approval) then {Grant(l.run, s.nextJob)} else {}
  }

  /** The grants of a history. */
  function Grants(cfg: Config, labels: seq<Label>): set<Grant> {
    if labels == [] then {}
    else
      var n := |labels| - 1;
      Grants(cfg, labels[..n]) + Granted(History(cfg, labels[..n]), labels[n])
  }

  ghost predicate EntryGranted(r: RunId, e: RunEntry, grants: set<Grant>)
    requires |e.steps| == |e.authors|
  {
    && (forall i :: 0 <= i < |e.steps| && GatedEntry(e.steps[i].output) ==> Grant(r, e.authors[i]) in grants)
    && (forall i, k :: 0 <= i < k < |e.steps| && GatedEntry(e.steps[i].output) && GatedEntry(e.steps[k].output) ==>
          e.authors[i] != e.authors[k])
  }

  ghost predicate WroteNothing(e: RunEntry, j: JobId) {
    forall i :: 0 <= i < |e.authors| ==> e.authors[i] != j
  }

  /** The job still has at most one gated execution to write: its first. */
  ghost predicate JobGranted(j: JobId, job: Job, e: RunEntry, grants: set<Grant>) {
    && (Approves(job) ==> Grant(job.run, j) in grants)
    && match job.phase
       case Persisting(final, next) =>
         && PersistedLen(job.base) <= next
         && (next == PersistedLen(job.base) ==> WroteNothing(e, j))
         && forall m :: next <= m < |final.trace| && GatedEntry(final.trace[m]) ==> Approves(job) && m == PersistedLen(job.base)
       case Saved(_) => true
       case Approving(_) => true
       case _ => WroteNothing(e, j)
  }

  ghost predicate GrantInv(s: System, grants: set<Grant>) {
    && (forall r :: r in s.runs ==> |s.runs[r].steps| == |s.runs[r].authors| && EntryGranted(r, s.runs[r], grants))
    && (forall j :: j in s.jobs ==> s.jobs[j].run in s.runs && JobGranted(j, s.jobs[j], s.runs[s.jobs[j].run], grants))
  }

  ghost predicate SameSteps(e: RunEntry, e': RunEntry) {
    e'.steps == e.steps && e'.authors == e.authors
  }

  /** A step that writes no step row and leaves every job alone but `mine`. */
  lemma GrantFrame(s: System, s': System, grants: set<Grant>, grants': set<Grant>, mine: JobId)
    requires GrantInv(s, grants) && grants <= grants'
    requires s'.runs.Keys == s.runs.Keys && forall r :: r in s.runs ==> SameSteps(s.runs[r], s'.runs[r])
    requires forall k :: k in s'.jobs && k != mine ==> k in s.jobs && s'.jobs[k] == s.jobs[k]
    requires mine in s'.jobs ==>
               s'.jobs[mine].run in s.runs && JobGranted(mine, s'.jobs[mine], s.runs[s'.jobs[mine].run], grants')
    ensures GrantInv(s', grants')
  {
    forall r | r in s'.runs ensures |s'.runs[r].steps| == |s'.runs[r].authors| && EntryGranted(r, s'.runs[r], grants') {
      assert SameSteps(s.runs[r], s'.runs[r]) && EntryGranted(r, s.runs[r], grants);
    }
    forall k | k in s'.jobs ensures s'.jobs[k].run in s'.runs && JobGranted(k, s'.jobs[k], s'.runs[s'.jobs[k].run], grants') {
      assert SameSteps(s.runs[s'.jobs[k].run], s'.runs[s'.jobs[k].run]);
    }
  }

  lemma CreateGrants(s: System, grants: set<Grant>, run: RunId, key: string, vertical: Option<string>)
    requires GrantInv(s, grants)
    ensures GrantInv(CreateStep(s, run, key, vertical), grants)
  {
  }

  lemma OpenGrants(s: System, grants: set<Grant>, r: RunId, approval: Option<nat>, order: Order)
    requires LineageInv(s) && GrantInv(s, grants)
    ensures GrantInv(OpenStep(s, r, approval, order), grants + Granted(s, OpenResume(r, approval, order)))
  {
    if CanOpen(s, r, approval) {
      assert EntryInv(s, s.runs[r]);
      assert WroteNothing(s.runs[r], s.nextJob);
      var granted := grants + Granted(s, OpenResume(r, approval, order));
      assert JobGranted(s.nextJob, Opening(s.runs[r], r, approval, order, s.nextJob), s.runs[r], granted);
      GrantFrame(s, OpenStep(s, r, approval, order), grants, granted, s.nextJob);
    }
  }

  lemma ClaimGrants(s: System, grants: set<Grant>, r: RunId, worker: WorkerId, lease: int)
    requires LineageInv(s) && GrantInv(s, grants)
    ensures GrantInv(ClaimStep(s, r, worker, lease), grants)
  {
    if r in s.runs && s.runs[r].row.status == Pending {
      assert EntryInv(s, s.runs[r]);
      GrantFrame(s, ClaimStep(s, r, worker, lease), grants, grants, s.nextJob);
    }
  }

  lemma RaiseGrants(s: System, grants: set<Grant>, j: JobId)
    requires GrantInv(s, grants)
    ensures GrantInv(RaiseStep(s, j), grants)
  {
    if j in s.jobs && s.jobs[j].run in s.runs {
      GrantFrame(s, RaiseStep(s, j), grants, grants, j);
    }
  }

  lemma {:induction false} ExecuteGrants(cfg: Config, s: System, grants: set<Grant>, j: JobId, tools: Dispatcher)
    requires QueueInv(s) && LineageInv(s) && GrantInv(s, grants)
    ensures GrantInv(ExecuteStep(cfg, s, j, tools), grants)
  {
    if j in s.jobs && ReadyToExecute(s.jobs[j]) {
      match GraphResult(cfg, s.jobs[j], tools)
      case None => RaiseGrants(s, grants, j);
      case Some(final) =>
        var job := s.jobs[j];
        assert JobInv(s, j, job, s.runs[job.run]) && JobSettled(job);
        ExecutedOne(cfg, job, tools);
        PersistGrants(s, grants, j, final);
    }
  }

  lemma PersistGrants(s: System, grants: set<Grant>, j: JobId, final: RunState)
    requires GrantInv(s, grants) && j in s.jobs && ReadyToExecute(s.jobs[j])
    requires forall m :: PersistedLen(s.jobs[j].base) <= m < |final.trace| && GatedEntry(final.trace[m]) ==>
               Approves(s.jobs[j]) && m == PersistedLen(s.jobs[j].base)
    ensures GrantInv(WithJob(s, j, Persisting(final, PersistedLen(s.jobs[j].base))), grants)
  {
    assert JobGranted(j, s.jobs[j], s.runs[s.jobs[j].run], grants);
    GrantFrame(s, WithJob(s, j, Persisting(final, PersistedLen(s.jobs[j].base))), grants, grants, j);
  }

  lemma ExecutedOne(cfg: Config, job: Job, tools: Dispatcher)
    requires GraphResult(cfg, job, tools).Some? && (job.order == None <==> job.base == None)
    requires job.base.Some? ==> job.base.value.persistedLen == |job.base.value.state.trace|
    ensures var final := GraphResult(cfg, job, tools).value;
            forall m :: PersistedLen(job.base) <= m < |final.trace| && GatedEntry(final.trace[m]) ==>
              Approves(job) && m == PersistedLen(job.base)
  {
    var final := GraphResult(cfg, job, tools).value;
    forall m | PersistedLen(job.base) <= m < |final.trace| && GatedEntry(final.trace[m])
      ensures Approves(job) && m == PersistedLen(job.base)
    {
      GraphAddsOne(cfg, job, tools, m);
    }
  }

  /** A gated row is the first its job writes, so no earlier row is by it. */
  lemma AppendGrants(s: System, grants: set<Grant>, j: JobId)
    requires GrantInv(s, grants)
    ensures GrantInv(AppendStep(s, j), grants)
  {
    var s' := AppendStep(s, j);
    if s' != s {
      var r := s.jobs[j].run;
      assert JobGranted(j, s.jobs[j], s.runs[r], grants) && EntryGranted(r, s.runs[r], grants);
      assert EntryGranted(r, s'.runs[r], grants);
      forall k | k in s'.jobs ensures s'.jobs[k].run in s'.runs && JobGranted(k, s'.jobs[k], s'.runs[s'.jobs[k].run], grants) {
        assert JobGranted(k, s.jobs[k], s.runs[s.jobs[k].run], grants);
        if k != j && s.jobs[k].run == r && WroteNothing(s.runs[r], k) {
          assert WroteNothing(s'.runs[r], k);
        }
      }
    }
  }

  lemma SaveGrants(s: System, grants: set<Grant>, j: JobId)
    requires GrantInv(s, grants)
    ensures GrantInv(SaveStep(s, j), grants)
  {
    if SaveStep(s, j) != s {
      GrantFrame(s, SaveStep(s, j), grants, grants, j);
    }
  }

  lemma ListGrants(s: System, grants: set<Grant>, j: JobId)
    requires GrantInv(s, grants)
    ensures GrantInv(ListStep(s, j), grants)
  {
    if j in s.jobs && s.jobs[j].phase.Opened? {
      assert JobGranted(j, s.jobs[j], s.runs[s.jobs[j].run], grants);
      GrantFrame(s, ListStep(s, j), grants, grants, j);
    }
  }

  lemma DecideGrants(s: System, grants: set<Grant>, j: JobId)
    requires GrantInv(s, grants)
    ensures GrantInv(DecideStep(s, j), grants)
  {
    if CanDecide(s, j) {
      assert JobGranted(j, s.jobs[j], s.runs[s.jobs[j].run], grants);
      GrantFrame(s, DecideStep(s, j), grants, grants, j);
    }
  }

  lemma CheckGrants(s: System, grants: set<Grant>, j: JobId)
    requires GrantInv(s, grants)
    ensures GrantInv(CheckStep(s, j), grants)
  {
    if j in s.jobs && s.jobs[j].phase.Saved? {
      assert JobGranted(j, s.jobs[j], s.runs[s.jobs[j].run], grants);
      GrantFrame(s, CheckStep(s, j), grants, grants, j);
    }
  }

  lemma RequestGrants(s: System, grants: set<Grant>, j: JobId)
    requires GrantInv(s, grants)
    ensures GrantInv(RequestStep(s, j), grants)
  {
    if j in s.jobs && s.jobs[j].phase.Approving? {
      assert JobGranted(j, s.jobs[j], s.runs[s.jobs[j].run], grants);
      GrantFrame(s, RequestStep(s, j), grants, grants, j);
    }
  }

  lemma {:induction false} QueueStepKeepsGrants(cfg: Config, s: System, grants: set<Grant>, l: Label)
    requires LineageInv(s) && GrantInv(s, grants)
    requires l.Create? || l.Tick? || l.ReleaseStale? || l.Claim? || l.Renew? || l.Raise? || l.Crash?
    ensures GrantInv(Step(cfg, s, l), grants)
  {
    match l
    case Create(run, key, vertical) => CreateGrants(s, grants, run, key, vertical);
    case Tick(seconds) => GrantFrame(s, s.(now := s.now + seconds), grants, grants, s.nextJob);
    case ReleaseStale => GrantFrame(s, ReleaseStep(s), grants, grants, s.nextJob);
    case Claim(run, worker, lease) => ClaimGrants(s, grants, run, worker, lease);
    case Renew(j, lease) => GrantFrame(s, RenewStep(s, j, lease), grants, grants, s.nextJob);
    case Raise(j) => RaiseGrants(s, grants, j);
    case Crash(j) => GrantFrame(s, Finish(s, j), grants, grants, j);
  }

  lemma {:induction false} JobStepKeepsGrants(cfg: Config, s: System, grants: set<Grant>, l: Label)
    requires QueueInv(s) && LineageInv(s) && GrantInv(s, grants)
    requires l.ListPending? || l.Decide? || l.Execute? || l.Append? || l.Save? || l.Check? || l.RequestApproval?
    ensures GrantInv(Step(cfg, s, l), grants)
  {
    match l
    case ListPending(j) => ListGrants(s, grants, j);
    case Decide(j) => DecideGrants(s, grants, j);
    case Execute(j, tools) => ExecuteGrants(cfg, s, grants, j, tools);
    case Append(j) => AppendGrants(s, grants, j);
    case Save(j) => SaveGrants(s, grants, j);
    case Check(j) => CheckGrants(s, grants, j);
    case RequestApproval(j) => RequestGrants(s, grants, j);
  }

  lemma {:induction false} StepKeepsGrants(cfg: Config, s: System, grants: set<Grant>, l: Label)
    requires QueueInv(s) && LineageInv(s) && GrantInv(s, grants)
    ensures GrantInv(Step(cfg, s, l), grants + Granted(s, l))
  {
    if l.OpenResume? {
      OpenGrants(s, grants, l.run, l.approval, l.order);
    } else {
      assert grants + Granted(s, l) == grants;
      if l.ListPending? || l.Decide? || l.Execute? || l.Append? || l.Save? || l.Check? || l.RequestApproval? {
        JobStepKeepsGrants(cfg, s, grants, l);
      } else {
        QueueStepKeepsGrants(cfg, s, grants, l);
      }
    }
  }

  lemma {:induction false} GrantsAlways(cfg: Config, labels: seq<Label>)
    ensures GrantInv(History(cfg, labels), Grants(cfg, labels))
    decreases |labels|
  {
    if labels != [] {
      var n := |labels| - 1;
      GrantsAlways(cfg, labels[..n]);
      QueueAlways(cfg, labels[..n]);
      LineageAlways(cfg, labels[..n]);
      StepKeepsGrants(cfg, History(cfg, labels[..n]), Grants(cfg, labels[..n]), labels[n]);
    }
  }

  // -------------------------------------------------------------- the results

  /** In every history: a gated execution in run_steps was written by an
      approved resume of that run, and by a different one each time. */
  lemma {:induction false} GatedRowsWereApproved(cfg: Config, labels: seq<Label>, r: RunId)
    requires r in History(cfg, labels).runs
    ensures var e := History(cfg, labels).runs[r];
            && |e.steps| == |e.authors|
            && (forall i :: 0 <= i < |e.steps| && GatedEntry(e.steps[i].output) ==>
                  Grant(r, e.authors[i]) in Grants(cfg, labels))
            && (forall i, k :: 0 <= i < k < |e.steps| && GatedEntry(e.steps[i].output) && GatedEntry(e.steps[k].output) ==>
                  e.authors[i] != e.authors[k])
  {
    GrantsAlways(cfg, labels);
  }

  function GatedRows(steps: seq<StepRow>): nat {
    if steps == [] then 0
    else GatedRows(steps[..|steps| - 1]) + if GatedEntry(steps[|steps| - 1].output) then 1 else 0
  }

  /** How often a resume of the run was opened to approve. */
  function ApprovalsOf(cfg: Config, labels: seq<Label>, r: RunId): nat {
    if labels == [] then 0
    else
      var n := |labels| - 1;
      ApprovalsOf(cfg, labels[..n], r) +
      if Grant(r, History(cfg, labels[..n]).nextJob) in Granted(History(cfg, labels[..n]), labels[n]) then 1 else 0
  }

  function GrantsOf(grants: set<Grant>, r: RunId): set<Grant> {
    set g | g in grants && g.run == r
  }

  lemma GrantAdds(grants: set<Grant>, g: Grant, r: RunId)
    ensures |GrantsOf(grants + {g}, r)| <= |GrantsOf(grants, r)| + if g.run == r then 1 else 0
    ensures g !in grants ==> |GrantsOf(grants + {g}, r)| == |GrantsOf(grants, r)| + if g.run == r then 1 else 0
  {
    if g.run == r {
      assert GrantsOf(grants + {g}, r) == GrantsOf(grants, r) + {g};
    } else {
      assert GrantsOf(grants + {g}, r) == GrantsOf(grants, r);
    }
  }

  lemma {:induction false} GrantsCounted(cfg: Config, labels: seq<Label>, r: RunId)
    ensures |GrantsOf(Grants(cfg, labels), r)| <= ApprovalsOf(cfg, labels, r)
    decreases |labels|
  {
    if labels == [] {
      assert GrantsOf({}, r) == {};
    } else {
      var n := |labels| - 1;
      var granted := Granted(History(cfg, labels[..n]), labels[n]);
      GrantsCounted(cfg, labels[..n], r);
      if granted == {} {
        assert Grants(cfg, labels[..n]) + granted == Grants(cfg, labels[..n]);
      } else {
        GrantAdds(Grants(cfg, labels[..n]), Grant(labels[n].run, History(cfg, labels[..n]).nextJob), r);
      }
    }
  }

  /** The job wrote a gated execution. */
  ghost predicate WroteGated(e: RunEntry, j: JobId)
    requires |e.steps| == |e.authors|
  {
    exists i :: 0 <= i < |e.steps| && GatedEntry(e.steps[i].output) && e.authors[i] == j
  }

  lemma WroteGatedSooner(e: RunEntry, n: nat, j: JobId)
    requires |e.steps| == |e.authors| && n <= |e.steps|
    requires WroteGated(e.(steps := e.steps[..n], authors := e.authors[..n]), j)
    ensures exists i :: 0 <= i < n && GatedEntry(e.steps[i].output) && e.authors[i] == j
  {
    var front := e.(steps := e.steps[..n], authors := e.authors[..n]);
    var i :| 0 <= i < |front.steps| && GatedEntry(front.steps[i].output) && front.authors[i] == j;
    assert GatedEntry(e.steps[i].output) && e.authors[i] == j;
  }

  /** As many different grants as there are gated rows. */
  lemma {:induction false} GatedAuthors(r: RunId, e: RunEntry, grants: set<Grant>) returns (authors: set<Grant>)
    requires |e.steps| == |e.authors| && EntryGranted(r, e, grants)
    ensures |authors| == GatedRows(e.steps)
    ensures forall g :: g in authors ==> g in grants && g.run == r && WroteGated(e, g.job)
    decreases |e.steps|
  {
    if e.steps == [] {
      authors := {};
    } else {
      var n := |e.steps| - 1;
      authors := GatedAuthors(r, e.(steps := e.steps[..n], authors := e.authors[..n]), grants);
      forall g | g in authors
        ensures WroteGated(e, g.job) && (GatedEntry(e.steps[n].output) ==> g.job != e.authors[n])
      {
        WroteGatedSooner(e, n, g.job);
      }
      if GatedEntry(e.steps[n].output) {
        authors := authors + {Grant(r, e.authors[n])};
      }
    }
  }

  /** However workers, resumes, crashes and leases interleave, a run records
      at most as many gated executions as resumes were opened to approve it. */
  lemma {:induction false} NoMoreThanApproved(cfg: Config, labels: seq<Label>, r: RunId)
    requires r in History(cfg, labels).runs
    ensures GatedRows(History(cfg, labels).runs[r].steps) <= ApprovalsOf(cfg, labels, r)
  {
    GrantsAlways(cfg, labels);
    var authors := GatedAuthors(r, History(cfg, labels).runs[r], Grants(cfg, labels));
    SubsetSmaller(authors, GrantsOf(Grants(cfg, labels), r));
    GrantsCounted(cfg, labels, r);
  }

  lemma {:induction false} SubsetSmaller<T>(a: set<T>, b: set<T>)
    requires a <= b
    ensures |a| <= |b|
    decreases |a|
  {
    if a != {} {
      var x :| x in a;
      SubsetSmaller(a - {x}, b - {x});
    }
  }
}
