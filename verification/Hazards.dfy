/** What a worker can do after its lease has passed: nothing fences it off. */
module Hazards {
  import opened Prelude
  import opened Nodes
  import opened RunGraph
  import opened GraphRuns
  import opened Tables
  import opened Protocol
  import opened Lineage
  import opened Solo
  import opened Crashes

  // -------------------------------------------------- outliving one's lease

  lemma {:induction false} OtherStepsLeaveJob(cfg: Config, s: System, l: Label, j: JobId)
    requires j in s.jobs && j < s.nextJob && !ActsOn(l, j)
    ensures var s' := Step(cfg, s, l); j in s'.jobs && s'.jobs[j] == s.jobs[j] && j < s'.nextJob && s.runs.Keys <= s'.runs.Keys
  {
  }

  lemma {:induction false} OthersLeaveJob(cfg: Config, s: System, labels: seq<Label>, j: JobId)
    requires j in s.jobs && j < s.nextJob
    requires forall i :: 0 <= i < |labels| ==> !ActsOn(labels[i], j)
    ensures var s' := After(cfg, s, labels);
            j in s'.jobs && s'.jobs[j] == s.jobs[j] && j < s'.nextJob && s.runs.Keys <= s'.runs.Keys
    decreases |labels|
  {
    if labels != [] {
      var n := |labels| - 1;
      OthersLeaveJob(cfg, s, labels[..n], j);
      OtherStepsLeaveJob(cfg, After(cfg, s, labels[..n]), labels[n], j);
    }
  }

  /** The statements a job has left up to its save. */
  function Rest(j: JobId, final: RunState, next: nat): seq<Label>
    requires next <= |final.trace|
  {
    Appends(j, |final.trace| - next) + [Save(j)]
  }

  /** What its statements do to its own run. */
  lemma RestSaves(cfg: Config, s: System, j: JobId, final: RunState, next: nat)
    requires PersistsFrom(s, j, final, next)
    ensures var r := s.jobs[j].run;
            var s' := After(cfg, s, Rest(j, final, next));
            && r in s'.runs && s'.runs[r].row == SaveRow(s.runs[r].row, final, |final.trace|)
            && s'.runs[r].steps == s.runs[r].steps + StepsOf(final.trace[next..])
            && s'.jobs.Keys == s.jobs.Keys && (forall k :: k in s.jobs && k != j ==> s'.jobs[k] == s.jobs[k])
            && s'.approvals == s.approvals && s'.nextJob == s.nextJob
  {
    SoloPersist(cfg, s, j, final, next);
  }

  lemma StepsContinue(front: seq<TraceEntry>, trace: seq<TraceEntry>)
    requires front <= trace
    ensures StepsOf(front) + StepsOf(trace[|front|..]) == StepsOf(trace)
  {
  }

  /** Nothing fences off a job. Whatever happens meanwhile, be it that its
      lease is released and the run executed, saved, resumed and finished by
      others, its remaining statements still go through: they add its rows to
      the table and put its result in place of any checkpoint. */
  lemma {:induction false} LateSaveOverwrites(cfg: Config, before: seq<Label>, meanwhile: seq<Label>, j: JobId,
                                             final: RunState, next: nat)
    requires PersistsFrom(History(cfg, before), j, final, next)
    requires forall i :: 0 <= i < |meanwhile| ==> !ActsOn(meanwhile[i], j)
    ensures var r := History(cfg, before).jobs[j].run;
            var s := History(cfg, before + meanwhile);
            var s' := History(cfg, before + meanwhile + Rest(j, final, next));
            && r in s.runs && r in s'.runs
            && s'.runs[r].row == SaveRow(s.runs[r].row, final, |final.trace|)
            && s'.runs[r].steps == s.runs[r].steps + StepsOf(final.trace[next..])
  {
    LineageAlways(cfg, before);
    assert JobInv(History(cfg, before), j, History(cfg, before).jobs[j], History(cfg, before).runs[History(cfg, before).jobs[j].run]);
    HistoryAfter(cfg, before, meanwhile);
    OthersLeaveJob(cfg, History(cfg, before), meanwhile, j);
    HistoryAfter(cfg, before + meanwhile, Rest(j, final, next));
    RestSaves(cfg, History(cfg, before + meanwhile), j, final, next);
  }

  /** The lease of job 0 passes, and job 1 executes the run again. */
  function TakeOver(r: RunId, worker: WorkerId, lease: nat, wait: nat, tools: Dispatcher): seq<Label> {
    [Tick(wait + 1), ReleaseStale, Claim(r, worker, lease), Execute(1, tools)]
  }

  lemma ReleasedAgain(s: System, r: RunId, q: Request, lease: nat, final: RunState)
    requires Started(s, r, q, lease, final)
    ensures var s' := ReleaseStep(s.(now := s.now + lease + 1));
            && r in s'.runs && s'.runs[r] == s.runs[r].(row := s.runs[r].row.(status := Pending, worker := None, lease := None))
            && s'.approvals == [] && s'.nextJob == 1 && s'.jobs == s.jobs
  {
  }

  lemma ClaimedAgain(cfg: Config, s: System, r: RunId, q: Request, worker: WorkerId, lease: nat, tools: Dispatcher)
    requires r in s.runs && s.runs[r].row.status == Pending && s.runs[r].row.checkpoint == None && s.nextJob == 1
    requires RequestOf(r, s.runs[r].row) == q && Invoke(cfg, q, tools).Some? && s.jobs.Keys == {0}
    ensures var s' := ExecuteStep(cfg, ClaimStep(s, r, worker, lease), 1, tools);
            && s'.approvals == s.approvals && s'.nextJob == 2 && s'.jobs.Keys == {0, 1} && s'.jobs[0] == s.jobs[0]
            && PersistsFrom(s', 1, Invoke(cfg, q, tools).value, 0) && s'.jobs[1].run == r && s'.runs[r].steps == s.runs[r].steps
  {
    assert ClaimStep(s, r, worker, lease).jobs[1].request == q;
  }

  lemma TakenOver(cfg: Config, s: System, r: RunId, q: Request, lease: nat, final: RunState, worker: WorkerId, tools: Dispatcher)
    requires Started(s, r, q, lease, final) && Invoke(cfg, q, tools).Some?
    ensures var s' := After(cfg, s, TakeOver(r, worker, lease, lease, tools));
            && s'.approvals == [] && s'.nextJob == 2 && s'.jobs.Keys == {0, 1} && s'.jobs[0] == s.jobs[0]
            && PersistsFrom(s', 1, Invoke(cfg, q, tools).value, 0) && s'.jobs[1].run == r && s'.runs[r].steps == []
  {
    TakeOverSteps(cfg, s, r, worker, lease, tools);
    ReleasedAgain(s, r, q, lease, final);
    ClaimedAgain(cfg, ReleaseStep(s.(now := s.now + lease + 1)), r, q, worker, lease, tools);
  }

  lemma TakeOverSteps(cfg: Config, s: System, r: RunId, worker: WorkerId, lease: nat, tools: Dispatcher)
    ensures After(cfg, s, TakeOver(r, worker, lease, lease, tools)) ==
              ExecuteStep(cfg, ClaimStep(ReleaseStep(s.(now := s.now + lease + 1)), r, worker, lease), 1, tools)
  {
    var labels := [Tick(lease + 1), ReleaseStale, Claim(r, worker, lease)];
    assert TakeOver(r, worker, lease, lease, tools) == labels + [Execute(1, tools)];
    AfterSnoc(cfg, s, labels, Execute(1, tools));
    After3(cfg, s, Tick(lease + 1), ReleaseStale, Claim(r, worker, lease));
  }

  /** The two workers of a run: both have executed it, and the second one has
      saved. Job 0 has not yet written. */
  function Overtaken(r: RunId, key: string, vertical: Option<string>, worker: WorkerId, other: WorkerId, lease: nat,
                     tools: Dispatcher, tools': Dispatcher, final': RunState): seq<Label> {
    Prologue(r, key, vertical, worker, lease, tools) + TakeOver(r, other, lease, lease, tools') + Rest(1, final', 0)
  }

  ghost predicate HasRun(cfg: Config, q: Request, tools: Dispatcher, final: RunState) {
    Invoke(cfg, q, tools) == Some(final)
  }

  lemma {:induction false} AfterOvertaking(cfg: Config, r: RunId, key: string, vertical: Option<string>, worker: WorkerId,
                                          other: WorkerId, lease: nat, tools: Dispatcher, tools': Dispatcher,
                                          final: RunState, final': RunState)
    requires HasRun(cfg, FirstRequest(r, key, vertical), tools, final)
    requires HasRun(cfg, FirstRequest(r, key, vertical), tools', final')
    ensures var s := History(cfg, Overtaken(r, key, vertical, worker, other, lease, tools, tools', final'));
            && r in s.runs && s.runs[r].row.checkpoint == Some(Checkpoint(final', |final'.trace|))
            && s.runs[r].steps == StepsOf(final'.trace) && s.runs[r].row.status == final'.status
            && s.approvals == [] && s.nextJob == 2
            && PersistsFrom(s, 0, final, 0) && s.jobs[0].run == r
  {
    var a, b := Prologue(r, key, vertical, worker, lease, tools), TakeOver(r, other, lease, lease, tools') + Rest(1, final', 0);
    AfterPrologue(cfg, r, key, vertical, worker, lease, tools);
    assert Overtaken(r, key, vertical, worker, other, lease, tools, tools', final') == a + b;
    HistoryAfter(cfg, a, b);
    SecondSaves(cfg, History(cfg, a), r, FirstRequest(r, key, vertical), lease, final, other, tools', final');
  }

  /** Job 1 takes over and saves; job 0 is still about to persist. */
  lemma {:induction false} SecondSaves(cfg: Config, s: System, r: RunId, q: Request, lease: nat, final: RunState,
                                      other: WorkerId, tools: Dispatcher, final': RunState)
    requires Started(s, r, q, lease, final) && HasRun(cfg, q, tools, final')
    ensures var s' := After(cfg, s, TakeOver(r, other, lease, lease, tools) + Rest(1, final', 0));
            && r in s'.runs && s'.runs[r].row.checkpoint == Some(Checkpoint(final', |final'.trace|))
            && s'.runs[r].steps == StepsOf(final'.trace) && s'.runs[r].row.status == final'.status
            && s'.approvals == [] && s'.nextJob == 2
            && PersistsFrom(s', 0, final, 0) && s'.jobs[0].run == r
  {
    var b, c := TakeOver(r, other, lease, lease, tools), Rest(1, final', 0);
    AfterConcat(cfg, s, b, c);
    TakenOver(cfg, s, r, q, lease, final, other, tools);
    RestSaves(cfg, After(cfg, s, b), 1, final', 0);
    StepsContinue([], final'.trace);
  }

  /** Two workers execute one run, the second after the first one's lease has
      passed; then the first one's statements all come after the second one's.
      The table holds both whole traces, and the checkpoint is the late one's. */
  lemma {:induction false} LateWorkerDuplicates(cfg: Config, r: RunId, key: string, vertical: Option<string>, worker: WorkerId,
                                               other: WorkerId, lease: nat, tools: Dispatcher, tools': Dispatcher,
                                               final: RunState, final': RunState)
    requires HasRun(cfg, FirstRequest(r, key, vertical), tools, final)
    requires HasRun(cfg, FirstRequest(r, key, vertical), tools', final')
    ensures var s := History(cfg, Overtaken(r, key, vertical, worker, other, lease, tools, tools', final') + Rest(0, final, 0));
            && r in s.runs && s.runs[r].row.checkpoint == Some(Checkpoint(final, |final.trace|))
            && s.runs[r].steps == StepsOf(final'.trace) + StepsOf(final.trace)
  {
    var before := Overtaken(r, key, vertical, worker, other, lease, tools, tools', final');
    AfterOvertaking(cfg, r, key, vertical, worker, other, lease, tools, tools', final, final');
    LateSaveOverwrites(cfg, before, [], 0, final, 0);
    assert before + [] == before;
    assert final.trace[0..] == final.trace;
  }

  /** Between the two the run may even have been resumed: then the late save
      takes the resume back. The run waits again, although the table shows that
      its gated tool was approved and executed. */
  lemma {:induction false} LateSaveUndoesResume(cfg: Config, r: RunId, key: string, vertical: Option<string>, worker: WorkerId,
                                               other: WorkerId, lease: nat, tools: Dispatcher, tools': Dispatcher,
                                               final: RunState, final': RunState, reason: string, tools'': Dispatcher)
    requires NamedPlans(cfg)
    requires HasRun(cfg, FirstRequest(r, key, vertical), tools, final) && final.status == ApprovalRequired
    requires HasRun(cfg, FirstRequest(r, key, vertical), tools', final') && final'.status == ApprovalRequired
    ensures exists labels :: Undone(cfg, labels, r, final)
  {
    var q := FirstRequest(r, key, vertical);
    var before := Overtaken(r, key, vertical, worker, other, lease, tools, tools', final');
    AfterOvertaking(cfg, r, key, vertical, worker, other, lease, tools, tools', final, final');
    var order := Order(Approved, reason, true);
    var resumed := ApprovedOnce(cfg, q, tools', final', order, tools'');
    NothingGatedYet(cfg, q, tools, final);
    UndoneFrom(cfg, before, r, final, final', order, tools'', resumed);
  }

  lemma {:induction false} UndoneFrom(cfg: Config, before: seq<Label>, r: RunId, final: RunState, waiting: RunState, order: Order,
                                     tools: Dispatcher, resumed: RunState)
    requires var s := History(cfg, before);
             && r in s.runs && s.runs[r].row.checkpoint == Some(Checkpoint(waiting, |waiting.trace|))
             && s.runs[r].steps == StepsOf(waiting.trace) && s.approvals == [] && s.nextJob == 2
             && PersistsFrom(s, 0, final, 0) && s.jobs[0].run == r
    requires ResumedState(cfg, History(cfg, before).runs[r].row, order, tools) == Some(resumed) && waiting.trace <= resumed.trace
    requires final.status == ApprovalRequired && GatedRuns(final.trace) == 0 && GatedRuns(resumed.trace) > 0
    ensures exists labels :: Undone(cfg, labels, r, final)
  {
    var meanwhile := ThroughRun(r, 2, order, tools) + Rest(2, resumed, |waiting.trace|);
    ResumedMeanwhile(cfg, before, r, waiting, order, tools, resumed);
    LateSaveUndoes(cfg, before, meanwhile, r, final, resumed);
    assert Undone(cfg, before + meanwhile, r, final);
  }

  /** After these labels the run has been resumed and its gated tool executed,
      and the statements job 0 has left make it wait again all the same. */
  ghost predicate Undone(cfg: Config, labels: seq<Label>, r: RunId, final: RunState) {
    var s := History(cfg, labels);
    var s' := History(cfg, labels + Rest(0, final, 0));
    && r in s.runs && s.runs[r].row.checkpoint.Some? && GatedRuns(s.runs[r].row.checkpoint.value.state.trace) > 0
    && r in s'.runs && s'.runs[r].row.status == ApprovalRequired
    && s'.runs[r].row.checkpoint == Some(Checkpoint(final, |final.trace|)) && GatedRuns(final.trace) == 0
    && StepsOf(s.runs[r].row.checkpoint.value.state.trace) <= s'.runs[r].steps
  }

  lemma {:induction false} LateSaveUndoes(cfg: Config, before: seq<Label>, meanwhile: seq<Label>, r: RunId,
                                         final: RunState, resumed: RunState)
    requires PersistsFrom(History(cfg, before), 0, final, 0) && History(cfg, before).jobs[0].run == r
    requires forall i :: 0 <= i < |meanwhile| ==> !ActsOn(meanwhile[i], 0)
    requires var s := History(cfg, before + meanwhile);
             && r in s.runs && s.runs[r].row.checkpoint == Some(Checkpoint(resumed, |resumed.trace|))
             && s.runs[r].steps == StepsOf(resumed.trace)
    requires final.status == ApprovalRequired && GatedRuns(final.trace) == 0 && GatedRuns(resumed.trace) > 0
    ensures Undone(cfg, before + meanwhile, r, final)
  {
    LateSaveOverwrites(cfg, before, meanwhile, 0, final, 0);
  }

  lemma NothingGatedYet(cfg: Config, q: Request, tools: Dispatcher, final: RunState)
    requires HasRun(cfg, q, tools, final)
    ensures GatedRuns(final.trace) == 0
  {
    InvokeEnded(cfg, q, tools);
  }

  /** Approving the waiting result executes one gated tool. */
  lemma ApprovedOnce(cfg: Config, q: Request, tools: Dispatcher, waiting: RunState, order: Order, tools': Dispatcher)
    returns (resumed: RunState)
    requires NamedPlans(cfg) && HasRun(cfg, q, tools, waiting) && waiting.status == ApprovalRequired && order.decision == Approved
    ensures Resume(cfg.registry, waiting, Approved, tools').Some?
    ensures resumed == Annotate(Resume(cfg.registry, waiting, Approved, tools').value, order)
    ensures waiting.trace <= resumed.trace && GatedRuns(resumed.trace) == 1
  {
    InvokeEnded(cfg, q, tools);
    InvokeAnswerable(cfg, q, tools);
    PendingIsNamed(cfg.registry, waiting);
    ResumeEnded(cfg.registry, waiting, Approved, tools');
    resumed := Annotate(Resume(cfg.registry, waiting, Approved, tools').value, order);
  }

  /** Job 2 resumes what job 1 saved, and saves in turn. */
  lemma {:induction false} ResumedMeanwhile(cfg: Config, before: seq<Label>, r: RunId, waiting: RunState, order: Order, tools: Dispatcher,
                                           resumed: RunState)
    requires var s := History(cfg, before);
             && r in s.runs && s.runs[r].row.checkpoint == Some(Checkpoint(waiting, |waiting.trace|))
             && s.runs[r].steps == StepsOf(waiting.trace) && s.approvals == [] && s.nextJob == 2
    requires ResumedState(cfg, History(cfg, before).runs[r].row, order, tools) == Some(resumed) && waiting.trace <= resumed.trace
    ensures var s := History(cfg, before + (ThroughRun(r, 2, order, tools) + Rest(2, resumed, |waiting.trace|)));
            && r in s.runs && s.runs[r].row.checkpoint == Some(Checkpoint(resumed, |resumed.trace|))
            && s.runs[r].steps == StepsOf(resumed.trace)
  {
    HistoryAfter(cfg, before, ThroughRun(r, 2, order, tools) + Rest(2, resumed, |waiting.trace|));
    ResumedAndSaved(cfg, History(cfg, before), r, waiting, order, tools, resumed);
  }

  lemma {:induction false} ResumedAndSaved(cfg: Config, s: System, r: RunId, waiting: RunState, order: Order, tools: Dispatcher,
                                          resumed: RunState)
    requires r in s.runs && s.runs[r].row.checkpoint == Some(Checkpoint(waiting, |waiting.trace|))
    requires s.runs[r].steps == StepsOf(waiting.trace) && s.approvals == [] && s.nextJob == 2
    requires ResumedState(cfg, s.runs[r].row, order, tools) == Some(resumed) && waiting.trace <= resumed.trace
    ensures var s' := After(cfg, s, ThroughRun(r, 2, order, tools) + Rest(2, resumed, |waiting.trace|));
            && r in s'.runs && s'.runs[r].row.checkpoint == Some(Checkpoint(resumed, |resumed.trace|))
            && s'.runs[r].steps == StepsOf(resumed.trace)
  {
    var a, b := ThroughRun(r, 2, order, tools), Rest(2, resumed, |waiting.trace|);
    AfterConcat(cfg, s, a, b);
    ResumeThroughRun(cfg, s, r, order, tools);
    RestSaves(cfg, After(cfg, s, a), 2, resumed, |waiting.trace|);
    StepsContinue(waiting.trace, resumed.trace);
  }
}
