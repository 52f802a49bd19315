/** What run_steps says of the tools is what the tools said: in every history
    each step row holds the answer that its author's graph call got. */
module RecordedAnswers {
  import opened Prelude
  import opened Nodes
  import opened GraphAnswers
  import opened Tables
  import opened Protocol
  import opened ProtocolSafety
  import opened Lineage
  import opened Checkpoints
  import opened GatedExecutions
  import opened Dispatches
  import opened RunIdentity

  /** A graph call: the tools it was made with, and the run's vertical and
      outcome at that moment. */
  datatype Call = Call(tools: Dispatcher, vertical: string, outcome: Outcome)

  function CallOf(job: Job, tools: Dispatcher): Call {
    if job.order.Some? && job.base.Some? then Call(tools, job.base.value.state.vertical, job.base.value.state.outcome)
    else Call(tools, job.request.vertical, NO_OUTCOME)
  }

  /** The calls that the jobs have made so far. */
  function Calls(cfg: Config, labels: seq<Label>): map<JobId, Call> {
    if labels == [] then map[]
    else
      var n := |labels| - 1;
      Calls(cfg, labels[..n]) + CallsBy(History(cfg, labels[..n]), labels[n])
  }

  function CallsBy(s: System, l: Label): map<JobId, Call> {
    if Starts(s, l) then map[l.job := CallOf(s.jobs[l.job], l.tools)] else map[]
  }

  /** The entry holds what that call's tool answered at some step. */
  ghost predicate Told(e: TraceEntry, call: Call) {
    exists n: nat :: Tells(e, call.tools, n, call.vertical, call.outcome)
  }

  ghost predicate RowTold(calls: map<JobId, Call>, row: Row, e: TraceEntry, author: JobId) {
    author in calls && InVertical(row, calls[author].vertical) && Told(e, calls[author])
  }

  ghost predicate JobTold(calls: map<JobId, Call>, row: Row, j: JobId, job: Job) {
    job.phase.Persisting? ==>
      forall m :: job.phase.next <= m < |job.phase.final.trace| ==> RowTold(calls, row, job.phase.final.trace[m], j)
  }

  ghost predicate EntryTold(calls: map<JobId, Call>, e: RunEntry) {
    forall i :: 0 <= i < |e.steps| && i < |e.authors| ==> RowTold(calls, e.row, e.steps[i].output, e.authors[i])
  }

  ghost predicate ToldInv(s: System, calls: map<JobId, Call>) {
    && (forall j :: j in calls ==> Called(s, j))
    && (forall r :: r in s.runs ==> EntryTold(calls, s.runs[r]))
    && (forall j :: j in s.jobs ==> s.jobs[j].run in s.runs && JobTold(calls, s.runs[s.jobs[j].run].row, j, s.jobs[j]))
  }

  ghost predicate Keeps(calls: map<JobId, Call>, calls': map<JobId, Call>) {
    forall j :: j in calls ==> j in calls' && calls'[j] == calls[j]
  }

  lemma RowStaysTold(calls: map<JobId, Call>, calls': map<JobId, Call>, row: Row, row': Row, e: TraceEntry, author: JobId)
    requires Keeps(calls, calls') && SameNames(row, row')
    ensures RowTold(calls, row, e, author) ==> RowTold(calls', row', e, author)
  {
  }

  lemma EntryStaysTold(calls: map<JobId, Call>, calls': map<JobId, Call>, e: RunEntry, e': RunEntry)
    requires Keeps(calls, calls') && SameNames(e.row, e'.row) && SameSteps(e, e') && EntryTold(calls, e)
    ensures EntryTold(calls', e')
  {
    forall i | 0 <= i < |e'.steps| && i < |e'.authors| ensures RowTold(calls', e'.row, e'.steps[i].output, e'.authors[i]) {
      RowStaysTold(calls, calls', e.row, e'.row, e.steps[i].output, e.authors[i]);
    }
  }

  lemma JobStaysTold(calls: map<JobId, Call>, calls': map<JobId, Call>, row: Row, row': Row, j: JobId, job: Job)
    requires Keeps(calls, calls') && SameNames(row, row') && JobTold(calls, row, j, job)
    ensures JobTold(calls', row', j, job)
  {
    if job.phase.Persisting? {
      forall m | job.phase.next <= m < |job.phase.final.trace| ensures RowTold(calls', row', job.phase.final.trace[m], j) {
        RowStaysTold(calls, calls', row, row', job.phase.final.trace[m], j);
      }
    }
  }

  /** A step that writes no step row and sets only job `mine`. */
  ghost predicate Quiet(s: System, s': System, mine: JobId) {
    && (forall r :: r in s'.runs ==>
          || s'.runs[r].authors == []
          || (r in s.runs && SameSteps(s.runs[r], s'.runs[r]) && SameNames(s.runs[r].row, s'.runs[r].row)))
    && (forall r :: r in s.runs ==> r in s'.runs && SameNames(s.runs[r].row, s'.runs[r].row))
    && (forall k :: k in s'.jobs && k != mine ==> k in s.jobs && s'.jobs[k] == s.jobs[k])
  }

  lemma ToldFrame(s: System, s': System, calls: map<JobId, Call>, calls': map<JobId, Call>, mine: JobId)
    requires ToldInv(s, calls) && Keeps(calls, calls') && Quiet(s, s', mine)
    requires forall j :: j in calls' ==> Called(s', j)
    requires mine in s'.jobs ==> s'.jobs[mine].run in s'.runs && JobTold(calls', s'.runs[s'.jobs[mine].run].row, mine, s'.jobs[mine])
    ensures ToldInv(s', calls')
  {
    forall r | r in s'.runs ensures EntryTold(calls', s'.runs[r]) {
      if s'.runs[r].authors != [] {
        EntryStaysTold(calls, calls', s.runs[r], s'.runs[r]);
      }
    }
    forall k | k in s'.jobs && k != mine
      ensures s'.jobs[k].run in s'.runs && JobTold(calls', s'.runs[s'.jobs[k].run].row, k, s'.jobs[k])
    {
      JobStaysTold(calls, calls', s.runs[s.jobs[k].run].row, s'.runs[s.jobs[k].run].row, k, s.jobs[k]);
    }
  }

  // ------------------------------------------------------------------- steps

  /** What a call adds to the trace tells what its tools answered. */
  lemma ResultTells(cfg: Config, job: Job, tools: Dispatcher)
    requires GraphResult(cfg, job, tools).Some? && (job.order == None <==> job.base == None)
    requires job.base.Some? ==>
               job.base.value.state.stepCount == |job.base.value.state.trace| == job.base.value.persistedLen
    ensures var trace, call := GraphResult(cfg, job, tools).value.trace, CallOf(job, tools);
            forall m: nat :: PersistedLen(job.base) <= m < |trace| ==> Told(trace[m], call)
  {
    match job.order
    case None => InvokeTells(cfg, job.request, tools);
    case Some(order) => ResumeTells(cfg.registry, job.base.value.state, order.decision, tools);
    var trace, call := GraphResult(cfg, job, tools).value.trace, CallOf(job, tools);
    forall m: nat | PersistedLen(job.base) <= m < |trace| ensures Told(trace[m], call) {
      assert Tells(trace[m], call.tools, m, call.vertical, call.outcome);
    }
  }

  /** The checkpoint a job read is whole, and its state is the run's. */
  ghost predicate Sane(cfg: Config, row: Row, job: Job) {
    && (job.order == None <==> job.base == None)
    && (job.base.Some? ==> job.base.value.state.stepCount == |job.base.value.state.trace| == job.base.value.persistedLen)
    && JobAbout(cfg, row, job)
  }

  lemma {:induction false} JobsAreSane(cfg: Config, s: System, j: JobId)
    requires QueueInv(s) && LineageInv(s) && CheckpointInv(cfg, s) && AboutInv(cfg, s) && j in s.jobs
    ensures s.jobs[j].run in s.runs && Sane(cfg, s.runs[s.jobs[j].run].row, s.jobs[j])
  {
    var job := s.jobs[j];
    assert JobSettled(job) && JobInv(s, j, job, s.runs[job.run]) && JobFromGraph(cfg, job);
  }

  lemma StartTold(cfg: Config, row: Row, calls: map<JobId, Call>, j: JobId, job: Job, tools: Dispatcher)
    requires Sane(cfg, row, job) && GraphResult(cfg, job, tools).Some?
    requires j in calls && calls[j] == CallOf(job, tools)
    ensures JobTold(calls, row, j, job.(phase := Persisting(GraphResult(cfg, job, tools).value, PersistedLen(job.base))))
  {
    ResultTells(cfg, job, tools);
  }

  lemma ExecutedPhase(cfg: Config, s: System, j: JobId, tools: Dispatcher)
    requires Starts(s, Execute(j, tools)) && s.jobs[j].run in s.runs
    ensures var s' := ExecuteStep(cfg, s, j, tools);
            && s.jobs[j].run in s'.runs && SameNames(s.runs[s.jobs[j].run].row, s'.runs[s.jobs[j].run].row)
            && (j in s'.jobs ==>
                  && GraphResult(cfg, s.jobs[j], tools).Some?
                  && s'.jobs[j] == s.jobs[j].(
                       phase := Persisting(GraphResult(cfg, s.jobs[j], tools).value, PersistedLen(s.jobs[j].base))))
  {
  }

  lemma {:induction false} ExecuteQuiet(cfg: Config, s: System, j: JobId, tools: Dispatcher)
    ensures Quiet(s, ExecuteStep(cfg, s, j, tools), j)
  {
  }

  lemma {:induction false} StartedTold(cfg: Config, s: System, calls: map<JobId, Call>, j: JobId, tools: Dispatcher)
    requires Starts(s, Execute(j, tools)) && s.jobs[j].run in s.runs && Sane(cfg, s.runs[s.jobs[j].run].row, s.jobs[j])
    requires j in calls && calls[j] == CallOf(s.jobs[j], tools)
    ensures var s' := ExecuteStep(cfg, s, j, tools);
            j in s'.jobs ==> s'.jobs[j].run in s'.runs && JobTold(calls, s'.runs[s'.jobs[j].run].row, j, s'.jobs[j])
  {
    var s' := ExecuteStep(cfg, s, j, tools);
    var r := s.jobs[j].run;
    ExecutedPhase(cfg, s, j, tools);
    if j in s'.jobs {
      StartTold(cfg, s.runs[r].row, calls, j, s.jobs[j], tools);
      JobStaysTold(calls, calls, s.runs[r].row, s'.runs[r].row, j, s'.jobs[j]);
    }
  }

  lemma {:induction false} ExecuteTold(cfg: Config, s: System, calls: map<JobId, Call>, calls': map<JobId, Call>, j: JobId,
                                      tools: Dispatcher)
    requires Starts(s, Execute(j, tools)) ==> s.jobs[j].run in s.runs && Sane(cfg, s.runs[s.jobs[j].run].row, s.jobs[j])
    requires ToldInv(s, calls) && calls' == calls + CallsBy(s, Execute(j, tools))
    requires forall k :: k in calls' ==> Called(ExecuteStep(cfg, s, j, tools), k)
    ensures ToldInv(ExecuteStep(cfg, s, j, tools), calls')
  {
    if Starts(s, Execute(j, tools)) {
      assert j !in calls;
      assert Keeps(calls, calls');
      ExecuteQuiet(cfg, s, j, tools);
      StartedTold(cfg, s, calls', j, tools);
      ToldFrame(s, ExecuteStep(cfg, s, j, tools), calls, calls', j);
    }
  }

  lemma {:induction false} AllCalled(cfg: Config, s: System, calls: map<JobId, Call>, l: Label)
    requires QueueInv(s) && LineageInv(s) && forall j :: j in calls ==> Called(s, j)
    ensures forall j :: j in calls + CallsBy(s, l) ==> Called(Step(cfg, s, l), j)
  {
    if Starts(s, l) {
      StartedIsCalled(cfg, s, l);
    }
    forall j | j in calls ensures Called(Step(cfg, s, l), j) {
      StaysCalled(cfg, s, l, j);
    }
  }

  lemma {:induction false} AppendTold(s: System, calls: map<JobId, Call>, j: JobId)
    requires LineageInv(s) && ToldInv(s, calls) && forall k :: k in calls ==> Called(AppendStep(s, j), k)
    ensures ToldInv(AppendStep(s, j), calls)
  {
    var s' := AppendStep(s, j);
    if s' != s {
      var q := s.jobs[j].run;
      assert EntryInv(s, s.runs[q]) && JobTold(calls, s.runs[q].row, j, s.jobs[j]);
      AppendedTold(calls, s.runs[q], s'.runs[q], s.jobs[j], j);
      forall k | k in s'.jobs ensures s'.jobs[k].run in s'.runs && JobTold(calls, s'.runs[s'.jobs[k].run].row, k, s'.jobs[k]) {
        assert JobTold(calls, s.runs[s.jobs[k].run].row, k, s.jobs[k]);
      }
    }
  }

  lemma AppendedTold(calls: map<JobId, Call>, e: RunEntry, e': RunEntry, job: Job, j: JobId)
    requires |e.steps| == |e.authors| && EntryTold(calls, e) && JobTold(calls, e.row, j, job)
    requires job.phase.Persisting? && job.phase.next < |job.phase.final.trace|
    requires e' == e.(steps := e.steps + [StepOf(job.phase.final.trace[job.phase.next])], authors := e.authors + [j])
    ensures EntryTold(calls, e')
  {
    forall i | 0 <= i < |e'.steps| && i < |e'.authors| ensures RowTold(calls, e'.row, e'.steps[i].output, e'.authors[i]) {
      if i < |e.steps| {
        assert RowTold(calls, e.row, e.steps[i].output, e.authors[i]);
      }
    }
  }

  /** Any other step writes no step row and starts no persist. */
  lemma {:induction false} OtherTold(cfg: Config, s: System, calls: map<JobId, Call>, l: Label)
    requires AboutInv(cfg, Step(cfg, s, l)) && ToldInv(s, calls) && !l.Append? && !l.Execute?
    requires forall j :: j in calls ==> Called(Step(cfg, s, l), j)
    ensures ToldInv(Step(cfg, s, l), calls)
  {
    var s' := Step(cfg, s, l);
    OtherKeeps(cfg, s, l);
    NamesKept(cfg, s, l);
    forall r | r in s'.runs ensures EntryTold(calls, s'.runs[r]) {
      if s'.runs[r].authors != [] {
        EntryStaysTold(calls, calls, s.runs[r], s'.runs[r]);
      }
    }
    forall k | k in s'.jobs ensures s'.jobs[k].run in s'.runs && JobTold(calls, s'.runs[s'.jobs[k].run].row, k, s'.jobs[k]) {
      if s'.jobs[k].phase.Persisting? {
        JobStaysTold(calls, calls, s.runs[s.jobs[k].run].row, s'.runs[s.jobs[k].run].row, k, s.jobs[k]);
      }
    }
  }

  lemma {:induction false} NamesKept(cfg: Config, s: System, l: Label)
    ensures forall r :: r in s.runs ==> r in Step(cfg, s, l).runs && SameNames(s.runs[r].row, Step(cfg, s, l).runs[r].row)
  {
  }

  lemma {:induction false} StepKeepsTold(cfg: Config, s: System, calls: map<JobId, Call>, l: Label)
    requires QueueInv(s) && LineageInv(s) && CheckpointInv(cfg, s) && AboutInv(cfg, s) && ToldInv(s, calls)
    ensures ToldInv(Step(cfg, s, l), calls + CallsBy(s, l))
  {
    AllCalled(cfg, s, calls, l);
    match l
    case Execute(j, tools) =>
      if j in s.jobs {
        JobsAreSane(cfg, s, j);
      }
      ExecuteTold(cfg, s, calls, calls + CallsBy(s, l), j, tools);
    case _ =>
      NoneCalled(s, calls, l);
      StepKeepsAbout(cfg, s, l);
      RestTold(cfg, s, calls, l);
  }

  lemma NoneCalled(s: System, calls: map<JobId, Call>, l: Label)
    requires !l.Execute?
    ensures calls + CallsBy(s, l) == calls
  {
  }

  lemma {:induction false} RestTold(cfg: Config, s: System, calls: map<JobId, Call>, l: Label)
    requires LineageInv(s) && AboutInv(cfg, Step(cfg, s, l)) && ToldInv(s, calls) && !l.Execute?
    requires forall j :: j in calls ==> Called(Step(cfg, s, l), j)
    ensures ToldInv(Step(cfg, s, l), calls)
  {
    match l
    case Append(j) => AppendTold(s, calls, j);
    case _ => OtherTold(cfg, s, calls, l);
  }

  lemma {:induction false} ToldAlways(cfg: Config, labels: seq<Label>)
    ensures ToldInv(History(cfg, labels), Calls(cfg, labels))
    decreases |labels|
  {
    if labels != [] {
      var n := |labels| - 1;
      ToldAlways(cfg, labels[..n]);
      QueueAlways(cfg, labels[..n]);
      LineageAlways(cfg, labels[..n]);
      CheckpointsAlways(cfg, labels[..n]);
      AboutAlways(cfg, labels[..n]);
      StepKeepsTold(cfg, History(cfg, labels[..n]), Calls(cfg, labels[..n]), labels[n]);
    }
  }

  // -------------------------------------------------------------- the result

  /** A call is one that some label of the history started. */
  lemma {:induction false} CallsWereMade(cfg: Config, labels: seq<Label>, j: JobId) returns (n: nat)
    requires j in Calls(cfg, labels)
    ensures n < |labels| && Starts(History(cfg, labels[..n]), labels[n]) && labels[n].job == j
    ensures Calls(cfg, labels)[j] == CallOf(History(cfg, labels[..n]).jobs[j], labels[n].tools)
    decreases |labels|
  {
    n := |labels| - 1;
    if j !in CallsBy(History(cfg, labels[..n]), labels[n]) {
      var k := CallsWereMade(cfg, labels[..n], j);
      assert labels[..n][..k] == labels[..k];
      n := k;
    }
  }

  /** The row shows what that call's tool answered at some step. */
  ghost predicate RowShowsAnswer(row: StepRow, call: Call) {
    exists args, n: nat ::
      && CalledWith(row.toolName, args, call.vertical, call.outcome)
      && var answer := call.tools(row.toolName, args, n);
         row.ok == answer.success && row.latencyMs == answer.latencyMs && row.cost == answer.cost
  }

  /** In every history: the author of a step row has made its one graph call,
      in the run's vertical. If the row is of an executed tool, its status,
      latency and cost are those that the tool answered in that call; if of a
      proposal, it is ok and costs nothing. */
  lemma {:induction false} RowsTell(cfg: Config, labels: seq<Label>, r: RunId, i: nat)
    requires r in History(cfg, labels).runs && i < |History(cfg, labels).runs[r].steps|
    ensures var e, calls := History(cfg, labels).runs[r], Calls(cfg, labels);
            && |e.authors| == |e.steps| && e.authors[i] in calls
            && InVertical(e.row, calls[e.authors[i]].vertical)
            && var row := e.steps[i];
               if row.output.executed then RowShowsAnswer(row, calls[e.authors[i]])
               else row.ok && row.latencyMs == 0 && row.cost == 0.0
  {
    ToldAlways(cfg, labels);
    LineageAlways(cfg, labels);
    var e, calls := History(cfg, labels).runs[r], Calls(cfg, labels);
    assert EntryInv(History(cfg, labels), e) && EntryTold(calls, e);
    assert RowTold(calls, e.row, e.steps[i].output, e.authors[i]);
    RowShows(e.steps[i], calls[e.authors[i]]);
  }

  lemma RowShows(row: StepRow, call: Call)
    requires row == StepOf(row.output) && Told(row.output, call)
    ensures if row.output.executed then RowShowsAnswer(row, call) else row.ok && row.latencyMs == 0 && row.cost == 0.0
  {
    var n: nat :| Tells(row.output, call.tools, n, call.vertical, call.outcome);
    if row.output.executed {
      var args :|
        && CalledWith(row.output.toolName, args, call.vertical, call.outcome)
        && var answer := call.tools(row.output.toolName, args, n);
           row.output.success == answer.success && row.output.latencyMs == answer.latencyMs && row.output.cost == answer.cost;
      assert CalledWith(row.toolName, args, call.vertical, call.outcome);
    }
  }
}
