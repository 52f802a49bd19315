/** The executor's sequence of statements is what its atomic steps add up to
    when nothing comes between them: a lone execution and a lone resume leave
    the tables as `Executed` and `Resumed` say. */
module SoloRuns {
  import opened Prelude
  import opened Nodes
  import opened RunGraph
  import opened Tables
  import opened Protocol
  import opened Solo
  import opened Executor

  /** The tables, without the history variables. */
  ghost function WorldOf(s: System, memory: MemoryRows): World {
    World(map r | r in s.runs :: s.runs[r].row, map r | r in s.runs :: s.runs[r].steps, s.approvals, memory)
  }

  /** The statements from the first row to the request for approval. */
  function Persists(j: JobId, final: RunState, next: nat): seq<Label>
    requires next <= |final.trace|
  {
    Appends(j, |final.trace| - next) + [Save(j)] + [Check(j), RequestApproval(j)]
  }

  lemma LastTwo(cfg: Config, s: System, j: JobId, final: RunState)
    requires j in s.jobs && s.jobs[j].phase == Saved(final)
    ensures var s' := After(cfg, s, [Check(j), RequestApproval(j)]);
            && s'.runs == s.runs && s'.jobs == s.jobs - {j} && s'.now == s.now && s'.nextJob == s.nextJob
            && s'.approvals == WithRequest(s.approvals, s.jobs[j].run, final)
  {
    After2(cfg, s, Check(j), RequestApproval(j));
  }

  lemma {:induction false} LoneStatements(cfg: Config, s: System, j: JobId, final: RunState, next: nat)
    requires PersistsFrom(s, j, final, next)
    ensures var s' := After(cfg, s, Persists(j, final, next));
            && s'.runs == s.runs[s.jobs[j].run := PersistEntry(s.runs[s.jobs[j].run], j, s.jobs[j], final, next)]
            && s'.jobs == s.jobs - {j} && s'.now == s.now && s'.nextJob == s.nextJob
            && s'.approvals == WithRequest(s.approvals, s.jobs[j].run, final)
  {
    var front := Appends(j, |final.trace| - next) + [Save(j)];
    var saved := After(cfg, s, front);
    SoloPersist(cfg, s, j, final, next);
    AfterConcat(cfg, s, front, [Check(j), RequestApproval(j)]);
    LastTwo(cfg, saved, j, final);
    assert saved.jobs - {j} == s.jobs - {j};
  }

  /** Left alone, a job that is about to persist does what Persist says. */
  lemma {:induction false} LonePersist(cfg: Config, s: System, j: JobId, final: RunState, run: Row, memory: MemoryRows)
    requires PersistsFrom(s, j, final, PersistedLen(run.checkpoint))
    ensures var s' := After(cfg, s, Persists(j, final, PersistedLen(run.checkpoint)));
            && WorldOf(s', memory) == Persist(WorldOf(s, memory), s.jobs[j].run, run, final)
            && s'.jobs == s.jobs - {j} && s'.now == s.now && s'.nextJob == s.nextJob
  {
    LoneStatements(cfg, s, j, final, PersistedLen(run.checkpoint));
    PersistedWorld(s, After(cfg, s, Persists(j, final, PersistedLen(run.checkpoint))), j, final, run, memory);
  }

  lemma PersistedWorld(s: System, saved: System, j: JobId, final: RunState, run: Row, memory: MemoryRows)
    requires PersistsFrom(s, j, final, PersistedLen(run.checkpoint))
    requires saved.runs == s.runs[s.jobs[j].run := PersistEntry(s.runs[s.jobs[j].run], j, s.jobs[j], final, PersistedLen(run.checkpoint))]
    requires saved.approvals == WithRequest(s.approvals, s.jobs[j].run, final)
    ensures WorldOf(saved, memory) == Persist(WorldOf(s, memory), s.jobs[j].run, run, final)
  {
    var r := s.jobs[j].run;
    var w, w' := WorldOf(s, memory), Persist(WorldOf(s, memory), r, run, final);
    assert WorldOf(saved, memory).rows == w'.rows;
    assert WorldOf(saved, memory).steps == w'.steps;
  }

  // -------------------------------------------------------------- executions

  lemma ClaimedWorld(s: System, r: RunId, worker: WorkerId, lease: int, memory: MemoryRows)
    requires r in s.runs && s.runs[r].row.status == Pending
    ensures WorldOf(ClaimStep(s, r, worker, lease), memory) == ClaimedBy(WorldOf(s, memory), r, worker, s.now + lease)
  {
    var s' := ClaimStep(s, r, worker, lease);
    assert WorldOf(s', memory).rows == ClaimedBy(WorldOf(s, memory), r, worker, s.now + lease).rows;
    assert WorldOf(s', memory).steps == WorldOf(s, memory).steps;
  }

  /** Claim and execute. */
  lemma ClaimAndExecute(cfg: Config, s: System, r: RunId, worker: WorkerId, lease: int, tools: Dispatcher)
    requires r in s.runs && s.runs[r].row.status == Pending && s.runs[r].row.checkpoint == None && s.nextJob !in s.jobs
    ensures var j := s.nextJob;
            var claimed := ClaimStep(s, r, worker, lease);
            var s' := After(cfg, s, [Claim(r, worker, lease), Execute(j, tools)]);
            match Invoke(cfg, RequestOf(r, s.runs[r].row), tools)
            case None => s' == Finish(claimed, j).(runs := claimed.runs[r := claimed.runs[r].(row := FailRow(claimed.runs[r].row))])
            case Some(final) => s' == WithJob(claimed, j, Persisting(final, 0))
  {
    After2(cfg, s, Claim(r, worker, lease), Execute(s.nextJob, tools));
  }

  /** All labels of a lone execution whose result is known. */
  function Execution(r: RunId, worker: WorkerId, lease: int, j: JobId, tools: Dispatcher, result: Option<RunState>): seq<Label> {
    [Claim(r, worker, lease), Execute(j, tools)] + if result.Some? then Persists(j, result.value, 0) else []
  }

  /** A worker that nobody disturbs leaves the tables as Executed says, with
      the outcome still to be remembered. */
  lemma {:induction false} LoneExecution(cfg: Config, s: System, r: RunId, worker: WorkerId, lease: int, tools: Dispatcher,
                                        memory: MemoryRows, stamp: Stamp)
    requires r in s.runs && s.runs[r].row.status == Pending && s.runs[r].row.checkpoint == None && s.nextJob !in s.jobs
    ensures var claimed := ClaimedBy(WorldOf(s, memory), r, worker, s.now + lease);
            var result := Invoke(cfg, RequestOf(r, s.runs[r].row), tools);
            var s' := After(cfg, s, Execution(r, worker, lease, s.nextJob, tools, result));
            var w := Executed(claimed, r, claimed.rows[r], result, stamp);
            WorldOf(s', w.memory) == w && s'.jobs == s.jobs
  {
    var j := s.nextJob;
    var claimed := ClaimStep(s, r, worker, lease);
    var result := Invoke(cfg, RequestOf(r, s.runs[r].row), tools);
    var start := [Claim(r, worker, lease), Execute(j, tools)];
    ClaimedWorld(s, r, worker, lease, memory);
    ClaimAndExecute(cfg, s, r, worker, lease, tools);
    var s1 := After(cfg, s, start);
    match result
    case None =>
      assert Execution(r, worker, lease, j, tools, result) == start;
      FailedWorld(s, claimed, s1, r, j, memory);
    case Some(final) =>
      AfterConcat(cfg, s, start, Persists(j, final, 0));
      PersistedExecution(cfg, s, claimed, r, j, final, memory, stamp);
  }

  lemma FailedWorld(s: System, claimed: System, failed: System, r: RunId, j: JobId, memory: MemoryRows)
    requires r in claimed.runs && j !in s.jobs && j in claimed.jobs && claimed.jobs == s.jobs[j := claimed.jobs[j]]
    requires failed == Finish(claimed, j).(runs := claimed.runs[r := claimed.runs[r].(row := FailRow(claimed.runs[r].row))])
    ensures failed.jobs == s.jobs
    ensures var w := WorldOf(claimed, memory); WorldOf(failed, memory) == w.(rows := w.rows[r := FailRow(w.rows[r])])
  {
    var w := WorldOf(claimed, memory);
    assert WorldOf(failed, memory).rows == w.rows[r := FailRow(w.rows[r])];
    assert WorldOf(failed, memory).steps == w.steps;
  }

  lemma {:induction false} PersistedExecution(cfg: Config, s: System, claimed: System, r: RunId, j: JobId, final: RunState,
                                             memory: MemoryRows, stamp: Stamp)
    requires r in claimed.runs && j !in s.jobs && claimed.runs[r].row.checkpoint == None
    requires j in claimed.jobs && claimed.jobs[j].run == r && claimed.jobs == s.jobs[j := claimed.jobs[j]]
    ensures var s' := After(cfg, WithJob(claimed, j, Persisting(final, 0)), Persists(j, final, 0));
            var w := Executed(WorldOf(claimed, memory), r, claimed.runs[r].row, Some(final), stamp);
            WorldOf(s', w.memory) == w && s'.jobs == s.jobs
  {
    var s1 := WithJob(claimed, j, Persisting(final, 0));
    var persisted := Persist(WorldOf(claimed, memory), r, claimed.runs[r].row, final);
    LonePersist(cfg, s1, j, final, claimed.runs[r].row, memory);
    Remembers(persisted, final, stamp);
    assert WorldOf(s1, memory) == WorldOf(claimed, memory);
  }

  // ----------------------------------------------------------------- resumes

  function Decisions(j: JobId, n: nat): seq<Label> {
    seq(n, _ => Decide(j))
  }

  /** Deciding k of the targets. */
  lemma {:induction false} LoneDecisions(cfg: Config, s: System, j: JobId, targets: seq<nat>, order: Order, k: nat)
    requires j in s.jobs && s.jobs[j].phase == Deciding(targets) && s.jobs[j].order == Some(order) && k <= |targets|
    ensures After(cfg, s, Decisions(j, k)) ==
              WithJob(s, j, Deciding(targets[k..])).(approvals := DecideAll(s.approvals, targets[..k], order))
    decreases k
  {
    if k == 0 {
      assert Decisions(j, 0) == [] && targets[0..] == targets && targets[..0] == [];
      assert WithJob(s, j, Deciding(targets)) == s;
    } else {
      LoneDecisions(cfg, s, j, targets, order, k - 1);
      assert Decisions(j, k)[..k - 1] == Decisions(j, k - 1);
      assert targets[..k][..k - 1] == targets[..k - 1];
      assert targets[k - 1..][1..] == targets[k..];
    }
  }

  /** The labels of a lone resume up to its decisions. */
  function Deliberation(r: RunId, approval: Option<nat>, order: Order, j: JobId, targets: seq<nat>): seq<Label> {
    [OpenResume(r, approval, order)] + (if approval.Some? then [] else [ListPending(j)]) + Decisions(j, |targets|)
  }

  /** The resume's job is open, and has decided its targets. */
  function Decided(s: System, r: RunId, approval: Option<nat>, order: Order, targets: seq<nat>): System
    requires r in s.runs
  {
    s.(jobs := s.jobs[s.nextJob := Opening(s.runs[r], r, approval, order, s.nextJob).(phase := Deciding([]))],
       nextJob := s.nextJob + 1, approvals := DecideAll(s.approvals, targets, order))
  }

  lemma {:induction false} LoneDeliberation(cfg: Config, s: System, r: RunId, approval: Option<nat>, order: Order, memory: MemoryRows)
    requires CanOpen(s, r, approval) && s.nextJob !in s.jobs
    ensures var targets := Targets(WorldOf(s, memory), r, approval);
            After(cfg, s, Deliberation(r, approval, order, s.nextJob, targets)) == Decided(s, r, approval, order, targets)
  {
    var j, targets := s.nextJob, Targets(WorldOf(s, memory), r, approval);
    var opening := [OpenResume(r, approval, order)] + if approval.Some? then [] else [ListPending(j)];
    var s1 := After(cfg, s, opening);
    LoneOpening(cfg, s, r, approval, order, memory);
    AfterConcat(cfg, s, opening, Decisions(j, |targets|));
    LoneDecisions(cfg, s1, j, targets, order, |targets|);
    assert targets[|targets|..] == [] && targets[..|targets|] == targets;
  }

  lemma {:induction false} LoneOpening(cfg: Config, s: System, r: RunId, approval: Option<nat>, order: Order, memory: MemoryRows)
    requires CanOpen(s, r, approval) && s.nextJob !in s.jobs
    ensures var job := Opening(s.runs[r], r, approval, order, s.nextJob);
            After(cfg, s, [OpenResume(r, approval, order)] + if approval.Some? then [] else [ListPending(s.nextJob)]) ==
              s.(jobs := s.jobs[s.nextJob := job.(phase := Deciding(Targets(WorldOf(s, memory), r, approval)))], nextJob := s.nextJob + 1)
  {
    After1(cfg, s, OpenResume(r, approval, order));
    if approval.Some? {
      assert [OpenResume(r, approval, order)] + [] == [OpenResume(r, approval, order)];
    } else {
      assert [OpenResume(r, approval, order)] + [ListPending(s.nextJob)] == [OpenResume(r, approval, order), ListPending(s.nextJob)];
      After2(cfg, s, OpenResume(r, approval, order), ListPending(s.nextJob));
    }
  }

  /** All labels of a lone resume whose result is known. */
  function Resumption(r: RunId, approval: Option<nat>, order: Order, j: JobId, targets: seq<nat>, tools: Dispatcher,
                      result: Option<RunState>, from: nat): seq<Label>
    requires result.Some? ==> from <= |result.value.trace|
  {
    Deliberation(r, approval, order, j, targets) + [Execute(j, tools)] + if result.Some? then Persists(j, result.value, from) else []
  }

  lemma ExecuteDecided(cfg: Config, s: System, r: RunId, approval: Option<nat>, order: Order, targets: seq<nat>, tools: Dispatcher)
    requires r in s.runs && s.runs[r].row.checkpoint.Some?
    ensures var decided := Decided(s, r, approval, order, targets);
            ExecuteStep(cfg, decided, s.nextJob, tools) ==
              match ResumedState(cfg, s.runs[r].row, order, tools)
              case None => Finish(decided, s.nextJob)
              case Some(final) => WithJob(decided, s.nextJob, Persisting(final, s.runs[r].row.checkpoint.value.persistedLen))
  {
  }

  lemma DecidedWorld(s: System, r: RunId, approval: Option<nat>, order: Order, targets: seq<nat>, memory: MemoryRows)
    requires r in s.runs
    ensures WorldOf(Decided(s, r, approval, order, targets), memory) ==
              WorldOf(s, memory).(approvals := DecideAll(s.approvals, targets, order))
    ensures WorldOf(Finish(Decided(s, r, approval, order, targets), s.nextJob), memory) ==
              WorldOf(s, memory).(approvals := DecideAll(s.approvals, targets, order))
  {
  }

  /** A resume that nobody disturbs leaves the tables as Resumed says. */
  lemma {:induction false} LoneResume(cfg: Config, s: System, r: RunId, approval: Option<nat>, order: Order, tools: Dispatcher,
                                     memory: MemoryRows, stamp: Stamp)
    requires CanOpen(s, r, approval) && s.nextJob !in s.jobs
    requires var result := ResumedState(cfg, s.runs[r].row, order, tools);
             result.Some? ==> s.runs[r].row.checkpoint.value.persistedLen <= |result.value.trace|
    ensures var w := Resumed(cfg, WorldOf(s, memory), r, approval, order, tools, stamp);
            var result := ResumedState(cfg, s.runs[r].row, order, tools);
            var targets := Targets(WorldOf(s, memory), r, approval);
            var s' := After(cfg, s, Resumption(r, approval, order, s.nextJob, targets, tools, result,
                                               s.runs[r].row.checkpoint.value.persistedLen));
            WorldOf(s', w.memory) == w && s'.jobs == s.jobs
  {
    var targets := Targets(WorldOf(s, memory), r, approval);
    LoneDeliberation(cfg, s, r, approval, order, memory);
    AfterSnoc(cfg, s, Deliberation(r, approval, order, s.nextJob, targets), Execute(s.nextJob, tools));
    ExecuteDecided(cfg, s, r, approval, order, targets, tools);
    DecidedWorld(s, r, approval, order, targets, memory);
    FinishResume(cfg, s, r, approval, order, targets, tools, memory, stamp,
                 Deliberation(r, approval, order, s.nextJob, targets) + [Execute(s.nextJob, tools)]);
    assert Resumed(cfg, WorldOf(s, memory), r, approval, order, tools, stamp) ==
      ResumedTo(s, r, approval, order, targets, ResumedState(cfg, s.runs[r].row, order, tools), memory, stamp);
  }

  /** The tables after a resume with this result. */
  ghost function ResumedTo(s: System, r: RunId, approval: Option<nat>, order: Order, targets: seq<nat>, result: Option<RunState>,
                           memory: MemoryRows, stamp: Stamp): World
    requires r in s.runs
  {
    var decided := WorldOf(s, memory).(approvals := DecideAll(s.approvals, targets, order));
    match result
    case None => decided
    case Some(final) => Remember(Persist(decided, r, s.runs[r].row, final), final, stamp)
  }

  lemma {:induction false} FinishResume(cfg: Config, s: System, r: RunId, approval: Option<nat>, order: Order, targets: seq<nat>,
                                       tools: Dispatcher, memory: MemoryRows, stamp: Stamp, front: seq<Label>)
    requires r in s.runs && s.runs[r].row.checkpoint.Some? && s.nextJob !in s.jobs
    requires var result := ResumedState(cfg, s.runs[r].row, order, tools);
             result.Some? ==> s.runs[r].row.checkpoint.value.persistedLen <= |result.value.trace|
    requires After(cfg, s, front) == ExecuteStep(cfg, Decided(s, r, approval, order, targets), s.nextJob, tools)
    ensures var result := ResumedState(cfg, s.runs[r].row, order, tools);
            var w := ResumedTo(s, r, approval, order, targets, result, memory, stamp);
            var from := s.runs[r].row.checkpoint.value.persistedLen;
            var s' := After(cfg, s, front + if result.Some? then Persists(s.nextJob, result.value, from) else []);
            WorldOf(s', w.memory) == w && s'.jobs == s.jobs
  {
    var j, decided := s.nextJob, Decided(s, r, approval, order, targets);
    ExecuteDecided(cfg, s, r, approval, order, targets, tools);
    DecidedWorld(s, r, approval, order, targets, memory);
    match ResumedState(cfg, s.runs[r].row, order, tools)
    case None =>
      assert front + [] == front;
      assert Finish(decided, j).jobs == s.jobs;
    case Some(final) =>
      AfterConcat(cfg, s, front, Persists(j, final, s.runs[r].row.checkpoint.value.persistedLen));
      PersistedResume(cfg, s, decided, r, j, final, memory, stamp);
  }

  lemma {:induction false} PersistedResume(cfg: Config, s: System, decided: System, r: RunId, j: JobId, final: RunState,
                                          memory: MemoryRows, stamp: Stamp)
    requires r in decided.runs && j !in s.jobs && decided.runs[r].row.checkpoint.Some?
    requires j in decided.jobs && decided.jobs[j].run == r && decided.jobs == s.jobs[j := decided.jobs[j]]
    requires decided.runs[r].row.checkpoint.value.persistedLen <= |final.trace|
    ensures var from := decided.runs[r].row.checkpoint.value.persistedLen;
            var s' := After(cfg, WithJob(decided, j, Persisting(final, from)), Persists(j, final, from));
            var w := Remember(Persist(WorldOf(decided, memory), r, decided.runs[r].row, final), final, stamp);
            WorldOf(s', w.memory) == w && s'.jobs == s.jobs
  {
    var from := decided.runs[r].row.checkpoint.value.persistedLen;
    var s1 := WithJob(decided, j, Persisting(final, from));
    LonePersist(cfg, s1, j, final, decided.runs[r].row, memory);
    Remembers(Persist(WorldOf(decided, memory), r, decided.runs[r].row, final), final, stamp);
    assert WorldOf(s1, memory) == WorldOf(decided, memory);
  }
}
