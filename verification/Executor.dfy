/** The executor as it runs: claim, execute, persist, remember; and resume.
    Each method is tied to what it does to the tables taken together. */
module Executor {
  import opened Prelude
  import opened Nodes
  import opened RunGraph
  import opened Tables
  import opened Protocol
  import opened ProtocolSafety
  import Memory
  import opened RunOutcomes

  type MemoryRows = map<Memory.TupleKey, Memory.Item<Report>>

  /** The contents of all tables. */
  datatype World = World(rows: map<RunId, Row>, steps: map<RunId, seq<StepRow>>, approvals: seq<Approval>, memory: MemoryRows)

  /** The words and the time of an outcome item. */
  datatype Stamp = Stamp(words: set<string>, now: real)

  datatype Refusal = NotFound | NotPending | AlreadyDecided | NoCheckpoint | GraphFailed

  // ---------------------------------------------- the effect on the tables

  function NewSteps(trace: seq<TraceEntry>, from: nat): seq<StepRow> {
    if from <= |trace| then StepsOf(trace[from..]) else []
  }

  function WithRequest(approvals: seq<Approval>, id: RunId, s: RunState): seq<Approval> {
    if NeedsApproval(s) && PendingFor(approvals, id) == [] then approvals + [RequestFor(id, s)] else approvals
  }

  /** Append the new steps, save, perhaps request an approval. `run` is the
      record the job read, not the row as it is now. */
  function Persist(w: World, id: RunId, run: Row, s: RunState): World
    requires id in w.rows && id in w.steps
  {
    w.(steps := w.steps[id := w.steps[id] + NewSteps(s.trace, PersistedLen(run.checkpoint))],
       rows := w.rows[id := SaveRow(w.rows[id], s, |s.trace|)],
       approvals := WithRequest(w.approvals, id, s))
  }

  /** An append-only refusal is swallowed. */
  function Remember(w: World, s: RunState, stamp: Stamp): World {
    match RunOutcome(s, stamp.words, stamp.now)
    case None => w
    case Some(item) => w.(memory := Memory.PutByTuple(w.memory, item))
  }

  function Released(w: World, now: Time): World {
    w.(rows := ReleaseAll(w.rows, now))
  }

  function ClaimedBy(w: World, id: RunId, worker: WorkerId, until: Time): World
    requires id in w.rows
  {
    w.(rows := w.rows[id := ClaimRow(w.rows[id], worker, until)])
  }

  function Renewed(w: World, id: RunId, worker: WorkerId, until: Time): World
    requires id in w.rows
  {
    w.(rows := w.rows[id := RenewRow(w.rows[id], worker, until)])
  }

  /** Renewing at once what was just claimed changes nothing. */
  lemma RenewedClaim(w: World, id: RunId, worker: WorkerId, until: Time)
    requires id in w.rows
    ensures Renewed(ClaimedBy(w, id, worker, until), id, worker, until) == ClaimedBy(w, id, worker, until)
  {
    var rows := ClaimedBy(w, id, worker, until).rows;
    assert rows[id := RenewRow(rows[id], worker, until)] == rows;
  }

  /** `result` is what the graph made of the run: None if it raised. */
  function Executed(w: World, id: RunId, run: Row, result: Option<RunState>, stamp: Stamp): World
    requires id in w.rows && id in w.steps
  {
    match result
    case None => w.(rows := w.rows[id := FailRow(w.rows[id])])
    case Some(final) => Remember(Persist(w, id, run, final), final, stamp)
  }

  function DecideAll(approvals: seq<Approval>, targets: seq<nat>, order: Order): seq<Approval> {
    if targets == [] then approvals
    else DecideAt(DecideAll(approvals, targets[..|targets| - 1], order), targets[|targets| - 1], order.decision, order.reason)
  }

  /** Through an approval only that one is decided, else every open one. */
  function Targets(w: World, id: RunId, approval: Option<nat>): seq<nat> {
    if approval.Some? then [approval.value] else PendingFor(w.approvals, id)
  }

  function Resumed(cfg: Config, w: World, id: RunId, approval: Option<nat>, order: Order, tools: Dispatcher, stamp: Stamp): World
    requires id in w.rows && id in w.steps && w.rows[id].checkpoint.Some?
  {
    var decided := w.(approvals := DecideAll(w.approvals, Targets(w, id, approval), order));
    match Resume(cfg.registry, w.rows[id].checkpoint.value.state, order.decision, tools)
    case None => decided
    case Some(final) =>
      var noted := Annotate(final, order);
      Remember(Persist(decided, id, w.rows[id], noted), noted, stamp)
  }

  // ------------------------------------------- resuming what does not wait

  /** The run is at rest: its row shows its checkpoint, all of whose trace is
      persisted, and its outcome, if it has one, is remembered. */
  ghost predicate AtRest(w: World, id: RunId) {
    && id in w.rows && id in w.steps
    && w.rows[id].checkpoint.Some?
    && var saved := w.rows[id].checkpoint.value;
       && saved.persistedLen == |saved.state.trace|
       && w.rows[id].worker == None && w.rows[id].lease == None
       && w.rows[id].status == saved.state.status
       && w.rows[id].totalCost == saved.state.cost && w.rows[id].stepCount == saved.state.stepCount
       && (Writable(saved.state.status) ==> OutcomeKey(saved.state) in w.memory)
  }

  function OutcomeKey(s: RunState): Memory.TupleKey {
    Memory.TupleKey(OrDefault(s.vertical, "general") + ".run_outcomes",
                    EntityKey(OrDefault(s.runId, "unknown-run"), s.status, s.stepCount), Memory.Episodic)
  }

  /** Equal but for the decision recorded in the outcome. */
  ghost predicate SameButDecision(a: Row, b: Row) {
    && a.checkpoint.Some? && b.checkpoint.Some?
    && var s := a.checkpoint.value.state;
       b == a.(checkpoint := Some(Checkpoint(
         s.(outcome := s.outcome.(decision := b.checkpoint.value.state.outcome.decision)),
         a.checkpoint.value.persistedLen)))
  }

  /** Resuming left the run as it was, but for the decision and approvals. */
  ghost predicate Unmoved(w: World, after: World, id: RunId)
    requires id in w.rows
  {
    && id in after.rows && SameButDecision(w.rows[id], after.rows[id])
    && after.rows == w.rows[id := after.rows[id]]
    && after.steps == w.steps && after.memory == w.memory
  }

  lemma UnmovedTwice(w: World, v: World, u: World, id: RunId)
    requires id in w.rows && Unmoved(w, v, id) && Unmoved(v, u, id)
    ensures Unmoved(w, u, id)
  {
  }

  lemma RememberedStays(w: World, s: RunState, stamp: Stamp)
    requires Writable(s.status) ==> OutcomeKey(s) in w.memory
    ensures Remember(w, s, stamp) == w
  {
    if Writable(s.status) {
      var item := RunOutcome(s, stamp.words, stamp.now).value;
      assert Memory.TupleOf(item) == OutcomeKey(s);
    }
  }

  lemma Remembers(w: World, s: RunState, stamp: Stamp)
    ensures Writable(s.status) ==> OutcomeKey(s) in Remember(w, s, stamp).memory
    ensures Remember(w, s, stamp) == w.(memory := Remember(w, s, stamp).memory)
  {
    if Writable(s.status) {
      assert Memory.TupleOf(RunOutcome(s, stamp.words, stamp.now).value) == OutcomeKey(s);
    }
  }

  /** Executing a run, and resuming one, leaves it at rest, with the steps it
      had followed by what is new in its trace. */
  lemma ExecutedRests(cfg: Config, w: World, id: RunId, run: Row, tools: Dispatcher, stamp: Stamp)
    requires id in w.rows && id in w.steps && run.checkpoint == None
    requires Invoke(cfg, RequestOf(id, run), tools).Some?
    ensures var after := Executed(w, id, run, Invoke(cfg, RequestOf(id, run), tools), stamp);
            && AtRest(after, id)
            && after.steps == w.steps[id := w.steps[id] + StepsOf(after.rows[id].checkpoint.value.state.trace)]
  {
    var final := Invoke(cfg, RequestOf(id, run), tools).value;
    assert final.trace[0..] == final.trace;
    Remembers(Persist(w, id, run, final), final, stamp);
  }

  lemma {:induction false} ResumedRests(cfg: Config, w: World, id: RunId, approval: Option<nat>, order: Order,
                                       tools: Dispatcher, stamp: Stamp)
    requires AtRest(w, id) && Resume(cfg.registry, w.rows[id].checkpoint.value.state, order.decision, tools).Some?
    requires w.steps[id] == StepsOf(w.rows[id].checkpoint.value.state.trace)
    ensures var after := Resumed(cfg, w, id, approval, order, tools, stamp);
            AtRest(after, id) && after.steps[id] == StepsOf(after.rows[id].checkpoint.value.state.trace)
  {
    var before := w.rows[id].checkpoint.value.state;
    var noted := Annotate(Resume(cfg.registry, before, order.decision, tools).value, order);
    var decided := w.(approvals := DecideAll(w.approvals, Targets(w, id, approval), order));
    assert before.trace <= noted.trace by { ResumeExtends(cfg, before, order.decision, tools); }
    assert StepsOf(before.trace) + StepsOf(noted.trace[|before.trace|..]) == StepsOf(noted.trace);
    Remembers(Persist(decided, id, w.rows[id], noted), noted, stamp);
  }

  /** Resuming a run that does not wait, with either decision, changes no
      status, trace, cost, step row, other row or remembered outcome; only the
      decision noted in its outcome and its open approvals may change. */
  lemma ResumeIsIdempotent(cfg: Config, w: World, id: RunId, approval: Option<nat>, order: Order, tools: Dispatcher,
                           stamp: Stamp)
    requires AtRest(w, id) && w.rows[id].status != ApprovalRequired
    ensures var after := Resumed(cfg, w, id, approval, order, tools, stamp);
            AtRest(after, id) && Unmoved(w, after, id)
  {
    var saved := w.rows[id].checkpoint.value;
    var noted := Annotate(saved.state, order);
    var decided := w.(approvals := DecideAll(w.approvals, Targets(w, id, approval), order));
    assert NewSteps(noted.trace, saved.persistedLen) == [];
    assert w.steps[id] + [] == w.steps[id];
    assert w.steps[id := w.steps[id]] == w.steps;
    RememberedStays(Persist(decided, id, w.rows[id], noted), noted, stamp);
  }

  datatype Attempt = Attempt(approval: Option<nat>, order: Order, tools: Dispatcher, stamp: Stamp)

  function ResumedOften(cfg: Config, w: World, id: RunId, attempts: seq<Attempt>): World {
    if attempts == [] then w
    else
      var before := ResumedOften(cfg, w, id, attempts[..|attempts| - 1]);
      var a := attempts[|attempts| - 1];
      if id in before.rows && id in before.steps && before.rows[id].checkpoint.Some? then
        Resumed(cfg, before, id, a.approval, a.order, a.tools, a.stamp)
      else before
  }

  lemma {:induction false} ResumingOftenIsIdempotent(cfg: Config, w: World, id: RunId, attempts: seq<Attempt>)
    requires AtRest(w, id) && w.rows[id].status != ApprovalRequired
    ensures var after := ResumedOften(cfg, w, id, attempts);
            AtRest(after, id) && Unmoved(w, after, id)
    decreases |attempts|
  {
    if attempts == [] {
      assert w.rows[id := w.rows[id]] == w.rows;
    } else {
      var n := |attempts| - 1;
      ResumingOftenIsIdempotent(cfg, w, id, attempts[..n]);
      var a := attempts[n];
      var before := ResumedOften(cfg, w, id, attempts[..n]);
      ResumeIsIdempotent(cfg, before, id, a.approval, a.order, a.tools, a.stamp);
      UnmovedTwice(w, before, ResumedOften(cfg, w, id, attempts), id);
    }
  }

  // ---------------------------------------------------------------- methods

  method AppendNewToolSteps(runs: RunRepository, id: RunId, s: RunState, persistedLen: nat) returns (length: nat)
    requires runs.Valid() && id in runs.rows
    modifies runs`steps
    ensures runs.Valid() && length == |s.trace|
    ensures runs.steps == old(runs.steps)[id := old(runs.steps)[id] + NewSteps(s.trace, persistedLen)]
  {
    ghost var was := runs.steps;
    assert was[id] + [] == was[id] && was[id := was[id]] == was;
    if persistedLen < |s.trace| {
      var i := persistedLen;
      assert StepsOf(s.trace[i..i]) == [];
      while i < |s.trace|
        invariant persistedLen <= i <= |s.trace| && runs.Valid()
        invariant runs.steps == was[id := was[id] + StepsOf(s.trace[persistedLen..i])]
      {
        assert StepsOf(s.trace[persistedLen..i]) + [StepOf(s.trace[i])] == StepsOf(s.trace[persistedLen..i + 1]);
        assert was[id] + StepsOf(s.trace[persistedLen..i]) + [StepOf(s.trace[i])] == was[id] + StepsOf(s.trace[persistedLen..i + 1]);
        runs.AppendStep(id, s.trace[i]);
        i := i + 1;
      }
      assert s.trace[persistedLen..i] == s.trace[persistedLen..];
    } else {
      assert NewSteps(s.trace, persistedLen) == [];
    }
    return |s.trace|;
  }

  method PersistRunResult(runs: RunRepository, approvals: ApprovalRepository, id: RunId, run: Row, s: RunState)
    requires runs.Valid() && id in runs.rows
    modifies runs`steps, runs`rows, approvals
    ensures runs.Valid()
    ensures runs.steps == old(runs.steps)[id := old(runs.steps)[id] + NewSteps(s.trace, PersistedLen(run.checkpoint))]
    ensures runs.rows == old(runs.rows)[id := SaveRow(old(runs.rows)[id], s, |s.trace|)]
    ensures approvals.approvals == WithRequest(old(approvals.approvals), id, s)
  {
    var persistedLen := AppendNewToolSteps(runs, id, s, PersistedLen(run.checkpoint));
    runs.SaveCheckpoint(id, s, persistedLen);
    if s.status == ApprovalRequired && s.pendingTool.Some? && s.pendingTool.value != "" {
      var existing := approvals.ListPendingForRun(id);
      if existing == [] {
        var _ := approvals.Create(RequestFor(id, s));
      }
    }
  }

  class RunExecutor {
    const runs: RunRepository
    const approvals: ApprovalRepository
    const memory: Memory.PostgresMemoryStore<Report>
    const cfg: Config
    const worker: WorkerId
    const leaseSeconds: int

    constructor (runs: RunRepository, approvals: ApprovalRepository, memory: Memory.PostgresMemoryStore<Report>,
                 cfg: Config, worker: WorkerId, leaseSeconds: int)
      ensures this.runs == runs && this.approvals == approvals && this.memory == memory
      ensures this.cfg == cfg && this.worker == worker && this.leaseSeconds == leaseSeconds
    {
      this.runs, this.approvals, this.memory := runs, approvals, memory;
      this.cfg, this.worker, this.leaseSeconds := cfg, worker, leaseSeconds;
    }

    ghost function Tables(): World
      reads runs, approvals, memory
    {
      World(runs.rows, runs.steps, approvals.approvals, memory.rows)
    }

    method WriteRunOutcome(s: RunState, stamp: Stamp)
      modifies memory
      ensures Tables() == Remember(old(Tables()), s, stamp)
    {
      var item := RunOutcome(s, stamp.words, stamp.now);
      if item.Some? {
        var _ := memory.Upsert(item.value, true);
      }
    }

    /** What happens once the lease is renewed. */
    method RunAndPersist(id: RunId, run: Row, tools: Dispatcher, stamp: Stamp) returns (ok: bool)
      requires runs.Valid() && id in runs.rows
      modifies runs`rows, runs`steps, approvals, memory
      ensures runs.Valid()
      ensures ok <==> Invoke(cfg, RequestOf(id, run), tools).Some?
      ensures Tables() == Executed(old(Tables()), id, run, Invoke(cfg, RequestOf(id, run), tools), stamp)
    {
      var final := InvokeGraph(cfg, RequestOf(id, run), tools);
      match final {
        case None =>
          runs.UpdateRunStatus(id, Failed, None, None);
          return false;
        case Some(s) =>
          PersistRunResult(runs, approvals, id, run, s);
          WriteRunOutcome(s, stamp);
          return true;
      }
    }

    /** `run` is the record as it was claimed, however long ago. */
    method ExecuteRun(id: RunId, run: Row, tools: Dispatcher, stamp: Stamp) returns (ok: bool)
      requires runs.Valid() && id in runs.rows
      modifies runs`rows, runs`steps, approvals, memory
      ensures runs.Valid()
      ensures ok <==> Invoke(cfg, RequestOf(id, run), tools).Some?
      ensures Tables() == Executed(Renewed(old(Tables()), id, worker, runs.now + leaseSeconds), id, run,
                                   Invoke(cfg, RequestOf(id, run), tools), stamp)
      ensures Renewed(old(Tables()), id, worker, runs.now + leaseSeconds) == old(Tables()) ==>
                Tables() == Executed(old(Tables()), id, run, Invoke(cfg, RequestOf(id, run), tools), stamp)
    {
      runs.RenewLease(id, worker, leaseSeconds);
      assert Tables() == Renewed(old(Tables()), id, worker, runs.now + leaseSeconds);
      ok := RunAndPersist(id, run, tools, stamp);
    }

    /** Release what is stale, then claim the oldest pending run. */
    method TakeOldest() returns (taken: Option<RunId>)
      requires runs.Valid()
      modifies runs`rows
      ensures runs.Valid()
      ensures var released := Released(old(Tables()), runs.now);
              match taken
              case None => Tables() == released && forall id :: id in released.rows ==> released.rows[id].status != Pending
              case Some(id) =>
                && OldestPending(released.rows, id)
                && Tables() == ClaimedBy(released, id, worker, runs.now + leaseSeconds)
    {
      var _ := runs.ReleaseStaleRunning();
      taken := runs.ClaimNextPending(worker, leaseSeconds);
    }

    method ProcessPending(tools: Dispatcher, stamp: Stamp) returns (processed: Option<RunId>)
      requires runs.Valid()
      modifies runs`rows, runs`steps, approvals, memory
      ensures runs.Valid()
      ensures var released := Released(old(Tables()), runs.now);
              match processed
              case None => Tables() == released && forall id :: id in released.rows ==> released.rows[id].status != Pending
              case Some(id) =>
                && OldestPending(released.rows, id) && id in released.steps
                && var claimed := ClaimedBy(released, id, worker, runs.now + leaseSeconds);
                   Tables() == Executed(claimed, id, claimed.rows[id], Invoke(cfg, RequestOf(id, claimed.rows[id]), tools), stamp)
    {
      processed := TakeOldest();
      if processed.Some? {
        RenewedClaim(Released(old(Tables()), runs.now), processed.value, worker, runs.now + leaseSeconds);
        assert Renewed(Tables(), processed.value, worker, runs.now + leaseSeconds) == Tables();
        var _ := ExecuteRun(processed.value, runs.rows[processed.value], tools, stamp);
      }
    }

    method ExecuteRunById(id: RunId, tools: Dispatcher, stamp: Stamp) returns (refused: Option<Refusal>)
      requires runs.Valid()
      modifies runs`rows, runs`steps, approvals, memory
      ensures runs.Valid()
      ensures refused == Some(NotFound) <==> id !in old(runs.rows)
      ensures refused == Some(NotPending) <==> id in old(runs.rows) && old(runs.rows)[id].status != Pending
      ensures refused == Some(NotFound) || refused == Some(NotPending) ==> Tables() == old(Tables())
      ensures id in old(runs.rows) && old(runs.rows)[id].status == Pending ==>
                var claimed := ClaimedBy(old(Tables()), id, worker, runs.now + leaseSeconds);
                var result := Invoke(cfg, RequestOf(id, claimed.rows[id]), tools);
                && (refused == None <==> result.Some?)
                && Tables() == Executed(claimed, id, claimed.rows[id], result, stamp)
    {
      var claimed := runs.ClaimRunById(id, worker, leaseSeconds);
      if !claimed {
        var existing := runs.GetRun(id);
        return if existing.None? then Some(NotFound) else Some(NotPending);
      }
      ghost var taken := ClaimedBy(old(Tables()), id, worker, runs.now + leaseSeconds);
      assert Tables() == taken;
      RenewedClaim(old(Tables()), id, worker, runs.now + leaseSeconds);
      assert Renewed(taken, id, worker, runs.now + leaseSeconds) == taken;
      var run := runs.rows[id];
      assert run == taken.rows[id];
      var ok := ExecuteRun(id, run, tools, stamp);
      assert Tables() == Executed(taken, id, run, Invoke(cfg, RequestOf(id, run), tools), stamp);
      return if ok then None else Some(GraphFailed);
    }

    /** What a resume does once the run's record is read. */
    method ResumeDecided(id: RunId, approval: Option<nat>, order: Order, tools: Dispatcher, stamp: Stamp) returns (ok: bool)
      requires runs.Valid() && id in runs.rows && runs.rows[id].checkpoint.Some?
      modifies runs`rows, runs`steps, approvals, memory
      ensures runs.Valid()
      ensures ok <==> Resume(cfg.registry, old(runs.rows)[id].checkpoint.value.state, order.decision, tools).Some?
      ensures Tables() == Resumed(cfg, old(Tables()), id, approval, order, tools, stamp)
    {
      var run := runs.rows[id];
      var targets: seq<nat>;
      if approval.Some? {
        targets := [approval.value];
      } else {
        targets := approvals.ListPendingForRun(id);
      }
      ghost var was := approvals.approvals;
      for i := 0 to |targets|
        invariant runs.rows == old(runs.rows) && runs.steps == old(runs.steps) && memory.rows == old(memory.rows)
        invariant approvals.approvals == DecideAll(was, targets[..i], order)
      {
        assert targets[..i + 1][..i] == targets[..i];
        approvals.Decide(targets[i], order.decision, order.reason);
      }
      assert targets[..|targets|] == targets;
      var final := ResumeGraph(cfg.registry, run.checkpoint.value.state, order.decision, tools);
      match final {
        case None =>
          return false;
        case Some(s) =>
          var noted := Annotate(s, order);
          PersistRunResult(runs, approvals, id, run, noted);
          WriteRunOutcome(noted, stamp);
          return true;
      }
    }

    /** By a worker, or by the API through the run. */
    method ResumeRun(id: RunId, order: Order, tools: Dispatcher, stamp: Stamp) returns (refused: Option<Refusal>)
      requires runs.Valid()
      modifies runs`rows, runs`steps, approvals, memory
      ensures runs.Valid()
      ensures refused == Some(NoCheckpoint) <==> id !in old(runs.rows) || old(runs.rows)[id].checkpoint == None
      ensures refused == Some(NoCheckpoint) ==> Tables() == old(Tables())
      ensures id in old(runs.rows) && old(runs.rows)[id].checkpoint.Some? ==>
                && (refused == None <==> Resume(cfg.registry, old(runs.rows)[id].checkpoint.value.state, order.decision, tools).Some?)
                && Tables() == Resumed(cfg, old(Tables()), id, None, order, tools, stamp)
    {
      var run := runs.GetRun(id);
      if run.None? || run.value.checkpoint.None? {
        return Some(NoCheckpoint);
      }
      var ok := ResumeDecided(id, None, order, tools, stamp);
      return if ok then None else Some(GraphFailed);
    }

    /** By the API through one approval: 404 for an unknown one, 409 for one
        that is decided or whose run has no checkpoint. */
    method DecideApproval(approval: nat, order: Order, tools: Dispatcher, stamp: Stamp) returns (refused: Option<Refusal>)
      requires runs.Valid()
      modifies runs`rows, runs`steps, approvals, memory
      ensures runs.Valid()
      ensures refused == Some(NotFound) <==> approval >= |old(approvals.approvals)|
      ensures refused == Some(AlreadyDecided) <==>
                approval < |old(approvals.approvals)| && old(approvals.approvals)[approval].decision.Some?
      ensures refused == Some(NoCheckpoint) <==>
                && approval < |old(approvals.approvals)| && old(approvals.approvals)[approval].decision == None
                && var id := old(approvals.approvals)[approval].run;
                   id !in old(runs.rows) || old(runs.rows)[id].checkpoint == None
      ensures refused in {Some(NotFound), Some(AlreadyDecided), Some(NoCheckpoint)} ==> Tables() == old(Tables())
      ensures refused !in {Some(NotFound), Some(AlreadyDecided), Some(NoCheckpoint)} ==>
                var id := old(approvals.approvals)[approval].run;
                && (refused == None <==> Resume(cfg.registry, old(runs.rows)[id].checkpoint.value.state, order.decision, tools).Some?)
                && Tables() == Resumed(cfg, old(Tables()), id, Some(approval), order, tools, stamp)
    {
      if approval >= |approvals.approvals| {
        return Some(NotFound);
      }
      if approvals.approvals[approval].decision.Some? {
        return Some(AlreadyDecided);
      }
      var id := approvals.approvals[approval].run;
      var run := runs.GetRun(id);
      if run.None? || run.value.checkpoint.None? {
        return Some(NoCheckpoint);
      }
      var ok := ResumeDecided(id, Some(approval), order, tools, stamp);
      return if ok then None else Some(GraphFailed);
    }
  }
}
