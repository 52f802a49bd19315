/** What the executor's methods leave in the tables, column by column. */
module TableEffects {
  import opened Prelude
  import opened Nodes
  import opened RunGraph
  import opened GraphAnswers
  import opened ApprovalPack
  import opened Tables
  import opened Protocol
  import opened Executor
  import opened RunIdentity
  import opened RunOutcomes
  import Memory

  // ----------------------------------------------------------------- columns

  /** A step row shows its trace entry. */
  ghost predicate ShowsEntry(row: StepRow, e: TraceEntry) {
    && row.toolName == e.toolName && row.tier == e.tier && row.output == e
    && row.ok == e.success && row.latencyMs == e.latencyMs && row.cost == e.cost
  }

  /** The row shows the state as its checkpoint, with all of its trace
      persisted, and nobody holds it. */
  ghost predicate ShowsState(row: Row, s: RunState) {
    && row.checkpoint.Some? && row.checkpoint.value.state == s && row.checkpoint.value.persistedLen == |s.trace|
    && row.status == s.status && row.totalCost == s.cost && row.stepCount == s.stepCount
    && row.worker == None && row.lease == None
  }

  ghost predicate SameOrigin(row: Row, row': Row) {
    row'.workflowKey == row.workflowKey && row'.vertical == row.vertical && row'.createdAt == row.createdAt
  }

  /** Only this run's row and step rows may differ. */
  ghost predicate OthersKept(w: World, after: World, id: RunId)
    requires id in w.rows && id in w.steps
  {
    && after.rows.Keys == w.rows.Keys && after.steps.Keys == w.steps.Keys
    && (forall r :: r in w.rows && r != id ==> after.rows[r] == w.rows[r])
    && (forall r :: r in w.steps && r != id ==> after.steps[r] == w.steps[r])
    && SameOrigin(w.rows[id], after.rows[id])
  }

  /** The step rows the run had, followed by one per entry from `from` on. */
  ghost predicate StepsAdded(before: seq<StepRow>, after: seq<StepRow>, trace: seq<TraceEntry>, from: nat) {
    && before <= after
    && |after| == |before| + (if from <= |trace| then |trace| - from else 0)
    && forall i :: |before| <= i < |after| ==> ShowsEntry(after[i], trace[from + i - |before|])
  }

  /** An undecided approval was added exactly if the state waits on a tool with
      a name and the run had none. */
  ghost predicate Requested(before: seq<Approval>, after: seq<Approval>, id: RunId, s: RunState) {
    if s.status == ApprovalRequired && s.pendingTool.Some? && s.pendingTool.value != ""
       && forall i :: 0 <= i < |before| && before[i].run == id ==> before[i].decision.Some?
    then
      && |after| == |before| + 1 && before <= after
      && var a := after[|before|];
         && a.run == id && a.decision == None && Some(a.action) == s.pendingTool
         && a.role == (if s.approvalRole == None || s.approvalRole == Some("") then "operator" else s.approvalRole.value)
         && a.pack == BuildPack(id, a.action, a.role, s)
    else after == before
  }

  lemma NonePending(approvals: seq<Approval>, id: RunId)
    ensures PendingFor(approvals, id) == [] <==>
              forall i :: 0 <= i < |approvals| && approvals[i].run == id ==> approvals[i].decision.Some?
  {
    PendingForMeaning(approvals, id);
    if PendingFor(approvals, id) == [] {
      forall i | 0 <= i < |approvals| && approvals[i].run == id ensures approvals[i].decision.Some? {
        assert i !in PendingFor(approvals, id);
      }
    } else {
      assert PendingFor(approvals, id)[0] in PendingFor(approvals, id);
    }
  }

  lemma NewStepsAdded(before: seq<StepRow>, trace: seq<TraceEntry>, from: nat)
    ensures StepsAdded(before, before + NewSteps(trace, from), trace, from)
  {
  }

  lemma PersistTells(w: World, id: RunId, run: Row, s: RunState)
    requires id in w.rows && id in w.steps
    ensures var after := Persist(w, id, run, s);
            && OthersKept(w, after, id) && ShowsState(after.rows[id], s) && after.memory == w.memory
            && StepsAdded(w.steps[id], after.steps[id], s.trace, PersistedLen(run.checkpoint))
            && Requested(w.approvals, after.approvals, id, s)
  {
    NonePending(w.approvals, id);
    NewStepsAdded(w.steps[id], s.trace, PersistedLen(run.checkpoint));
  }

  /** What a run leaves in memory: an item about it when it completed or waits,
      unless there is one under the same key; nothing otherwise. */
  ghost predicate Remembered(before: MemoryRows, after: MemoryRows, s: RunState, stamp: Stamp) {
    if s.status == Completed || s.status == ApprovalRequired then
      && before.Keys <= after.Keys && (forall key :: key in before ==> after[key] == before[key])
      && (forall key :: key in after && key !in before ==>
            && key.memoryType == Memory.Episodic
            && key.namespace == (if s.vertical == "" then "general" else s.vertical) + ".run_outcomes"
            && after[key].trust == 0.9 && after[key].decay == 1.0 && after[key].verified && after[key].scope == Memory.Team
            && after[key].words == stamp.words && after[key].createdAt == after[key].lastAccessed == stamp.now
            && ReportsOn(after[key].content, s))
      && exists key, steps :: key in after && Number(steps) == s.stepCount && key.entityKey ==
           (if s.runId == "" then "unknown-run" else s.runId) + ":" +
           (if s.status == Completed then "completed" else "approval_required") + ":" + steps
    else after == before
  }

  /** The item's content is about the state. */
  ghost predicate ReportsOn(report: Report, s: RunState) {
    && report.runId == (if s.runId == "" then "unknown-run" else s.runId)
    && report.skillName == (if s.skillName == "" then "unknown-skill" else s.skillName)
    && report.vertical == (if s.vertical == "" then "general" else s.vertical)
    && report.status == s.status && report.citations == s.citations && report.pendingTool == s.pendingTool
    && report.approvalRequired == s.pendingApproval && report.approvalRole == s.approvalRole
    && |report.toolNames| == |s.trace| && (forall i :: 0 <= i < |s.trace| ==> report.toolNames[i] == s.trace[i].toolName)
    && report.stepCount == s.stepCount && report.cost == s.cost && report.outcome == s.outcome && report.error == s.error
  }

  lemma RememberTells(w: World, s: RunState, stamp: Stamp)
    ensures var after := Remember(w, s, stamp);
            && after.rows == w.rows && after.steps == w.steps && after.approvals == w.approvals
            && Remembered(w.memory, after.memory, s, stamp)
  {
    Remembers(w, s, stamp);
    if Writable(s.status) {
      DecimalMeans(s.stepCount);
      assert OutcomeKey(s) in Remember(w, s, stamp).memory && Number(Decimal(s.stepCount)) == s.stepCount;
    }
  }

  // --------------------------------------------------------------- executions

  /** Executing a claimed run: if there is no plan the row is marked failed, and
      nothing else happens; otherwise the row shows a state about this run, of
      the skill and in the vertical that its record names. */
  lemma {:induction false} ExecutedTells(cfg: Config, w: World, id: RunId, run: Row, tools: Dispatcher, stamp: Stamp)
    requires id in w.rows && id in w.steps
    ensures var result := Invoke(cfg, RequestOf(id, run), tools);
            var after := Executed(w, id, run, result, stamp);
            && OthersKept(w, after, id)
            && match result
               case None =>
                 after.rows[id] == w.rows[id].(status := Failed) && after.steps == w.steps
                 && after.approvals == w.approvals && after.memory == w.memory
               case Some(s) =>
                 && About(cfg, id, run, s) && ShowsState(after.rows[id], s)
                 && AllTell(s.trace, tools, 0, s.vertical, NO_OUTCOME)
                 && StepsAdded(w.steps[id], after.steps[id], s.trace, PersistedLen(run.checkpoint))
                 && Requested(w.approvals, after.approvals, id, s) && Remembered(w.memory, after.memory, s, stamp)
  {
    match Invoke(cfg, RequestOf(id, run), tools)
    case None =>
    case Some(s) =>
      RequestAsks(id, run);
      InvokeAbout(cfg, id, run, RequestOf(id, run), tools);
      InvokeTells(cfg, RequestOf(id, run), tools);
      PersistTells(w, id, run, s);
      RememberTells(Persist(w, id, run, s), s, stamp);
  }

  // ------------------------------------------------------------------ resumes

  /** Exactly the approvals that a resume is asked to decide are decided. */
  ghost predicate Decided(before: seq<Approval>, after: seq<Approval>, id: RunId, approval: Option<nat>, order: Order) {
    && |after| == |before|
    && forall i :: 0 <= i < |before| ==>
         after[i] == if approval == Some(i) || (approval == None && before[i].run == id && before[i].decision == None)
                     then before[i].(decision := Some(order.decision), reason := order.reason) else before[i]
  }

  lemma {:induction false} DecideAllTells(approvals: seq<Approval>, targets: seq<nat>, order: Order)
    requires forall t :: t in targets ==> t < |approvals|
    ensures var after := DecideAll(approvals, targets, order);
            && |after| == |approvals|
            && forall i :: 0 <= i < |approvals| ==>
                 after[i] == if i in targets then approvals[i].(decision := Some(order.decision), reason := order.reason)
                             else approvals[i]
    decreases |targets|
  {
    if targets != [] {
      var n := |targets| - 1;
      assert forall t :: t in targets <==> t in targets[..n] || t == targets[n];
      DecideAllTells(approvals, targets[..n], order);
    }
  }

  lemma TargetsDecided(w: World, id: RunId, approval: Option<nat>, order: Order)
    requires approval.Some? ==> approval.value < |w.approvals|
    ensures Decided(w.approvals, DecideAll(w.approvals, Targets(w, id, approval), order), id, approval, order)
  {
    PendingForMeaning(w.approvals, id);
    DecideAllTells(w.approvals, Targets(w, id, approval), order);
  }

  /** The saved state is the graph's; through the API it notes the decision and
      its reason besides. */
  ghost predicate Noted(final: RunState, saved: RunState, order: Order) {
    && saved.(outcome := final.outcome) == final
    && saved.outcome.body == final.outcome.body
    && saved.outcome.decision == if order.viaApi then Some((order.decision, order.reason)) else final.outcome.decision
  }

  /** Resuming a run: the approvals asked for are decided as ordered; the row
      shows what the graph made of the checkpoint with that decision, and notes
      the decision if it came through the API. */
  lemma {:induction false} ResumedTells(cfg: Config, w: World, id: RunId, approval: Option<nat>, order: Order, tools: Dispatcher,
                                       stamp: Stamp)
    requires id in w.rows && id in w.steps && w.rows[id].checkpoint.Some?
    requires approval.Some? ==> approval.value < |w.approvals|
    ensures var base := w.rows[id].checkpoint.value;
            var after := Resumed(cfg, w, id, approval, order, tools, stamp);
            && OthersKept(w, after, id)
            && exists decided: seq<Approval> ::
                 && Decided(w.approvals, decided, id, approval, order)
                 && match Resume(cfg.registry, base.state, order.decision, tools)
                    case None => after == w.(approvals := decided)
                    case Some(final) =>
                      && SameRun(base.state, final)
                      && (base.state.stepCount == |base.state.trace| ==>
                            AllTell(final.trace, tools, base.state.stepCount, base.state.vertical, base.state.outcome))
                      && after.rows[id].checkpoint.Some?
                      && var saved := after.rows[id].checkpoint.value.state;
                         && Noted(final, saved, order) && ShowsState(after.rows[id], saved)
                         && StepsAdded(w.steps[id], after.steps[id], saved.trace, base.persistedLen)
                         && Requested(decided, after.approvals, id, saved) && Remembered(w.memory, after.memory, saved, stamp)
  {
    var base := w.rows[id].checkpoint.value;
    var decided := w.(approvals := DecideAll(w.approvals, Targets(w, id, approval), order));
    TargetsDecided(w, id, approval, order);
    match Resume(cfg.registry, base.state, order.decision, tools)
    case None =>
    case Some(final) =>
      ResumeKeepsRun(cfg.registry, base.state, order.decision, tools);
      if base.state.stepCount == |base.state.trace| {
        ResumeTells(cfg.registry, base.state, order.decision, tools);
      }
      var noted := Annotate(final, order);
      PersistTells(decided, id, w.rows[id], noted);
      RememberTells(Persist(decided, id, w.rows[id], noted), noted, stamp);
  }
}
