/** The decision that a checkpoint notes is the decision that was taken: what
    a resume through the API saves names the decision and the reason it was
    asked for, and in clean histories those of its run's approval. */
module NotedDecisions {
  import opened Prelude
  import opened Nodes
  import opened Protocol
  import opened ProtocolSafety
  import opened CleanRuns
  import opened ApprovedActions

  /** The outcome of what a resume is about to save, or has saved. */
  ghost predicate Notes(order: Order, final: RunState) {
    order.viaApi ==> final.outcome.decision == Some((order.decision, order.reason))
  }

  ghost predicate JobNotes(job: Job) {
    job.order.Some? && (job.phase.Persisting? || job.phase.Saved? || job.phase.Approving?) ==> Notes(job.order.value, job.phase.final)
  }

  ghost predicate NotedInv(s: System) {
    forall j :: j in s.jobs ==> JobNotes(s.jobs[j])
  }

  lemma ResultNotes(cfg: Config, job: Job, tools: Dispatcher)
    requires job.order.Some? && GraphResult(cfg, job, tools).Some?
    ensures Notes(job.order.value, GraphResult(cfg, job, tools).value)
  {
  }

  lemma {:induction false} ExecuteNotes(cfg: Config, s: System, j: JobId, tools: Dispatcher)
    requires NotedInv(s)
    ensures NotedInv(ExecuteStep(cfg, s, j, tools))
  {
    if j in s.jobs && s.jobs[j].order.Some? && GraphResult(cfg, s.jobs[j], tools).Some? {
      ResultNotes(cfg, s.jobs[j], tools);
    }
  }

  /** Any other step keeps what a job is about to save. */
  lemma {:induction false} OtherNotes(cfg: Config, s: System, l: Label)
    requires NotedInv(s) && !l.Execute?
    ensures NotedInv(Step(cfg, s, l))
  {
    var s' := Step(cfg, s, l);
    forall k | k in s'.jobs ensures JobNotes(s'.jobs[k]) {
      assert k in s.jobs ==> JobNotes(s.jobs[k]);
    }
  }

  lemma {:induction false} NotedAlways(cfg: Config, labels: seq<Label>)
    ensures NotedInv(History(cfg, labels))
    decreases |labels|
  {
    if labels != [] {
      var n := |labels| - 1;
      NotedAlways(cfg, labels[..n]);
      match labels[n]
      case Execute(j, tools) => ExecuteNotes(cfg, History(cfg, labels[..n]), j, tools);
      case _ => OtherNotes(cfg, History(cfg, labels[..n]), labels[n]);
    }
  }

  /** In every history clean for the approvals: what a resume through the API
      has saved notes the decision of the approval it was opened to answer, as
      it stands in the table. */
  lemma {:induction false} SavedDecisionWasTaken(cfg: Config, labels: seq<Label>, j: JobId)
    requires CleanHistory(cfg, OneApproval, labels) && j in History(cfg, labels).jobs
    requires var job := History(cfg, labels).jobs[j];
             && job.phase.Saved? && job.order.Some? && job.order.value.viaApi
             && BaseNeedsApproval(job)
    ensures var s, asked := History(cfg, labels), Asked(cfg, labels);
            var job := s.jobs[j];
            && job.run in s.runs && s.runs[job.run].row.checkpoint.Some?
            && j in asked && asked[j] < |s.approvals|
            && var a := s.approvals[asked[j]];
               var noted := s.runs[job.run].row.checkpoint.value.state.outcome.decision;
               a.run == job.run && noted.Some? && a.decision == Some(noted.value.0) && noted.value.1 == job.order.value.reason
  {
    CleanAlways(cfg, OneApproval, labels);
    QueueAlways(cfg, labels);
    AskedAlways(cfg, labels);
    NotedAlways(cfg, labels);
    var s := History(cfg, labels);
    var job := s.jobs[j];
    assert WorkInv(OneApproval, s.approvals, job, s.runs[job.run]) && JobSettled(job);
    assert JobAsked(s.approvals, Asked(cfg, labels), j, job) && JobNotes(job);
  }
}
