# Dark Factory OS: the governed run, verified

A Dafny 4.11 model of how Dark Factory OS runs an agent under governance, and
proofs of what it promises. `dafny verify dfyconfig.toml` checks everything.

A run starts from a skill manifest. The planner turns it into a list of tools;
the run graph executes read-only tools itself and stops with a proposal at any
financial or destructive one; a human approves or rejects; the graph goes on.
Workers claim runs from a table under leases, append each recorded step to
`run_steps`, save a checkpoint and ask for an approval. Around this sit the
action readiness pack, the memory of past runs, the scores of a run's
trajectory and the cost summary.

## How the model is built

| file | models |
|---|---|
| `Prelude.dfy` | options, "first occurrences, in order", filtering, subsequences |
| `RiskRegistry.dfy`, `SkillPlanner.dfy` | tool policies; from manifest to plan |
| `Nodes.dfy`, `RunGraph.dfy` | the graph's nodes and its two entry points, as functions and as the loops that compute them |
| `GraphRuns.dfy`, `GraphBudgets.dfy`, `StepBound.dfy`, `GraphAnswers.dfy` | whole runs: an invoke followed by any list of human decisions; what they follow, spend and record |
| `ApprovalPack.dfy` | the readiness pack, the printing and splitting of citations, what the API and the web card list |
| `Tables.dfy`, `Executor.dfy`, `TableEffects.dfy` | the repositories and the worker's and API's sequences of statements, as classes that update tables, and what they leave there, column by column |
| `Protocol.dfy` | the same statements as atomic steps of any number of workers, API resumes, crashes, exceptions and a clock |
| `ProtocolSafety.dfy`, `Lineage.dfy`, `Checkpoints.dfy`, `GatedExecutions.dfy` | what every interleaving keeps |
| `OpenApprovals.dfy`, `CleanRuns.dfy`, `RestingRuns.dfy`, `ApprovedActions.dfy` | what holds besides when no lease is taken from a job at work, resumes of a run are serialized and nothing crashes where a promise depends on it |
| `Dispatches.dfy` | when and how often gated tools are called, whether a row tells of it or not |
| `RunIdentity.dfy`, `RecordedAnswers.dfy`, `NotedDecisions.dfy` | what a checkpoint is about, what the step rows say of the tools, and which decision is noted |
| `Solo.dfy`, `SoloRuns.dfy` | an undisturbed job's atomic steps add up to the executor's methods |
| `Crashes.dfy` | which crashes and exceptions strand a run or leave rows that no checkpoint records |
| `Hazards.dfy` | what a worker can do after its lease has passed |
| `Memory.dfy`, `RunOutcomes.dfy` | the two memory stores and the items written for runs |
| `Rounding.dfy`, `Statistics.dfy`, `Metrics.dfy`, `Costs.dfy` | rounding, percentiles, trajectory scores, the cost summary |

A history of the protocol is any list of labels. A label that is not enabled
changes nothing, so a statement about `History(cfg, labels)` for all `labels`
is a statement about every interleaving. Each run carries three history
variables that the program does not store: who wrote each step row, which jobs
a checkpoint descends from, and the leases taken.

A clean history is clean for one of two promises about idle runs, that each
step is in the table once (`StepsOnce`) and that a run waiting on a tool with a
name has one open approval (`OneApproval`): leases are only released, and
resumes only opened, on runs nobody works on, and no job crashes or raises
while that promise depends on it (`Critical`). For the first that is while it
has written a row and not saved; for the second while it has saved a waiting
state and not requested its approval, or decided one and not saved. For the
second, an exception also must not mark a run failed that was saved as waiting.

The tools are a function from a tool name, its arguments and the step number
to an answer with a cost of at least zero; it may succeed or fail at will, and
nothing proved assumes success. Decisions are approved or rejected. Worker ids
are distinct. Costs and scores are exact reals.

## Main results

* **Nothing gated runs unapproved, whatever interleaves.** In every history a
  graph call runs a gated tool if and only if its job was opened to approve a
  run that waits on a tool with a name; no job calls twice
  (`DispatchedIffApproved`). Each financial or destructive execution in
  `run_steps` was written by such a job, no two by the same
  (`GatedRowsWereApproved`); there are no more such rows than calls, and no
  more calls than approving resumes (`RowsCallsApprovals`). In clean histories
  each row belongs to an approval that was decided as approved and names the
  executed tool (`GatedRowsRunApprovedActions`). Within one run each is
  directly preceded by its own proposal, and a rejection is final.
* **A run follows its plan.** Its trace is a prefix of the expanded plan, its
  cost and step count are those of its trace (`RunFollowsPlan`); in every
  history this holds of every checkpoint (`EveryCheckpointFollowsPlan`). After
  k approvals a run has met its budget or passed exactly k gates, and with none
  left its trace is the whole expansion (`ApprovedRunExpandsPlan`). No run and
  no checkpoint overshoots its budget by more than one step and one dispatch
  (`RunWithinBudget`, `EveryCheckpointWithinBudget`), and some run does take the
  extra step (`StepBoundIsMet`).
* **The tables tell what happened.** In every history a checkpoint is about its
  row's run, skill and vertical, follows that skill's plan, and its error is the
  reason (`EveryCheckpointIsAboutItsRun`); every step row holds the status,
  latency and cost that its tool answered in its author's one graph call
  (`RowsTell`). A plan lists the required tools in front of the gate, then the
  further context tools, then the gate, each in the manifest's order
  (`PlanShape`, `PlanOrder`). What a resume through the API saves notes the
  decision and the reason it was given (`ResumedTells`), in clean histories
  those of its run's approval (`SavedDecisionWasTaken`).
* **No step is lost.** In every history a checkpoint's trace is a subsequence
  of the run's step rows, namely what its own lineage wrote (`NoStepLost`), and
  the rows are exactly the trace if and only if nobody else wrote one
  (`ExactlyOnceIff`). Orphaned runs are requeued; leases never overlap.
* **Clean histories.** Clean for the steps: each step of an idle run is in the
  table exactly once, and the cost summary's two breakdowns are the same money
  (`ExactlyOnce`, `LedgerBalances`). Clean for the approvals: an idle run waits
  on a tool with a name exactly when one approval is open for it
  (`WaitsIffOneApproval`). In both cases the crashes excluded are exactly those
  that break the promise (`CrashSplitsIff`, `CrashStrandsIff`).
* **The API lists a run's citations as they are**, whatever the policy ids look
  like (`ApiListsCitations`); the web card does if and only if every match
  behind them is printed back unchanged (`CardListsCitationsIff`).

## Where the promises fail

The code is kept as it is; each of these is a lemma.

* The readiness pack splits a citation at the first " §" for the web card, on
  which the approver decides and which prints the two parts again. A policy id
  that begins with " §" is then not shown as it was (`RoundTripCanFail`);
  `CitationRoundTrip` says exactly which are.
* An approval of a gated tool with the empty name is lost: the tool is only
  proposed again. An approval executes the pending tool if and only if it has a
  name (`ApprovalRunsPendingIff`), and a manifest can require one without
  (`UnnamedToolCanWait`). Results about approved runs and
  `EveryCheckpointFollowsPlan` assume that the plan, or every plan of the
  configuration, has no such gate.
* A run can be left waiting with no approval to decide on. In a history clean
  so far, a crash does this if and only if it hits a job that has saved a
  waiting state and not yet requested its approval, or a resume that has
  decided a waiting run's approval and not yet saved; an exception does it there
  if and only if the job is a resume (`CrashStrandsIff`, which also covers tools
  without a name). Both happen: every run that comes to wait has a history that
  strands it (`CrashStrandsApproval`, `FirstCrashStrandsIff`), and from any
  waiting run with one open approval a resume that decides it and crashes does
  (`ResumeCrashStrands`). The run is not lost: a resume through the run itself
  still goes on (`StrandedCanBeResumed`).
* An approved gated tool can have been called without a row in `run_steps`: a
  crash between the call and the first row leaves the run stranded and its
  steps as they were (`CallLeavesNoRow`).
* A crash or exception of a job that has written a row and not saved leaves
  rows that its run's checkpoint does not record; in a history clean so far,
  only such a one does (`CrashSplitsIff`).
* Nothing fences off a worker that outlives its lease. Its remaining statements
  go through whatever has happened meanwhile (`LateSaveOverwrites`): the table
  can end up with two whole traces (`LateWorkerDuplicates`), and a run that was
  resumed and executed its gated tool can be put back to waiting
  (`LateSaveUndoesResume`).
* The fallback plan is described as safe and read-only, but its tools are only
  checked to be known: a request that falls back can come to wait for a human if
  and only if one of the two is gated (`FallbackWaitsIff`, `FallbackGates`).
* The in-memory store's string key is ambiguous: two namespaces admit the same
  key, and the two stores can then come apart, if and only if one of them
  followed by a colon begins the other (`NamespacesClashIff`, `StoresAgreeIff`).

Where documents and code differ, the model follows the code: the write gate
demands a trust of 0.6 (two specifications say 0.7), decay is per hour, every
financial tool is gated whatever its threshold, and the per-run tier limits of
the default policy are not enforced.

## Model

| member | source | states |
|---|---|---|
| SkillPlanner.ThroughFirstGateMeaning | packages/py/orchestration/src/dark_factory_orchestration/skill_planner.py:30-38 | the required tools are taken up to and including the first gated one; an unknown tool is met only if no gate stands before it |
| SkillPlanner.PlanShape | packages/py/orchestration/src/dark_factory_orchestration/skill_planner.py:14-43 | a plan repeats no tool, names only known tools outside the control plane, is exactly the required tools through the first gate plus the read-only context tools, and has at most one gated tool, which comes last |
| SkillPlanner.PlanOrder | packages/py/orchestration/src/dark_factory_orchestration/skill_planner.py:23-40 | a plan begins with the required tools in front of the gate, each where the manifest first has it, all of them when there is no gate; the context tools that are not among them follow in the order of the optional tools, and the gate ends it |
| SkillPlanner.PlanFailsClosed | packages/py/orchestration/src/dark_factory_orchestration/skill_planner.py:26-55 | planning fails if and only if a required tool before the first gate, or an optional tool, is unknown |
| SkillPlanner.FirstOccurrencesKeepGateLast | packages/py/orchestration/src/dark_factory_orchestration/skill_planner.py:58-66 | dropping repeated tools never moves a gate away from the end |
| SkillPlanner.FallbackGates | packages/py/orchestration/src/dark_factory_orchestration/skill_planner.py:46-48 | the fallback plan is read-only if and only if neither of its tools is gated, and waits at most once if and only if the first is not |
| SkillPlanner.FallbackCanBeGated | packages/py/orchestration/src/dark_factory_orchestration/skill_planner.py:46-48 | a registry whose fallback plan is gated passes the fallback's check |
| GraphBudgets.FallbackWaitsIff | packages/py/orchestration/src/dark_factory_orchestration/nodes.py:23-29 | a request that falls back can come to wait for a human if and only if one of the two fallback tools is gated |
| SkillPlanner.Dedupe | packages/py/orchestration/src/dark_factory_orchestration/skill_planner.py:58-66 | the loop keeps the first occurrences, in order |
| SkillPlanner.ReadOnlyOptionalTools | packages/py/orchestration/src/dark_factory_orchestration/skill_planner.py:46-55 | the loop keeps the read-only default context tools, and fails on an unknown tool outside the control plane |
| SkillPlanner.PlanRequired | packages/py/orchestration/src/dark_factory_orchestration/skill_planner.py:26-41 | the loop with its flag and break computes the list that `PlanShape` and `PlanOrder` are about: context tools directly before the first gated tool, or at the end |
| SkillPlanner.ResolveSkillPlan | packages/py/orchestration/src/dark_factory_orchestration/skill_planner.py:14-43 | the whole of planning computes the plan that the shape, order and failure results are about |
| Prelude.FirstOccurrencesMeaning | packages/py/orchestration/src/dark_factory_orchestration/nodes.py:115-120 | building a list by appending what is not in it yet gives the same elements, each once, ordered by first occurrence |
| Nodes.CollectCitations | packages/py/orchestration/src/dark_factory_orchestration/nodes.py:115-120 | the citation loop appends the printed dictionary matches of a successful policy search, skipping what is known |
| Nodes.SpecialistNode | packages/py/orchestration/src/dark_factory_orchestration/nodes.py:49-131 | the node as it runs, copying and extending lists, returns the state that all run results are about, `RunTells` on what it records of the dispatch included |
| RunGraph.DriveSpecialist | packages/py/orchestration/src/dark_factory_orchestration/graph.py:125-131 | the self-loop terminates for every plan and reaches the loop's result |
| RunGraph.InvokeGraph | packages/py/orchestration/src/dark_factory_orchestration/graph.py:82-89 | invoke drives planner, specialist loop and verifier to the result of a run's first part |
| RunGraph.ResumeGraph | packages/py/orchestration/src/dark_factory_orchestration/graph.py:91-115 | resume returns a run that does not wait unchanged, cancels on rejection, and otherwise executes the pending tool and goes on |
| GraphRuns.RecordFollows | packages/py/orchestration/src/dark_factory_orchestration/nodes.py:80-131 | recording a proposal, a read-only execution or an approved execution of the next planned tool keeps the trace on the expanded plan |
| GraphRuns.SpecialistSound | packages/py/orchestration/src/dark_factory_orchestration/nodes.py:49-131 | one specialist step keeps the run invariant: trace on the plan, steps and cost those of the trace, nothing pending but the proposal it stopped at |
| GraphRuns.ConcludeEnded | packages/py/orchestration/src/dark_factory_orchestration/nodes.py:134-181 | after the loop the verifier never sends a run back as running, and completes it only with the plan executed and a citation |
| GraphRuns.InvokeEnded | packages/py/orchestration/src/dark_factory_orchestration/graph.py:82-89 | every invoke ends completed, failed for a stated reason, or waiting, having executed no gated tool |
| GraphRuns.ExecutePendingSound | packages/py/orchestration/src/dark_factory_orchestration/nodes.py:184-218 | executing the named pending tool of a waiting run adds exactly one entry, the approved execution, and clears what was pending |
| GraphRuns.ResumeEnded | packages/py/orchestration/src/dark_factory_orchestration/graph.py:91-115 | a resume only extends the trace; an accepted approval of a named tool executes exactly one gated tool and passes no other gate; a rejection cancels and records nothing |
| GraphRuns.RunFollowsPlan | packages/py/orchestration/src/dark_factory_orchestration/graph.py:82-115 | after any decisions the trace is a prefix of the expanded plan, what was executed is the plan up to the current step, steps and cost are those of the trace; completed means all of it with a citation, failed has its reason |
| GraphRuns.RunCitations | packages/py/orchestration/src/dark_factory_orchestration/nodes.py:115-120 | a run's citations are what its policy searches returned, each once, in order of first appearance |
| GraphRuns.RunCitesMatches | packages/py/orchestration/src/dark_factory_orchestration/nodes.py:115-120 | a run holds exactly the citations printed from the matches that its executed policy searches got back |
| GraphRuns.CitationsInOrder | packages/py/orchestration/src/dark_factory_orchestration/nodes.py:115-120 | a run's citations stand in the order in which the searches first returned them, by step and within an answer by match: wherever a later one was returned, each earlier one had been returned before |
| GraphRuns.OutcomeReports | packages/py/orchestration/src/dark_factory_orchestration/nodes.py:155-181 | the outcome of a completed run tells its citations, steps and summed cost; of a waiting one, its approver's role and its trace; of a rejected one, whether policy was cited |
| GraphRuns.GatedOnlyAfterApproval | packages/py/orchestration/src/dark_factory_orchestration/graph.py:91-115 | every gated execution directly follows its own proposal, and there are as many as approvals accepted while waiting |
| GraphRuns.FinishedStays | packages/py/orchestration/src/dark_factory_orchestration/graph.py:93-94 | a run that does not wait is changed by no later decisions |
| GraphRuns.RejectionIsFinal | packages/py/orchestration/src/dark_factory_orchestration/graph.py:95-107 | after a rejection the run is cancelled for good and its trace never grows |
| GraphRuns.InvokeStopsAtGate | packages/py/orchestration/src/dark_factory_orchestration/nodes.py:80-102 | an invoke never passes a gate of its plan |
| GraphBudgets.RunWithinBudget | packages/py/orchestration/src/dark_factory_orchestration/nodes.py:66-70 | over any number of resumes, for any plan and costs, the step count is at most the limit plus one, and the cost below the limit plus that of the last entry; a run waits only at the recorded proposal of a gated tool |
| GraphBudgets.StepBoundIsTight | packages/py/orchestration/src/dark_factory_orchestration/nodes.py:184-218 | a run whose affordable plan expands to one step more than the limit takes that step: the approved tool runs without a budget check |
| StepBound.StepBoundIsMet | packages/py/orchestration/src/dark_factory_orchestration/nodes.py:184-218 | there is a configuration and a run that takes it |
| GraphBudgets.AffordableNeverOverBudget | packages/py/orchestration/src/dark_factory_orchestration/nodes.py:66-78 | a run of known tools, priced so that all but the last stay below the cost limit and few enough for the step limit, an approved last one not counted, fails only for want of a citation, at its end |
| GraphBudgets.ApprovedRunExpandsPlan | packages/py/orchestration/src/dark_factory_orchestration/graph.py:82-115 | for known tools and any costs, after k approvals a run has either met its budget in front of a tool or passed exactly k gates; then it waits while one is left, and otherwise its trace is the whole expanded plan |
| GraphBudgets.AffordableRunExpandsPlan | packages/py/orchestration/src/dark_factory_orchestration/graph.py:82-115 | an affordable run always does the latter |
| GraphBudgets.WaitsAtMostOnce | packages/py/orchestration/src/dark_factory_orchestration/graph.py:91-115 | when the only gate of a plan is last, an accepted approval ends the run completed or failed with all of the plan executed |
| GraphBudgets.SkillRunsWaitAtMostOnce | packages/py/orchestration/src/dark_factory_orchestration/nodes.py:15-46 | every plan made from a manifest is such a plan |
| GraphBudgets.UnnamedToolNeverRuns | packages/py/orchestration/src/dark_factory_orchestration/nodes.py:186-188 | approving a gated tool with the empty name only proposes it again, or fails the run over budget |
| GraphBudgets.ApprovalRunsPendingIff | packages/py/orchestration/src/dark_factory_orchestration/nodes.py:184-218 | an accepted approval executes the pending gated tool if and only if that tool has a name |
| GraphBudgets.UnnamedToolCanWait | packages/py/orchestration/src/dark_factory_orchestration/nodes.py:80-102 | a manifest that requires a gated tool with the empty name brings a run to wait on it |
| GraphAnswers.RunKeepsRequest | packages/py/orchestration/src/dark_factory_orchestration/nodes.py:15-46 | after any decisions a run is still about the requested run, skill and vertical, and its plan is the one of its skill's manifest, or the fallback when that cannot be planned |
| GraphAnswers.RunTells | packages/py/orchestration/src/dark_factory_orchestration/nodes.py:104-236 | after any decisions every executed entry holds the success, latency and cost that its tool answered at that step, called with arguments made of the tool's name, the vertical and the outcome before that graph call; a proposal holds success and no cost |
| GraphAnswers.RunErrs | packages/py/orchestration/src/dark_factory_orchestration/nodes.py:15-153 | after any decisions a failed run's error names the check it failed, an exhausted budget before an unknown tool, and any other run's error says whether its skill could be planned |
| ApprovalPack.PartitionOfPrinted | packages/py/governance/src/dark_factory_governance/approval_pack.py:105-106 | where a printed citation is split: at the first separator of the policy id, or behind it |
| ApprovalPack.CitationRoundTrip | packages/py/governance/src/dark_factory_governance/approval_pack.py:105-111 | splitting and printing again gives the citation back if and only if the policy id is not empty, does not begin with the separator, and something follows the first one |
| ApprovalPack.SplitRecoversPair | packages/py/governance/src/dark_factory_governance/approval_pack.py:105-111 | the split recovers policy and clause if and only if both are non-empty and the policy id contains no separator |
| ApprovalPack.SplitDefaults | packages/py/governance/src/dark_factory_governance/approval_pack.py:105-111 | the whole citation stands in for a missing policy id, "unspecified" for a missing clause |
| ApprovalPack.RoundTripCanFail | packages/py/governance/src/dark_factory_governance/approval_pack.py:105-111 | a policy id beginning with the separator is not printed back |
| ApprovalPack.ApiListsCitations | apps/api/src/dark_factory_api/persisted.py:418-445 | whatever its policy ids look like, the evidence the API lists for a run begins with its citations unchanged, and continues with its steps |
| ApprovalPack.CardListsCitationsIff | apps/web/app/components/arp-card.tsx:25-76 | the card lists the citations of a run that has any unchanged if and only if every match that its executed policy searches got back is printed back unchanged |
| ApprovalPack.RiskTierForAction | packages/py/governance/src/dark_factory_governance/approval_pack.py:55-59 | the backward scan finds the tier that `TierForActionMeaning` is about |
| ApprovalPack.TierForActionMeaning | packages/py/governance/src/dark_factory_governance/approval_pack.py:55-59 | it is the tier of the tool's latest entry, and financial when the tool has none |
| ApprovalPack.CollectEvidence | packages/py/governance/src/dark_factory_governance/approval_pack.py:77-102 | the two loops give one item per citation, then one per step with a tool name |
| ApprovalPack.PackOfWaitingRun | packages/py/governance/src/dark_factory_governance/approval_pack.py:8-52 | the readiness pack of a run that waits at a proposal, as every waiting run does, carries the registry's tier of the pending tool, never the default, and one item of evidence per citation and per recorded step of a named tool, in order |
| ApprovalPack.NamedStepsAll | packages/py/governance/src/dark_factory_governance/approval_pack.py:89-92 | only steps of tools without a name are left out of the evidence |
| Tables.PendingForMeaning | packages/py/persistence/src/dark_factory_persistence/approvals.py:67-78 | the listing holds exactly the run's undecided approvals, oldest first |
| Tables.RunRepository.CreateRun | packages/py/persistence/src/dark_factory_persistence/runs.py:30-57 | inserts the run's row, with no steps, and touches no other |
| Tables.RunRepository.UpdateRunStatus | packages/py/persistence/src/dark_factory_persistence/runs.py:70-95 | sets the status and only those totals that are given |
| Tables.RunRepository.AppendStep | packages/py/persistence/src/dark_factory_persistence/runs.py:110-147 | adds one step row behind the run's others |
| Tables.RunRepository.ReleaseStaleRunning | packages/py/persistence/src/dark_factory_persistence/runs.py:162-175 | requeues exactly the running rows whose lease has passed, and counts them; none stays stale |
| Tables.RunRepository.ClaimNextPending | packages/py/persistence/src/dark_factory_persistence/runs.py:177-198 | claims an oldest pending run if and only if there is a pending one |
| Tables.RunRepository.ClaimRunById | packages/py/persistence/src/dark_factory_persistence/runs.py:200-222 | claims the run if and only if it is pending |
| Tables.RunRepository.RenewLease | packages/py/persistence/src/dark_factory_persistence/runs.py:224-234 | extends only a running row's lease held by this worker |
| Tables.RunRepository.SaveCheckpoint | packages/py/persistence/src/dark_factory_persistence/runs.py:236-267 | stores checkpoint and totals and gives up the lease, whoever holds it |
| Tables.ApprovalRepository.Create | packages/py/persistence/src/dark_factory_persistence/approvals.py:16-42 | adds one undecided approval |
| Tables.ApprovalRepository.ListPendingForRun | packages/py/persistence/src/dark_factory_persistence/approvals.py:67-78 | returns exactly the positions of the run's undecided approvals, in the order of their creation |
| Tables.ApprovalRepository.Decide | packages/py/persistence/src/dark_factory_persistence/approvals.py:80-99 | decides the one approval and no other |
| Executor.AppendNewToolSteps | packages/py/persistence/src/dark_factory_persistence/run_ops.py:11-29 | appends the rows of the entries not persisted yet, one by one, and returns the length of the trace |
| Executor.PersistRunResult | packages/py/persistence/src/dark_factory_persistence/run_ops.py:32-69 | appends the new rows, saves the checkpoint with its length, and requests an approval only for a waiting run without an open one |
| Executor.ExecutedRests | apps/worker/src/dark_factory_worker/executor.py:78-87 | executing a fresh run adds its whole trace to its steps and leaves row, checkpoint and memory in agreement |
| Executor.ResumedRests | apps/api/src/dark_factory_api/persisted.py:383-415 | resuming such a run keeps its steps equal to its trace and the row, checkpoint and memory in agreement |
| Executor.ResumeIsIdempotent | apps/api/src/dark_factory_api/persisted.py:383-415 | resuming a run that does not wait, with either decision, changes no status, trace, cost, step row, other run or remembered outcome; only the noted decision and open approvals can change |
| Executor.ResumingOftenIsIdempotent | apps/api/src/dark_factory_api/persisted.py:383-415 | the same for any number of resumes |
| Executor.RunExecutor.WriteRunOutcome | apps/worker/src/dark_factory_worker/executor.py:89-98 | remembers the outcome of a completed or waiting run, and swallows an append-only refusal |
| Executor.RunExecutor.RunAndPersist | apps/worker/src/dark_factory_worker/executor.py:79-87 | invokes, persists and remembers, or marks the run failed when the graph raises, to the tables that `TableEffects.ExecutedTells` is about |
| Executor.RunExecutor.ExecuteRun | apps/worker/src/dark_factory_worker/executor.py:78-87 | renews the lease, whoever holds it by then, and executes the record that was claimed, to the state of all tables |
| Executor.RunExecutor.TakeOldest | apps/worker/src/dark_factory_worker/executor.py:36-39 | releases what is stale, then claims an oldest pending run, or nothing if there is none |
| Executor.RunExecutor.ProcessPending | apps/worker/src/dark_factory_worker/executor.py:35-41 | one poll, to the state of all tables: nothing but releases, or an oldest pending run executed |
| Executor.RunExecutor.ExecuteRunById | apps/worker/src/dark_factory_worker/executor.py:43-56 | refuses an unknown and a non-pending run and then changes nothing; otherwise claims and executes it |
| Executor.RunExecutor.ResumeRun | apps/worker/src/dark_factory_worker/executor.py:58-76 | refuses a run without checkpoint; otherwise decides all its open approvals, resumes and persists |
| Executor.RunExecutor.ResumeDecided | apps/api/src/dark_factory_api/persisted.py:383-415 | decides the targets, resumes the checkpoint, notes the decision, persists and remembers, to the tables that `TableEffects.ResumedTells` is about |
| Executor.RunExecutor.DecideApproval | apps/api/src/dark_factory_api/persisted.py:199-222 | refuses an unknown approval, a decided one and one whose run has no checkpoint, and then changes nothing; otherwise resumes the run deciding that approval only |
| TableEffects.PersistTells | packages/py/persistence/src/dark_factory_persistence/run_ops.py:11-69 | one step row per new entry with its status, tool, tier, latency and cost; the row shows the state and is let go; an approval is added exactly for a run that waits on a tool with a name and has none open; nothing else changes |
| TableEffects.RememberTells | packages/py/memory/src/dark_factory_memory/run_outcomes.py:10-47 | a completed or waiting run is in memory afterwards, under its id, status and step count; a new item is episodic, trusted 0.9, for the team, and reports the state; nothing old changes, and no other run leaves anything |
| TableEffects.ExecutedTells | apps/worker/src/dark_factory_worker/executor.py:78-98 | executing a claimed record saves a state of that run, of the skill and in the vertical the record names ("finance" for none), with that skill's plan and the tools' answers; without a plan the row is marked failed and nothing else happens |
| TableEffects.ResumedTells | apps/api/src/dark_factory_api/persisted.py:383-415 | exactly the approvals asked for are decided, with the decision and reason given; the row shows what the graph made of the checkpoint, and its outcome notes decision and reason if and only if they came through the API |
| ProtocolSafety.LoopSettles | packages/py/orchestration/src/dark_factory_orchestration/graph.py:181-190 | the loop never returns running and never rewrites the trace, whatever the registry |
| ProtocolSafety.GraphSettles | packages/py/orchestration/src/dark_factory_orchestration/graph.py:82-115 | no graph call returns running or pending, and a resume extends the trace of the checkpoint it read |
| ProtocolSafety.QueueSafety | packages/py/persistence/src/dark_factory_persistence/runs.py:162-267 | in every history a pending or running run has no checkpoint, a running one has worker and lease, a pending one neither, and an execution counts persisted steps from zero |
| ProtocolSafety.OrphansAreRequeued | packages/py/persistence/src/dark_factory_persistence/runs.py:162-198 | in every history a running run whose lease has passed is requeued by the next release and can be claimed from the start |
| ProtocolSafety.LeaseExclusion | packages/py/persistence/src/dark_factory_persistence/runs.py:162-234 | in every history two leases of one run are never in force at the same time |
| ProtocolSafety.LateRenewIsHarmless | packages/py/persistence/src/dark_factory_persistence/runs.py:224-234 | renewing a row that another worker holds, or that is not running, changes nothing |
| Lineage.StepKeepsLineage | packages/py/persistence/src/dark_factory_persistence/run_ops.py:11-49 | every atomic step keeps the rows written by a checkpoint's lineage equal to its trace |
| Lineage.NoStepLost | packages/py/persistence/src/dark_factory_persistence/run_ops.py:11-49 | in every history a checkpoint counts its whole trace as persisted, and its trace is a subsequence of the run's step rows |
| Lineage.ExactlyOnceIff | packages/py/persistence/src/dark_factory_persistence/run_ops.py:11-49 | in every history the step rows are exactly the checkpoint's trace if and only if no job outside its lineage wrote one |
| Checkpoints.EveryCheckpointFollowsPlan | packages/py/persistence/src/dark_factory_persistence/run_ops.py:41-49 | in every history a checkpoint's trace is a prefix of its expanded plan, proposal first, with at most one step over the limit, and its totals are those of the trace |
| Checkpoints.EveryCheckpointWithinBudget | packages/py/orchestration/src/dark_factory_orchestration/nodes.py:66-102 | in every history, whatever the gates are called, a checkpoint overshoots its budgets by at most one step and one dispatch, and waits only at the recorded proposal of a gated tool |
| Checkpoints.StepKeepsCheckpoints | packages/py/persistence/src/dark_factory_persistence/run_ops.py:32-49 | every atomic step keeps each checkpoint, and each state about to become one, a state that some run of the graph can end a part in |
| RunIdentity.StepKeepsAbout | packages/py/persistence/src/dark_factory_persistence/run_ops.py:84-96 | every atomic step keeps each checkpoint, and each state about to become one, a state of its row's run, skill and vertical |
| RunIdentity.EveryCheckpointIsAboutItsRun | packages/py/persistence/src/dark_factory_persistence/run_ops.py:84-96 | in every history a checkpoint has its row's run id, skill and vertical, "finance" where the row names none, follows that skill's plan, and its error is the reason |
| RecordedAnswers.StepKeepsTold | packages/py/persistence/src/dark_factory_persistence/run_ops.py:11-29 | every atomic step keeps each step row, and each entry still to be written, an answer to its author's graph call |
| RecordedAnswers.CallsWereMade | apps/worker/src/dark_factory_worker/executor.py:78-87 | the call that a row is an answer to is one that some statement of the history made for its author, with the tools given there |
| RecordedAnswers.RowsTell | packages/py/persistence/src/dark_factory_persistence/run_ops.py:11-29 | in every history the status, latency and cost of a step row of an executed tool are those that the tool answered in its author's graph call, called with arguments made of its name, the run's vertical and the outcome at that call; a row of a proposal is ok and costs nothing |
| GatedExecutions.GraphAddsOne | packages/py/orchestration/src/dark_factory_orchestration/graph.py:91-115 | a graph call records a gated execution only on approval, and only as its first new entry |
| GatedExecutions.StepKeepsGrants | apps/api/src/dark_factory_api/persisted.py:199-221 | every atomic step keeps each gated row tied to its own approving resume |
| GatedExecutions.GatedRowsWereApproved | packages/py/persistence/src/dark_factory_persistence/run_ops.py:11-29 | in every history each gated execution in the step table was written by a resume opened to approve that run, and no two by the same one |
| GatedExecutions.NoMoreThanApproved | packages/py/persistence/src/dark_factory_persistence/run_ops.py:11-29 | in every history a run has no more gated executions in the step table than resumes opened to approve it |
| Dispatches.CalledOnce | apps/worker/src/dark_factory_worker/executor.py:58-87 | in every history no job makes its graph call twice |
| Dispatches.DispatchedIffApproved | apps/api/src/dark_factory_api/persisted.py:383-415 | in every history a graph call runs a gated tool if and only if its job was opened to approve a run that waits on a tool with a name; the job was granted before, and no other call was its |
| Dispatches.RowsCallsApprovals | packages/py/persistence/src/dark_factory_persistence/run_ops.py:11-29 | in every history a run has no more gated rows than calls of gated tools, and no more of these than resumes opened to approve it |
| Dispatches.CallLeavesNoRow | apps/api/src/dark_factory_api/persisted.py:405-414 | whatever came before, a resume that approves a waiting run, calls its gated tool and crashes leaves its steps and checkpoint as they were, its approval decided and the run stranded |
| CleanRuns.StepKeepsClean | packages/py/persistence/src/dark_factory_persistence/run_ops.py:32-69 | for either promise, every undisturbed step keeps it of each run at rest, and of each run at work unless the promise depends on its job going on |
| RestingRuns.ExactlyOnce | packages/py/persistence/src/dark_factory_persistence/run_ops.py:11-49 | after a history clean for the steps, the step rows of an idle run are its checkpoint's trace, none without a checkpoint, and its total is the sum of its step costs |
| RestingRuns.WaitsIffOneApproval | packages/py/persistence/src/dark_factory_persistence/run_ops.py:51-69 | after a history clean for the approvals, an idle run waits on a tool with a name if and only if exactly one approval is open for it, and simply waits if and only if one is open when every gate has a name; that one names the pending tool, its approver and its registry tier, with evidence for every citation and named step |
| ApprovedActions.StepKeepsAsked | apps/api/src/dark_factory_api/persisted.py:394-415 | every undisturbed step keeps each resume tied to its run's one open approval and each gated row to an approved one |
| ApprovedActions.GatedRowsRunApprovedActions | apps/api/src/dark_factory_api/persisted.py:394-415 | after a history clean for the approvals, each gated execution in the step table belongs to an approval of that run that was decided as approved and names the executed tool |
| NotedDecisions.SavedDecisionWasTaken | apps/api/src/dark_factory_api/persisted.py:394-414 | after a history clean for the approvals, the decision noted in what a resume of a waiting run through the API has saved is that of the approval it was opened to answer, with the reason it was given |
| Solo.SoloPersist | packages/py/persistence/src/dark_factory_persistence/run_ops.py:11-49 | left alone, the separate statements of a persist add up to one update |
| SoloRuns.LoneExecution | apps/worker/src/dark_factory_worker/executor.py:35-87 | the atomic steps of an undisturbed execution add up to what the executor's methods leave in the tables |
| SoloRuns.LoneResume | apps/api/src/dark_factory_api/persisted.py:383-415 | the atomic steps of an undisturbed resume add up to what the resume methods leave in the tables |
| Crashes.CrashStrandsIff | packages/py/persistence/src/dark_factory_persistence/run_ops.py:32-69 | in every history clean for the approvals and for every job, its crash leaves its run waiting, nobody at work on it and no approval open, if and only if it has saved a waiting state and not finished, or resumes a waiting run and has no approval left to decide, or there never was one because the pending tool has no name; an exception does so if and only if the job is moreover a resume; when every gate has a name these are the points that a clean history spares |
| Crashes.ResumeCrashStrands | apps/api/src/dark_factory_api/persisted.py:394-414 | whatever came before, a resume of a waiting run that crashes after deciding its one open approval strands it |
| Crashes.CrashSplitsIff | packages/py/persistence/src/dark_factory_persistence/run_ops.py:11-49 | in every history clean for the steps and for every job, its crash or exception leaves rows that the run's checkpoint does not record if and only if it has written one and not saved |
| Crashes.CrashStrandsApproval | packages/py/persistence/src/dark_factory_persistence/run_ops.py:51-69 | for every run that comes to wait there is a history with one crash after which it waits, nobody at work on it, without any approval |
| Crashes.FirstCrashStrandsIff | packages/py/persistence/src/dark_factory_persistence/run_ops.py:32-69 | in particular, crashing the first execution of such a run after n of its statements strands it if and only if n lies between the save and the request for approval, or also behind it when the pending tool has no name |
| Crashes.StrandedCanBeResumed | apps/api/src/dark_factory_api/persisted.py:243-258 | in every history a stranded run can be taken up by a resume through the run itself, with either decision |
| Hazards.LateSaveOverwrites | packages/py/persistence/src/dark_factory_persistence/runs.py:236-267 | whatever others do meanwhile, the remaining statements of any job that is persisting go through: its rows join the table and its result replaces any checkpoint |
| Hazards.LateWorkerDuplicates | packages/py/persistence/src/dark_factory_persistence/runs.py:236-267 | two workers execute one run, the second after the first one's lease has passed, and the first one's statements come last: the table holds two whole traces and the checkpoint is the late one's |
| Hazards.LateSaveUndoesResume | packages/py/persistence/src/dark_factory_persistence/runs.py:236-267 | there is a history in which such a late save makes a run wait again that had been resumed and whose gated tool had been executed |
| Memory.StringKeyInjective | packages/py/memory/src/dark_factory_memory/store.py:37-38 | for namespaces of which neither, followed by a colon, begins the other, the string key identifies namespace, entity and type, colons in entity keys notwithstanding |
| Memory.NamespacesClashIff | packages/py/memory/src/dark_factory_memory/store.py:37-38 | two different namespaces admit the same string key if and only if one of them, followed by a colon, begins the other |
| Memory.StringKeyCollides | packages/py/memory/src/dark_factory_memory/store.py:37-38 | two different keys can have the same string key |
| Memory.PutAgrees | packages/py/memory/src/dark_factory_memory/pg_store.py:25-59 | one validated write to a namespace separate from those in use keeps the two stores in agreement |
| Memory.StoresAgree | packages/py/memory/src/dark_factory_memory/pg_store.py:25-59 | after any validated writes to pairwise separate namespaces both stores hold the same items, but for the time of creation, and admit the same next writes |
| Memory.StoresAgreeIff | packages/py/memory/src/dark_factory_memory/store.py:37-56 | all histories of writes to two namespaces leave the stores in agreement if and only if the namespaces are separate |
| Memory.GatedHistory | packages/py/memory/src/dark_factory_memory/pg_store.py:25-59 | in the table, through any later writes an episodic item stays as it is, and every semantic item has a trust of at least 0.6 |
| Memory.GatedHistoryByString | packages/py/memory/src/dark_factory_memory/store.py:40-56 | the same of the in-memory store, whatever the namespaces |
| Memory.DecaySettles | packages/py/memory/src/dark_factory_memory/store.py:76-83 | an item that was just decayed has not drifted, in either store: rounding stays inside the tolerance |
| Memory.SecondPassIdle | packages/py/memory/src/dark_factory_memory/store.py:76-83 | at a fixed clock a second pass over the in-memory store updates nothing |
| Memory.SecondRowPassIdle | packages/py/memory/src/dark_factory_memory/pg_store.py:93-107 | at a fixed clock a second pass over the table updates nothing |
| Memory.DecayedTells | packages/py/memory/src/dark_factory_memory/store.py:76-83 | a pass gives an item whose stored weight is off by more than the tolerance its weight rounded to four decimals, and leaves any other |
| Memory.RowDecayedTells | packages/py/memory/src/dark_factory_memory/pg_store.py:93-107 | in the table the rounded weight is compared: a row whose stored weight is no further off than the rounding is left, one that is changed gets the rounded weight, and none ends further off than the tolerance and the rounding |
| Memory.TopKIsBest | packages/py/memory/src/dark_factory_memory/store.py:73-74 | sorting and cutting returns at most k items, best first, and omits none that scores higher than a returned one |
| Memory.TopKIsStable | packages/py/memory/src/dark_factory_memory/store.py:73-74 | items that score the same are returned in the order in which they were found |
| Memory.TopKContained | packages/py/memory/src/dark_factory_memory/store.py:73-74 | no item is returned more often than it was found |
| Memory.PassingSharesWord | packages/py/memory/src/dark_factory_memory/store.py:10-17 | a result shares a word with the query, whatever the decay weight |
| Memory.SimilarityRange | packages/py/memory/src/dark_factory_memory/store.py:10-17 | similarity is a fraction, symmetric, 0 if and only if no word is shared, and 1 if and only if both have the same words, and some |
| Memory.SimilarityIs | packages/py/memory/src/dark_factory_memory/store.py:10-17 | the shared words are that fraction of the query's words and the item's foreign ones together |
| Memory.WordsRank | packages/py/memory/src/dark_factory_memory/store.py:10-17 | a foreign word in an item that shares one strictly lowers its similarity, a further shared one strictly raises it |
| Memory.FewerForeign | packages/py/memory/src/dark_factory_memory/store.py:10-17 | of two items with the same shared words the one with more foreign words is less similar |
| Memory.ScoreScales | packages/py/memory/src/dark_factory_memory/store.py:69-70 | a decayed score is in proportion to the weight, and at weight 1 what it is without decay |
| Memory.PassesIff | packages/py/memory/src/dark_factory_memory/store.py:58-72 | with positive weights an item passes if and only if its namespace begins with the query's, it has the type and scope asked for and at least the trust, and shares a word |
| Memory.RanksWell | packages/py/memory/src/dark_factory_memory/store.py:73-74 | without decay a result never stands in front of one with the same shared words and fewer foreign ones; with a falling weight never one accessed earlier in front of one with the same words |
| Memory.InMemoryStore.Upsert | packages/py/memory/src/dark_factory_memory/store.py:40-56 | writes exactly when the gate admits the item, in place under an old key and at the end under a new one |
| Memory.InMemoryStore.DecayPass | packages/py/memory/src/dark_factory_memory/store.py:76-83 | every drifted item gets its rounded weight, no other changes, and the count is theirs |
| Memory.InMemoryStore.Search | packages/py/memory/src/dark_factory_memory/store.py:58-74 | at most k different stored items, best first and ranked as `RanksWell` says, also against what is omitted, each passing every filter with a positive score, and none omitted that scores higher; equal scores stand in the order of first writing |
| Memory.PostgresMemoryStore.Upsert | packages/py/memory/src/dark_factory_memory/pg_store.py:25-59 | writes exactly when the gate admits the item; a conflict keeps the time of creation |
| Memory.PostgresMemoryStore.DecayPass | packages/py/memory/src/dark_factory_memory/pg_store.py:93-107 | every drifted row gets its rounded weight, no other changes, and the count is theirs |
| RunOutcomes.DecimalMeans | packages/py/memory/src/dark_factory_memory/run_outcomes.py:24-24 | the step count is printed as its decimal numeral, without a leading zero |
| RunOutcomes.DecimalInjective | packages/py/memory/src/dark_factory_memory/run_outcomes.py:24-24 | different step counts print differently |
| RunOutcomes.EntityKeyInjective | packages/py/memory/src/dark_factory_memory/run_outcomes.py:22-25 | for colon-free run ids the entity key identifies run, status and step count |
| Rounding.Round3Close | packages/py/persistence/src/dark_factory_persistence/costs.py:63-74 | a figure shown with three digits is within half a thousandth |
| Rounding.RoundHalfEvenTie | packages/py/persistence/src/dark_factory_persistence/costs.py:92-92 | a tie is rounded to the even neighbour |
| Statistics.OrderStatistic | packages/py/persistence/src/dark_factory_persistence/costs.py:91-93 | the element at index k of the sorted list is one of the list, with at most k below it and more than k at most it |
| Statistics.IndexNearest | packages/py/persistence/src/dark_factory_persistence/costs.py:92-92 | the index of a percentile is within one half of its exact place, from the first element at 0 to the last at 100 |
| Statistics.MedianIsMiddle | packages/py/persistence/src/dark_factory_persistence/costs.py:89-90 | the median is the mean of the two middle elements, which coincide in a list of odd length |
| Statistics.PercentileInRange | packages/py/persistence/src/dark_factory_persistence/costs.py:86-93 | every percentile lies between the least and the greatest value |
| Statistics.PercentileMonotone | packages/py/persistence/src/dark_factory_persistence/costs.py:86-93 | a higher percentile is never smaller, the averaged median included, although the others round their index half to even |
| Metrics.SharesOfHits | packages/py/evals/src/dark_factory_evals/metrics.py:14-25 | precision is the share of the recorded steps whose tool was expected, repeats counted, and recall that of the expected ones whose tool ran; 0 and 1 when there are none |
| Metrics.PrecisionAndRecall | packages/py/evals/src/dark_factory_evals/metrics.py:14-25 | both are fractions; precision is 0 exactly without a shared tool and 1 exactly when nothing superfluous ran, recall is 1 exactly when nothing is missing |
| Metrics.F1Between | packages/py/evals/src/dark_factory_evals/metrics.py:27-32 | F1 lies between precision and recall and is 0 if and only if no tool is shared |
| Metrics.F1Reciprocal | packages/py/evals/src/dark_factory_evals/metrics.py:27-32 | for non-zero precision and recall F1 is their harmonic mean: twice its reciprocal is the sum of theirs |
| Metrics.F1OneIff | packages/py/evals/src/dark_factory_evals/metrics.py:27-32 | F1 is 1 if and only if something ran and the sets of tools are equal |
| Metrics.OrderCorrectIff | packages/py/evals/src/dark_factory_evals/metrics.py:34-38 | in lists without repeats the order is correct if and only if any two shared tools ran in the expected order |
| Metrics.PerfectIff | packages/py/evals/src/dark_factory_evals/metrics.py:27-38 | F1 is 1 with correct order if and only if exactly the expected tools ran, and some did |
| Metrics.InvokeRecordsPrefix | packages/py/evals/src/dark_factory_evals/runner.py:66-70 | the tools an invoke records are a prefix of its plan |
| Metrics.OwnPlanPerfectIff | packages/py/evals/src/dark_factory_evals/runner.py:66-77 | a run whose plan's only gate is last scores perfectly against its own plan if and only if it got to the gate or to the end |
| Metrics.P95Covers | packages/py/evals/src/dark_factory_evals/metrics.py:91-97 | at least floor(0.95 n) latencies are at most the reported one, which is one of them, and none or at most floor(0.95 n) - 1 are below it |
| Metrics.SuiteF1Adds | packages/py/evals/src/dark_factory_evals/metrics.py:79-83 | the suite's F1 is the mean over its cases: one more case adds its own |
| Metrics.SuiteF1 | packages/py/evals/src/dark_factory_evals/metrics.py:79-83 | the mean F1 is a fraction, and 1 if and only if there are cases and every one scores 1 |
| Costs.SumByVertical | packages/py/persistence/src/dark_factory_persistence/costs.py:29-32 | each vertical of a run once, with what its runs spent; altogether what all runs spent |
| Costs.SumByCategory | packages/py/persistence/src/dark_factory_persistence/costs.py:34-52 | retrieval and tool compute are disjoint and add up to all step costs; latencies and successes are those of the steps that have them |
| Costs.StepFigures | packages/py/persistence/src/dark_factory_persistence/costs.py:44-52 | retrieval is what the planner's context tools spent, tool compute what the others did, and the successes are the steps that were ok |
| Costs.LatenciesTell | packages/py/persistence/src/dark_factory_persistence/costs.py:49-50 | the latencies are those of the steps that have one, in order |
| Costs.RunFigures | packages/py/persistence/src/dark_factory_persistence/costs.py:29-55 | a vertical's figure is what its runs spent, runs without one counting as "unknown"; the completed are those with that status |
| Costs.CountCompleted | packages/py/persistence/src/dark_factory_persistence/costs.py:55-55 | counts the completed runs |
| Costs.Summarize | packages/py/persistence/src/dark_factory_persistence/costs.py:13-77 | the figures of the summary in terms of the rows; the median latency shown never exceeds the 95th percentile shown |
| Costs.ShownTotalClose | packages/py/persistence/src/dark_factory_persistence/costs.py:57-59 | rounding a breakdown moves its sum by at most half a millionth per figure |
| Costs.SpentPermutes | packages/py/persistence/src/dark_factory_persistence/costs.py:20-26 | the sum of the step costs does not depend on the order of the rows |
| Costs.LedgerBalances | packages/py/persistence/src/dark_factory_persistence/costs.py:29-54 | after a history clean for the steps, at rest, the step costs add up to what the runs spent, in whatever order either table is read |
| Costs.ShownLedgerBalances | packages/py/persistence/src/dark_factory_persistence/costs.py:57-59 | the two breakdowns as shown then differ by no more than their rounding |
| Costs.StoredLedgerClose | infra/migrations/001_initial_schema.sql:54-69 | read back from the columns, run totals with four decimals and step costs with six, the two sums differ by at most half a unit in the last place of each stored figure |

## Left out

- LangGraph itself, its checkpointers and recursion limit, and the telemetry spans: the compiled graphs are the loops that their edges describe.
- The checkout path of the API, which writes checkpoints without plan, steps or cost and may attach an approval to an unrelated run.
- Two simultaneous decisions on one approval: reading an approval and its run counts as one atomic step.
- Exceptions other than an unknown tool are not part of `Executor`; in `Protocol` a job may raise or crash before any of its statements. The results about clean histories exclude this where the promise depends on the job; `CrashSplitsIff` and `CrashStrandsIff` say exactly what it does there, and `ExactlyOnceIff` which rows are a checkpoint's in any history.
- A job of `Protocol` ends with its last statement on the runs, steps and approvals. An exception behind it, in the audit or memory write, would still mark an executed run failed.
- Memory writes take part in the sequential `Executor` only, not in the interleaved protocol; in the database the gate's query and the insert are two statements.
- Briefings, started and ended times, audit rows and item ids. The outcome that the briefing provides is overwritten by the planner before anything reads it.
- Python floats: costs, scores and percentiles are exact. The columns are exact too, except in `StoredLedgerClose`: the database rounds a run's total to four decimals and a step's cost to six, so `LedgerBalances` holds of the stored figures only for costs of at most four decimals.
- The exponential of the decay weight is any function of the time since the last access; the words of an item's content are given.
- Search in the database: LIKE patterns, the 200-row cap, the consistency filter and the marking of accessed rows.
- Of the readiness pack: descriptions, payload previews, blast radius, estimated impact and expiry.
- Of a suite's report: task success, grounding, approval precision and mean cost are means of the same form as the mean F1.
- The API's routes, events and in-memory demo, the web application, loading of YAML and Markdown, migrations, the knowledge graph, the audit log and the hill-climbing loop: they would add only easier members.
