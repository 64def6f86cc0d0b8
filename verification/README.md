# Verification model of the MEIZEX router worker and AIR

A Dafny 4.11 model of the parts of the repository whose guarantees span several functions or whole
runs, with proofs of those guarantees. `dafny verify dfyconfig.toml` checks the project.

| module | what it models |
|---|---|
| `RemoteJobs`, `RemoteRuns` | background jobs of a remote node: worker threads behind a counting gate, callers that poll, wait and cancel, as a transition system over every interleaving |
| `Dispatcher`, `DispatchRuns` | the plan dispatcher with pause, single-use tokens and resume; its event streams and what pausing changes |
| `DependencyGraph`, `PartitionPlan` | depth-first cycle detection of task plans and partition plans, and the judgement whether a split of the work is safe |
| `ContextCompiler`, `ContextProperties`, `ContextPriority` | greedy tiered packing of a sprint's context under a token budget |
| `EventLog` | cursor reads of a growing JSONL event file |
| `CheckpointStore` | write-once checkpoint storage with temporary files and crashes |
| `ToolHistory`, `WorkerLoop`, `WorkerTrace` | the worker's turn loop, its bounded message history, and what a finished turn shows |
| `CodeTracer`, `TracerSemantics`, `TracerCode`, `TracerElse`, `TracerFaults` | the restricted Python tracer, a small-step reference machine, a stack machine for expressions, for-else blocks, and when tracing raises |
| `CapabilityRouter`, `CapabilityChoice` | candidate filtering, ranking and plan construction, down to the dispatcher's executor choice |
| `SpecialistRouter`, `SpecialistChoice` | eligibility reasons, ranking and confidence of specialist selection |
| `AcceptanceValidator`, `FailureClassifier`, `RemediationPolicy`, `RemediationTable` | validate, classify, decide |
| `Common`, `Ordering`, `Text` | option and result types, Python's orders and stable sort, decimal and text helpers |

Where the code updates objects or lists in loops, the model is a class or a method with the same
steps, proved equal to a specification function; the theorems are about that function and about
all runs built from it. Executors, resolvers, providers, tools, judges, serialisation, token
estimates of the sprint core, eligibility of profiles, registry lookup and text recognition are
arbitrary functions, so the theorems hold for every behaviour of theirs; executors and resolvers may
remember the earlier steps of their run.

## Where the code differs from its documentation

- `_resolve_candidates` makes its modality, validation and executor tests inside one `elif` chain,
  so they are reached only for resources without a `location` under a profile without hardware
  constraints. The documented fail-closed guarantees hold exactly there: `GuardedAdmission`,
  `ValidationGateExact`, `ModalityGateExact`, `ExecutorGateExact`, with `LocalResourceEvades` as
  the concrete input, and `PlanIsExecutable` for whole plans.
- `compute` of the tracer is documented never to raise; an exception of a Python operator passes
  through (`ComputeCanRaise` gives a program). When it does not: `NeverRaisesExactly` for whatever
  part of Python's operators one knows, `SafeForAllOperatorsExactly`, `CheckedProgramsAreSafe`,
  `HarmlessProgramsAreSafe` for a condition on the text, `ExpressionSafeExactly` for one expression.
  A for statement's else-block is not traced: `TracerComputesReference` says for every program what
  is computed, `InStepExactly` and `UnenteredElseIsHarmless` for which runs it makes no difference,
  `ForElseIsDropped` gives the input.
- A retry ceiling of zero is exceeded once by INVALID_OUTPUT (`ZeroCeilingExactly`,
  `ZeroCeilingBrokenExactly`; `ZeroCeilingIsBroken` gives a checkpoint), repeated TASK_DRIFT is
  answered with a reduced-scope retry without end (`RetryPastCeilingExactly`;
  `BreakerIsEvaded`), and a decision relaxes where the ceiling is reached with INVALID_OUTPUT or
  TOOL_CALL_LOOP (`DecisionLadderExactly`; `LadderIsRelaxed`). `OutcomeAloneDecides` gives such
  checkpoints for every sprint.
- Input order of checkpoints matters to the context compiler exactly when two different ones share
  the latest version of a dependency (`SelectionOrderFreeExactly`).
- A rejected resume ends without a `RunCompleted` event: a stream is extended exactly by accepted
  resumes (`ResumeExtendsExactly`), and a rejected one leaves it at its `RunEscalated` for ever
  (`RejectedRunIsOver`).
- Events are redacted before they are written, so they need not come back as they were appended:
  `RoundTripExactly` and `ReadAllReturnsRedacted` say exactly when they do.
- The human that a HUMAN_REQUIRED fallback names is always one the eligibility filter rejected
  (`FallbackMeaning`), and the hardware preflight's FAIL branch is never taken
  (`HardwarePreflight`).

## Model

| member | source | states |
|---|---|---|
| `RemoteJobs.RemoteJobHandle.constructor` | MEIZEX_ROUTER_WORKER/src/meizex_mrw/dispatch/executors/remote_ssh.py:69-76 | a fresh handle is not cancelled, started, captured or done and has no result |
| `RemoteJobs.RemoteJobHandle.MarkStarted` | MEIZEX_ROUTER_WORKER/src/meizex_mrw/dispatch/executors/remote_ssh.py:143-144 | only the started flag changes |
| `RemoteJobs.RemoteJobHandle.CaptureProc` | MEIZEX_ROUTER_WORKER/src/meizex_mrw/dispatch/executors/remote_ssh.py:139-141 | only the captured process changes |
| `RemoteJobs.RemoteJobHandle.Finish` | MEIZEX_ROUTER_WORKER/src/meizex_mrw/dispatch/executors/remote_ssh.py:146-148 | after it a poll returns exactly the published result |
| `RemoteJobs.RemoteJobHandle.PollResult` | MEIZEX_ROUTER_WORKER/src/meizex_mrw/dispatch/executors/remote_ssh.py:94-96 | an answer is the stored result of a job whose done flag is up, never one stored but not published; and with the invariant below, exactly the finished jobs answer |
| `RemoteJobs.RemoteJobHandle.Cancel` | MEIZEX_ROUTER_WORKER/src/meizex_mrw/dispatch/executors/remote_ssh.py:115-137 | raises the flag, and answers true exactly when a captured process of an unfinished job could be killed |
| `RemoteJobs.StepsAreHandleWrites` | MEIZEX_ROUTER_WORKER/src/meizex_mrw/dispatch/executors/remote_ssh.py:299-341 | every action of the transition system moves a handle by exactly the write of one handle method, made by its own worker or by a cancel call on it, and no other action touches it |
| `RemoteJobs.FinishIsTwoSteps` | MEIZEX_ROUTER_WORKER/src/meizex_mrw/dispatch/executors/remote_ssh.py:146-148 | storing the result and raising the flag, uninterrupted, is what `_finish` does to the handle |
| `RemoteJobs.CancelIsFourSteps` | MEIZEX_ROUTER_WORKER/src/meizex_mrw/dispatch/executors/remote_ssh.py:115-137 | a cancel call that nothing interrupts is always possible, raises the flag, changes nothing else and answers as the method does |
| `RemoteJobs.StepKeepsInvariant` | MEIZEX_ROUTER_WORKER/src/meizex_mrw/dispatch/executors/remote_ssh.py:299-341 | every atomic step of any worker or caller keeps the gate and handle invariant |
| `RemoteJobs.RunKeepsInvariant` | MEIZEX_ROUTER_WORKER/src/meizex_mrw/dispatch/executors/remote_ssh.py:299-341 | so does every interleaving, and no handle ever moves backwards |
| `RemoteJobs.ConcurrencyBound` | MEIZEX_ROUTER_WORKER/src/meizex_mrw/dispatch/executors/remote_ssh.py:211-215 | over every interleaving, free permits plus gate holders equal `max_concurrent` and at most that many jobs are started and not done |
| `RemoteJobs.ResultIsFinal` | MEIZEX_ROUTER_WORKER/src/meizex_mrw/dispatch/executors/remote_ssh.py:146-148 | a poll answers if and only if the done flag is up, and what it gives never changes, whatever runs afterwards |
| `RemoteJobs.CancelledWhileQueuedNeverStarts` | MEIZEX_ROUTER_WORKER/src/meizex_mrw/dispatch/executors/remote_ssh.py:321-341 | a job flagged before its worker reads the flag never starts, spawns or is captured, reports "cancelled before start", and no cancel call on it ever answers true |
| `RemoteJobs.CancelTrueMeansCaptured` | MEIZEX_ROUTER_WORKER/src/meizex_mrw/dispatch/executors/remote_ssh.py:115-137 | over every interleaving, a cancel that answered true names a started job whose process was captured |
| `RemoteJobs.SkippedExactlyWhenNotStarted` | MEIZEX_ROUTER_WORKER/src/meizex_mrw/dispatch/executors/remote_ssh.py:343-361 | a finished job reports "cancelled before start" if and only if it never started, and then it had been cancelled |
| `RemoteJobs.StepMeasure` | MEIZEX_ROUTER_WORKER/src/meizex_mrw/dispatch/executors/remote_ssh.py:321-341 | each worker action uses up work and only a submission adds any |
| `RemoteJobs.Progress` | MEIZEX_ROUTER_WORKER/src/meizex_mrw/dispatch/executors/remote_ssh.py:321-341 | no deadlock: while a worker has not exited some worker action is enabled |
| `RemoteJobs.WorkerActionsBounded` | MEIZEX_ROUTER_WORKER/src/meizex_mrw/dispatch/executors/remote_ssh.py:321-341 | the number of worker actions of a run is bounded by its submissions |
| `RemoteJobs.EveryJobFinishes` | MEIZEX_ROUTER_WORKER/src/meizex_mrw/dispatch/executors/remote_ssh.py:299-341 | a run stops making worker actions only when every job has exited with a result and every permit is back, and it must stop |
| `RemoteRuns.PublishedIsReturned` | MEIZEX_ROUTER_WORKER/src/meizex_mrw/dispatch/executors/remote_ssh.py:299-341 | over every interleaving, said on the actions of the run: the process of a job returns at most once; a poll answers with an outcome if and only if the job is done and its own process returned that one; with "cancelled before start" if and only if it is done and was never started; a started job that is done always has its outcome |
| `RemoteRuns.OutcomesAreActions` | MEIZEX_ROUTER_WORKER/src/meizex_mrw/dispatch/executors/remote_ssh.py:321-341 | those outcomes are the ones its own round trip or failed spawn brought, and no others |
| `RemoteRuns.HandleShowsRun` | MEIZEX_ROUTER_WORKER/src/meizex_mrw/dispatch/executors/remote_ssh.py:139-148 | each flag of a handle is up if and only if the run holds the action that raises it |
| `RemoteRuns.WorkersAreBounded` | MEIZEX_ROUTER_WORKER/src/meizex_mrw/dispatch/executors/remote_ssh.py:321-341 | a run holds at most nine actions of workers per submitted job |
| `RemoteRuns.StagesInOrder` | MEIZEX_ROUTER_WORKER/src/meizex_mrw/dispatch/executors/remote_ssh.py:299-341 | a job goes through its protocol in order: admitted, found not cancelled, started, spawned, captured, its outcome read, result stored, done raised, permit released |
| `RemoteRuns.AtMostRunning` | MEIZEX_ROUTER_WORKER/src/meizex_mrw/dispatch/executors/remote_ssh.py:211-215 | no set of different jobs that are started and not done is larger than `max_concurrent` |
| `Dispatcher.StepIdsDistinct` | MEIZEX_ROUTER_WORKER/src/meizex_mrw/dispatch/dispatcher.py:63-67 | step ids of one plan differ whatever the capability names are, also when a name ends in a dash and digits |
| `Dispatcher.SelectedExecutorRespectsBoundary` | MEIZEX_ROUTER_WORKER/src/meizex_mrw/dispatch/dispatcher.py:480-493 | an executor is found if and only if some registered one can handle the step within the process-boundary rule, and the one found can |
| `Dispatcher.SelectedIsFirstAble` | MEIZEX_ROUTER_WORKER/src/meizex_mrw/dispatch/dispatcher.py:480-493 | and it is the first in registration order that may and can handle the step |
| `Dispatcher.StepIdReads` | MEIZEX_ROUTER_WORKER/src/meizex_mrw/dispatch/dispatcher.py:63-67 | a step id is the capability with every other character replaced by a dash, or "step" without one, then a dash and the position |
| `Dispatcher.RefusalsFail` | MEIZEX_ROUTER_WORKER/src/meizex_mrw/dispatch/dispatcher.py:86-111 | an unknown token, a rejected response and an unroutable dispatch all end FAILED without an output, and change nothing but the token consumed |
| `Dispatcher.StopReads` | MEIZEX_ROUTER_WORKER/src/meizex_mrw/dispatch/dispatcher.py:288-370 | how a step that does not complete ends the loop: a failure with the step's own reason or a default one, an exhausted allowance with its limit as the reason, and otherwise one pause whose envelope holds the results, the output so far and the next count of escalations |
| `Dispatcher.PatchedOutput` | MEIZEX_ROUTER_WORKER/src/meizex_mrw/dispatch/dispatcher.py:433-439 | the patched last result is COMPLETED with the response's own answer as its text, or "Assistance provided." exactly when that is empty; it keeps its step id, executor kind and evidence, and gains the response's evidence with every VALIDATED lowered to FOUND_NOT_TESTED; all other results are untouched |
| `Dispatcher.ResourceDispatcher.EmitEvent` | MEIZEX_ROUTER_WORKER/src/meizex_mrw/dispatch/dispatcher.py:58-61 | appends one event to one run's stream and changes nothing else |
| `Dispatcher.ResourceDispatcher.Consume` | MEIZEX_ROUTER_WORKER/src/meizex_mrw/dispatch/store.py:48-51 | hands out the envelope and removes its token, or changes nothing when the token is unknown |
| `Dispatcher.ResourceDispatcher.ExecuteStep` | MEIZEX_ROUTER_WORKER/src/meizex_mrw/dispatch/dispatcher.py:176-286 | the attempt at a step whose opening event is out equals the specification: failed without an executor, in need of assistance when the resolver refuses, else what the selected executor answers to the step with its invocation filled in |
| `Dispatcher.ResourceDispatcher.ExecuteLoop` | MEIZEX_ROUTER_WORKER/src/meizex_mrw/dispatch/dispatcher.py:139-387 | the loop's results, status, output, events and saved envelope equal the recursive specification of a stretch |
| `Dispatcher.ResourceDispatcher.RunStretch` | MEIZEX_ROUTER_WORKER/src/meizex_mrw/dispatch/dispatcher.py:113-137 | a stretch with its opening event and its closing `RunCompleted` or pause, as the specification says |
| `Dispatcher.ResourceDispatcher.StopAt` | MEIZEX_ROUTER_WORKER/src/meizex_mrw/dispatch/dispatcher.py:193-387 | at a step that did not complete: the failure, the exhausted allowance or the pause, with its events, results and envelope as the specification says |
| `Dispatcher.ResourceDispatcher.Pause` | MEIZEX_ROUTER_WORKER/src/meizex_mrw/dispatch/dispatcher.py:325-370 | one envelope is saved under its token, and exactly the step's and the run's escalation are emitted |
| `Dispatcher.ResourceDispatcher.Dispatch` | MEIZEX_ROUTER_WORKER/src/meizex_mrw/dispatch/dispatcher.py:86-137 | new store, streams and result equal the dispatch specification |
| `Dispatcher.ResourceDispatcher.Continue` | MEIZEX_ROUTER_WORKER/src/meizex_mrw/dispatch/dispatcher.py:425-478 | an accepted resume closes the escalated step and runs the rest of the plan as the specification says |
| `Dispatcher.ResourceDispatcher.Resume` | MEIZEX_ROUTER_WORKER/src/meizex_mrw/dispatch/dispatcher.py:389-478 | new store, streams and result equal the resume specification, refused and rejected resumes included |
| `DispatchRuns.GrammarMeansLifecycle` | MEIZEX_ROUTER_WORKER/src/meizex_mrw/dispatch/dispatcher.py:157-378 | the stream automaton accepts exactly the lifecycle streams: each event follows the one before it as documented, a started step is closed or escalated at once under its index and id, a `StepEscalated` is followed by its `RunEscalated`, steps and escalations are numbered in order, and `RunCompleted` counts the steps |
| `DispatchRuns.StartsAndEndsOnce` | MEIZEX_ROUTER_WORKER/src/meizex_mrw/dispatch/dispatcher.py:86-137 | `RunStarted` opens a lifecycle stream and occurs once; nothing follows a `RunCompleted` |
| `DispatchRuns.ClosesOpened` | MEIZEX_ROUTER_WORKER/src/meizex_mrw/dispatch/dispatcher.py:157-378 | a closing event follows its `StepStarted` at once, or the escalation pair it caused |
| `DispatchRuns.EachStepClosesOnce` | MEIZEX_ROUTER_WORKER/src/meizex_mrw/dispatch/dispatcher.py:157-378 | in any lifecycle stream a step is closed exactly once when it is over, and not at all before |
| `DispatchRuns.StepsAtRest` | MEIZEX_ROUTER_WORKER/src/meizex_mrw/dispatch/dispatcher.py:157-378 | where a stream may rest, every started step has been closed exactly once, but for the one its pause is about |
| `DispatchRuns.LoopKeepsGrammar` | MEIZEX_ROUTER_WORKER/src/meizex_mrw/dispatch/dispatcher.py:139-387 | a stretch from any step boundary emits grammatical events and leaves results and envelope where the stream stands |
| `DispatchRuns.DispatchKeepsInv` | MEIZEX_ROUTER_WORKER/src/meizex_mrw/dispatch/dispatcher.py:86-137 | a dispatch keeps the invariant tying every waiting envelope to what its stream waits for |
| `DispatchRuns.TakingKeepsInv` | MEIZEX_ROUTER_WORKER/src/meizex_mrw/dispatch/store.py:48-51 | consuming a token keeps it, and no other envelope belongs to that run |
| `DispatchRuns.AcceptedStretch` | MEIZEX_ROUTER_WORKER/src/meizex_mrw/dispatch/dispatcher.py:433-478 | the stretch after an accepted response closes the escalated step and continues the stream grammatically |
| `DispatchRuns.ResumeKeepsInv` | MEIZEX_ROUTER_WORKER/src/meizex_mrw/dispatch/dispatcher.py:389-478 | a resume, accepted, rejected or with an unknown token, keeps it |
| `DispatchRuns.HistoryKeepsInv` | MEIZEX_ROUTER_WORKER/src/meizex_mrw/dispatch/dispatcher.py:86-478 | any history of dispatches and resumes of any number of runs keeps it |
| `DispatchRuns.StreamsFollowLifecycle` | MEIZEX_ROUTER_WORKER/src/meizex_mrw/dispatch/dispatcher.py:86-478 | over any history, every run's stream is a lifecycle stream that rests in `RunCompleted` or a pause, has closed each started step exactly once except the one it is paused at, and escalates at most `max_escalations` times |
| `DispatchRuns.EnvelopesAreConsistent` | MEIZEX_ROUTER_WORKER/src/meizex_mrw/dispatch/dispatcher.py:325-361 | every waiting envelope has `step_index + 1` results, all but the last completed, and its stream ends in the matching `RunEscalated` |
| `DispatchRuns.ConsumedStaysConsumed` | MEIZEX_ROUTER_WORKER/src/meizex_mrw/dispatch/store.py:40-51 | a token that has left the store never comes back |
| `DispatchRuns.ResumeSpendsToken` | MEIZEX_ROUTER_WORKER/src/meizex_mrw/dispatch/dispatcher.py:396-423 | a resume takes its token out of the store whether the response is accepted or not |
| `DispatchRuns.ResumeExtendsExactly` | MEIZEX_ROUTER_WORKER/src/meizex_mrw/dispatch/dispatcher.py:389-478 | resuming a pending token extends its run's stream if and only if the response is accepted, and changes no other run's stream |
| `DispatchRuns.RejectedRunIsOver` | MEIZEX_ROUTER_WORKER/src/meizex_mrw/dispatch/dispatcher.py:417-423 | after a rejected resume, whatever legal calls follow: the stream never changes again, still ends in its `RunEscalated`, holds no `RunCompleted`, and no envelope of the run is left |
| `DispatchRuns.TokenIsSingleUse` | MEIZEX_ROUTER_WORKER/src/meizex_mrw/dispatch/store.py:40-51 | after one resume with a token, every later one is refused and changes nothing, whatever happened in between |
| `DispatchRuns.LoopIsPass` | MEIZEX_ROUTER_WORKER/src/meizex_mrw/dispatch/dispatcher.py:139-387 | a stretch agrees with one uninterrupted fold over the plan up to the first step that needs help |
| `DispatchRuns.TryIsReference` | MEIZEX_ROUTER_WORKER/src/meizex_mrw/dispatch/dispatcher.py:176-286 | status and output of an attempt are those of a reading of the executor registry alone: the first executor able to take the step answers it, with its invocation resolved if it wants one |
| `DispatchRuns.DriveIsPass` | MEIZEX_ROUTER_WORKER/src/meizex_mrw/dispatch/dispatcher.py:389-478 | resuming with the remaining answers gives what the fold gives from there |
| `DispatchRuns.PausingChangesNothing` | MEIZEX_ROUTER_WORKER/src/meizex_mrw/dispatch/dispatcher.py:86-478 | a run with a NORMAL or DEGRADED route, paused any number of times up to the cap and resumed each time, has the step statuses, step outputs, final output and status of one uninterrupted fold over that reading, in which each escalated step completed with the text of its answer |
| `DependencyGraph.WalkDescends` | MEIZEX_AIR/src/meizex_air/bounded_execution.py:206-218 | along any dependency walk positions in a topological order strictly fall |
| `DependencyGraph.TopologicalMeansAcyclic` | MEIZEX_AIR/src/meizex_air/bounded_execution.py:206-218 | a topological order excludes every cycle |
| `DependencyGraph.DepthFirstSearch.Visit` | MEIZEX_AIR/src/meizex_air/bounded_execution.py:206-216 | a raise exhibits a real cycle, every node of which is then being visited; otherwise the node is visited and the visited nodes stay topologically ordered and closed |
| `DependencyGraph.DepthFirstSearch.Search` | MEIZEX_AIR/src/meizex_air/bounded_execution.py:217-218 | the whole search raises with a cycle of nodes being visited or ends with a topological order of every node |
| `DependencyGraph.KeysKnown` | MEIZEX_AIR/src/meizex_air/bounded_execution.py:190-192 | true exactly when every key is a known id |
| `DependencyGraph.BuildGraph` | MEIZEX_AIR/src/meizex_air/bounded_execution.py:190-201 | the adjacency lists, or an error only for an unknown reference or a self dependency |
| `DependencyGraph.ValidateTaskPlan` | MEIZEX_AIR/src/meizex_air/bounded_execution.py:174-222 | accepts if and only if ids are duplicate-free, references are known and the dependencies have no cycle, and then returns exactly the non-empty sorted adjacency |
| `PartitionPlan.CheckDependencies` | MEIZEX_AIR/src/meizex_air/workload_partitioning.py:106-113 | the shard graph, or an error only for a self dependency or a missing shard |
| `PartitionPlan.ValidateShards` | MEIZEX_AIR/src/meizex_air/workload_partitioning.py:101-130 | accepts if and only if shard ids are distinct, dependencies known and acyclic, with a topological order |
| `PartitionPlan.ReasonsForExact` | MEIZEX_AIR/src/meizex_air/workload_partitioning.py:191-200 | the reasons one evidence id adds are exactly its causes |
| `PartitionPlan.AssignShard` | MEIZEX_AIR/src/meizex_air/workload_partitioning.py:190-200 | one shard's evidence: who owns it afterwards, and exactly the reasons it gives rise to |
| `PartitionPlan.AssignEvidence` | MEIZEX_AIR/src/meizex_air/workload_partitioning.py:187-200 | all shards: the last shard that lists an id owns it, and the reasons are exactly the shared, unmapped and split ones |
| `PartitionPlan.CheckContradictions` | MEIZEX_AIR/src/meizex_air/workload_partitioning.py:202-219 | exactly one reason per unreconciled contradiction |
| `PartitionPlan.CollectUnsafeReasons` | MEIZEX_AIR/src/meizex_air/workload_partitioning.py:187-219 | no unsafe reason if and only if the split is sound |
| `PartitionPlan.MeasureShards` | MEIZEX_AIR/src/meizex_air/workload_partitioning.py:221-254 | the aggregate is the sum and the maximum the true maximum of input, output, overhead and margin per shard; all candidates fit exactly when each shard with candidates has an eligible one |
| `PartitionPlan.TotalReads` | MEIZEX_AIR/src/meizex_air/workload_partitioning.py:221-254 | the aggregate, added up shard by shard, is the whole input and output with overhead and margin paid once per shard |
| `PartitionPlan.EvidenceClean` | MEIZEX_AIR/src/meizex_air/workload_partitioning.py:190-200 | no evidence reason if and only if no id is in two shards and required provenance is atomic |
| `PartitionPlan.VerdictMeansReconciled` | MEIZEX_AIR/src/meizex_air/workload_partitioning.py:203-219 | a contradiction has no reason if and only if it lies in one shard or a named shard depends on both of its sides |
| `PartitionPlan.SoundMeansNoReason` | MEIZEX_AIR/src/meizex_air/workload_partitioning.py:256-272 | soundness is the absence of every unsafe reason |
| `PartitionPlan.Evaluate` | MEIZEX_AIR/src/meizex_air/workload_partitioning.py:166-272 | SAFE or SAFE_WITH_DEPENDENCIES if and only if metadata is complete, evidence unshared, provenance atomic and contradictions reconciled; SAFE exactly when nothing orders the shards either; every reported reason and no other; the aggregate is all input and output with overhead and margin once per shard; a fit is reported exactly when a shard names candidates |
| `PartitionPlan.ReconcilerRunsLast` | MEIZEX_AIR/src/meizex_air/workload_partitioning.py:203-219 | in any topological order the reconciling shard follows both sides |
| `ContextCompiler.SelectLatest` | MEIZEX_AIR/src/meizex_air/context_compiler.py:264-286 | the selected dependency checkpoints, or the mission-mismatch error, as the specification says |
| `ContextCompiler.SelectChoosesFirstLatest` | MEIZEX_AIR/src/meizex_air/context_compiler.py:264-286 | the checkpoint selected for a declared dependency is the earliest of those with the highest version |
| `ContextCompiler.SelectionOrderFreeExactly` | MEIZEX_AIR/src/meizex_air/context_compiler.py:264-286 | selection ignores the supplied order if and only if no dependency has two different latest checkpoints |
| `ContextCompiler.PackKeepsOk` | MEIZEX_AIR/src/meizex_air/context_compiler.py:328-368 | after any candidates the total is the core plus the included items, within budget; nothing left out would still fit; nothing is included twice |
| `ContextCompiler.PackConcat` | MEIZEX_AIR/src/meizex_air/context_compiler.py:371-406 | packing tier after tier is packing their concatenation |
| `ContextCompiler.PackExtends` | MEIZEX_AIR/src/meizex_air/context_compiler.py:371-406 | later candidates only append |
| `ContextCompiler.OmissionCountsExact` | MEIZEX_AIR/src/meizex_air/context_compiler.py:328-368 | an omission counter counts exactly the candidate occurrences that are not included |
| `ContextCompiler.Packer.Add` | MEIZEX_AIR/src/meizex_air/context_compiler.py:328-368 | one `_try_add_*` call equals one step of the specification |
| `ContextCompiler.Packer.AddAll` | MEIZEX_AIR/src/meizex_air/context_compiler.py:371-376 | a sorted list of candidates in order |
| `ContextCompiler.FillTiers` | MEIZEX_AIR/src/meizex_air/context_compiler.py:371-406 | the three tiers in order: own items, passed dependencies, the others |
| `ContextCompiler.CompileContext` | MEIZEX_AIR/src/meizex_air/context_compiler.py:245-450 | the imperative compilation equals the specification, error cases included |
| `ContextProperties.ContextAccounts` | MEIZEX_AIR/src/meizex_air/context_compiler.py:301-450 | the reported total is the core plus exactly the included items and at most the budget; every missing candidate would overflow the finished context; lists are sorted and duplicate-free; counters are exact |
| `ContextProperties.TruncationExact` | MEIZEX_AIR/src/meizex_air/context_compiler.py:419-420 | truncation is reported if and only if some non-empty candidate is missing |
| `ContextProperties.TierDecidesItsOwn` | MEIZEX_AIR/src/meizex_air/context_compiler.py:371-406 | what a tier includes does not depend on any later tier |
| `ContextPriority.OwnPriority` | MEIZEX_AIR/src/meizex_air/context_compiler.py:310-376 | of whole compilations: a text of the sprint's own facts, questions or evidence is included if and only if it is with everything of lower priority taken away, and missing only if it does not fit beside that |
| `ContextPriority.OwnAlone` | MEIZEX_AIR/src/meizex_air/context_compiler.py:310-376 | so no dependency, passed or failed, ever displaces or admits one of the sprint's own texts |
| `ContextPriority.PassedPriority` | MEIZEX_AIR/src/meizex_air/context_compiler.py:378-386 | content of a passed dependency is included if and only if it is with no failed dependency and no later passed one declared, and missing only if it does not fit beside theirs and the sprint's own |
| `ContextPriority.FailedPriority` | MEIZEX_AIR/src/meizex_air/context_compiler.py:388-406 | what is said of a failed dependency comes last, in the order of the ids, under the same equivalence |
| `ContextPriority.ContentIsOffered` | MEIZEX_AIR/src/meizex_air/context_compiler.py:371-406 | a text of the context is the sprint's own, or offered by a declared dependency that passed, or said of one that did not |
| `ContextPriority.HeadIsComplete` | MEIZEX_AIR/src/meizex_air/context_compiler.py:408-435 | the mandatory part is complete and every dependency is referred to with the version chosen, in the order of the ids |
| `ContextPriority.RefusedExactly` | MEIZEX_AIR/src/meizex_air/context_compiler.py:253-305 | each of the four errors if and only if its demand is the first that fails |
| `ContextPriority.EstimateReads` | MEIZEX_AIR/src/meizex_air/context_compiler.py:80-90 | an estimate is the number of whole groups of four characters, and one for any shorter text |
| `ContextProperties.FactsAreAdmissible` | MEIZEX_AIR/src/meizex_air/context_compiler.py:371-386 | every included fact is the sprint's own or comes from a dependency checkpoint that passed |
| `ContextProperties.CompileCanon` | MEIZEX_AIR/src/meizex_air/context_compiler.py:245-450 | compiling sees only the sorted forms of the lists it is given |
| `ContextProperties.CompileOrderFree` | MEIZEX_AIR/src/meizex_air/context_compiler.py:245-450 | the same result for every order of the checkpoints and of every input list, whenever the latest checkpoints are unambiguous |
| `ContextProperties.DistinctVersionsUnambiguous` | MEIZEX_AIR/src/meizex_air/context_compiler.py:264-286 | checkpoints with distinct (sprint, version) pairs are unambiguous |
| `EventLog.EventStore.Append` | MEIZEX_ROUTER_WORKER/src/meizex_mrw/events/store.py:61-65 | the file grows by exactly one encoded line |
| `EventLog.EventStore.ReadFrom` | MEIZEX_ROUTER_WORKER/src/meizex_mrw/events/store.py:71-109 | equals the read specification for every offset, also past the end or on a missing file |
| `EventLog.EventStore.WholeLines` | MEIZEX_ROUTER_WORKER/src/meizex_mrw/events/store.py:92-97 | the longest prefix that ends in a newline |
| `EventLog.EventStore.DecodePieces` | MEIZEX_ROUTER_WORKER/src/meizex_mrw/events/store.py:98-108 | blank and unknown lines are skipped, a malformed one fails the read |
| `EventLog.EventsConcat` | MEIZEX_ROUTER_WORKER/src/meizex_mrw/events/store.py:98-108 | the events of whole lines followed by more are the events of each, in order |
| `EventLog.ReadFromBoundary` | MEIZEX_ROUTER_WORKER/src/meizex_mrw/events/store.py:71-109 | a read at a line boundary delivers exactly the whole lines after it |
| `EventLog.RunKeepsOk` | MEIZEX_ROUTER_WORKER/src/meizex_mrw/events/store.py:61-109 | over any interleaving of writes, also of half lines, and reads, the offset is a line boundary and what was delivered is the events before it |
| `EventLog.CursorReadsAreFaithful` | MEIZEX_ROUTER_WORKER/src/meizex_mrw/events/store.py:61-109 | and one more read delivers exactly the complete-line prefix of the file: nothing lost, repeated or reordered |
| `EventLog.WrittenEvents` | MEIZEX_ROUTER_WORKER/src/meizex_mrw/events/store.py:61-69 | a file of appended events holds whole lines, and its events are what each appended line reads back as |
| `EventLog.ReadAllReturnsWritten` | MEIZEX_ROUTER_WORKER/src/meizex_mrw/events/store.py:61-69 | `read_all` after any number of appends returns what each line reads back as, in order, and fails exactly when one cannot be decoded |
| `EventLog.RoundTripExactly` | MEIZEX_ROUTER_WORKER/src/meizex_mrw/events/store.py:61-69 | the appended events come back unchanged if and only if each one's own line reads back as the event itself |
| `EventLog.StripExactly` | MEIZEX_ROUTER_WORKER/src/meizex_mrw/events/store.py:98-101 | stripping removes white space at both ends and nothing else |
| `EventLog.ReadAllReturnsRedacted` | MEIZEX_ROUTER_WORKER/src/meizex_mrw/events/store.py:61-69 | with a redaction that leaves events readable, `read_all` returns the redacted events in order, and the appended ones if and only if each is a fixed point of the redaction |
| `CheckpointStore.PathsIdentifyKeys` | MEIZEX_AIR/src/meizex_air/bounded_execution_store.py:158-194 | distinct valid keys have distinct paths |
| `CheckpointStore.PathExactly` | MEIZEX_AIR/src/meizex_air/bounded_execution_store.py:158-189 | a key has a path if and only if the version is positive and both ids, trimmed, are one plain segment; the path is made of those |
| `CheckpointStore.OrdinaryKey` | MEIZEX_AIR/src/meizex_air/bounded_execution_store.py:158-189 | ids of letters, digits, dashes, underscores and inner dots are valid from version 1 on, whatever spaces surround them |
| `CheckpointStore.CheckpointIsNotTemp` | MEIZEX_AIR/src/meizex_air/bounded_execution_store.py:196-222 | a temporary name is never a checkpoint path |
| `CheckpointStore.ReadersSeeNothingOrAll` | MEIZEX_AIR/src/meizex_air/bounded_execution_store.py:396-416 | at any reachable disk a load finds nothing or the complete record of its key |
| `CheckpointStore.LoadExactly` | MEIZEX_AIR/src/meizex_air/bounded_execution_store.py:396-416 | a load gives a record if and only if that record is published under the key; an error is not-found for a valid key and says that no record is published |
| `CheckpointStore.LoadChecksExactly` | MEIZEX_AIR/src/meizex_air/bounded_execution_store.py:396-416 | on any files whatever: a load succeeds if and only if the file is an envelope of the right version and type whose digest, and fingerprint if it has one, are those of its record; each other file is refused by name |
| `CheckpointStore.StepKeepsDisk` | MEIZEX_AIR/src/meizex_air/bounded_execution_store.py:196-222 | every step of a save, a crash between steps and a clean-up keeps the disk sound |
| `CheckpointStore.PublishedNeverChanges` | MEIZEX_AIR/src/meizex_air/bounded_execution_store.py:375-394 | over any sequence of saves, steps and crashes a published record keeps its content |
| `CheckpointStore.LoadIsStable` | MEIZEX_AIR/src/meizex_air/bounded_execution_store.py:396-416 | so a load that once succeeded returns the same record for ever |
| `CheckpointStore.SaveDecision` | MEIZEX_AIR/src/meizex_air/bounded_execution_store.py:375-394 | a save writes, is a repeat, or is refused exactly as the stored record says, and a refusal leaves the store unchanged |
| `CheckpointStore.SaveThenLoad` | MEIZEX_AIR/src/meizex_air/bounded_execution_store.py:375-416 | a saved record loads back as it was |
| `CheckpointStore.AbandonedSave` | MEIZEX_AIR/src/meizex_air/bounded_execution_store.py:196-222 | a save that fails takes back all it wrote; one that crashes leaves its temporary file with what had reached it; nothing else changes |
| `CheckpointStore.BoundedExecutionStore.LoadCheckpoint` | MEIZEX_AIR/src/meizex_air/bounded_execution_store.py:396-416 | the load specification on any files; on sound ones the answer is the one record published under the key, not-found if and only if there is none, and invalid if and only if the key is |
| `CheckpointStore.BoundedExecutionStore.SaveCheckpoint` | MEIZEX_AIR/src/meizex_air/bounded_execution_store.py:375-394 | stores exactly the new record, or changes nothing when it is a repeat, refused, or the write fails |
| `CheckpointStore.BoundedExecutionStore.ListCheckpointVersions` | MEIZEX_AIR/src/meizex_air/bounded_execution_store.py:418-430 | exactly the published versions, ascending and once each |
| `CheckpointStore.BoundedExecutionStore.LoadLatestCheckpoint` | MEIZEX_AIR/src/meizex_air/bounded_execution_store.py:432-440 | the maximum published version, or not-found exactly when there is none |
| `CheckpointStore.FileVersion` | MEIZEX_AIR/src/meizex_air/bounded_execution_store.py:418-430 | the number in a checkpoint file's name is the version of the key stored there |
| `ToolHistory.WindowAppend` | MEIZEX_ROUTER_WORKER/src/meizex_mrw/context_builder.py:124-158 | trimming after every turn keeps what trimming once at the end would keep |
| `ToolHistory.ContextBuilder.Build` | MEIZEX_ROUTER_WORKER/src/meizex_mrw/context_builder.py:54-80 | a history without blocks: system message, then user message |
| `ToolHistory.ContextBuilder.AppendUserNote` | MEIZEX_ROUTER_WORKER/src/meizex_mrw/context_builder.py:119-122 | one user message at the end |
| `ToolHistory.ContextBuilder.ToolResults` | MEIZEX_ROUTER_WORKER/src/meizex_mrw/context_builder.py:109-115 | one tool message per call with its id, in order: a result that fits is sent unchanged, a longer one as its beginning and the marker; and the count of cut texts |
| `ToolHistory.ContextBuilder.AppendToolTurn` | MEIZEX_ROUTER_WORKER/src/meizex_mrw/context_builder.py:82-117 | the trimmed list for any message list |
| `ToolHistory.ContextBuilder.TrimToolHistory` | MEIZEX_ROUTER_WORKER/src/meizex_mrw/context_builder.py:124-158 | equals the trimming specification |
| `ToolHistory.ContextBuilder.GroupMessages` | MEIZEX_ROUTER_WORKER/src/meizex_mrw/context_builder.py:130-144 | splits the messages into the specified groups |
| `ToolHistory.GroupsRead` | MEIZEX_ROUTER_WORKER/src/meizex_mrw/context_builder.py:130-144 | the groups of any message list are that list, each an assistant message with calls and the tool messages after it or one other message, and no turn is parted from a tool message that follows it |
| `ToolHistory.ContextBuilder.EndOfGroup` | MEIZEX_ROUTER_WORKER/src/meizex_mrw/context_builder.py:133-144 | an assistant message with calls takes all tool messages after it |
| `ToolHistory.ContextBuilder.KeepGroups` | MEIZEX_ROUTER_WORKER/src/meizex_mrw/context_builder.py:145-158 | everything except the oldest turn groups |
| `ToolHistory.GroupsOfBlocks` | MEIZEX_ROUTER_WORKER/src/meizex_mrw/context_builder.py:130-144 | a coherent history is grouped exactly into its notes and whole turns |
| `ToolHistory.KeepOfBlocks` | MEIZEX_ROUTER_WORKER/src/meizex_mrw/context_builder.py:145-158 | dropping groups of a coherent history drops exactly whole oldest turns |
| `ToolHistory.TrimmedHistory` | MEIZEX_ROUTER_WORKER/src/meizex_mrw/context_builder.py:124-158 | trimming a coherent history gives the history of its window: every note, the latest turns, nothing torn |
| `ToolHistory.WindowIsVisible` | MEIZEX_ROUTER_WORKER/src/meizex_mrw/context_builder.py:124-158 | the window is what one sees reading from the end: every note, and turns until the allowed number is reached |
| `ToolHistory.HistoryIsVisible` | MEIZEX_ROUTER_WORKER/src/meizex_mrw/context_builder.py:54-158 | the messages of a windowed history are the instruction, the request and the messages of what is visible |
| `WorkerLoop.Worker.RunCall` | MEIZEX_ROUTER_WORKER/src/meizex_mrw/worker/engine.py:764-848 | a tool runs if and only if it was selected, is in the catalog, is read-only and has no shell capability; the text is its answer or the block message |
| `WorkerLoop.Worker.RunCalls` | MEIZEX_ROUTER_WORKER/src/meizex_mrw/worker/engine.py:749-848 | the texts are, call by call and in order, the block message or what the tool answered, and exactly the permitted calls reached the server |
| `WorkerLoop.Worker.ToolRound` | MEIZEX_ROUTER_WORKER/src/meizex_mrw/worker/engine.py:742-850 | a round adds exactly the turn of these calls with their clipped results, and the message list is again the windowed history |
| `WorkerLoop.Worker.Run` | MEIZEX_ROUTER_WORKER/src/meizex_mrw/worker/engine.py:517-850 | for any provider, tools and checks: at most limit + max_retries + 1 inferences; each request is the system and user messages and the window of the conversation so far; the conversation grows by exactly the turn of the calls the provider asked for with their results, or the note of the check that failed; the outcome is that of the last reply |
| `WorkerLoop.Worker.TurnIsDetermined` | MEIZEX_ROUTER_WORKER/src/meizex_mrw/worker/engine.py:517-850 | no two different traces or outcomes satisfy that contract |
| `WorkerLoop.Worker.OnlyPermittedToolsRun` | MEIZEX_ROUTER_WORKER/src/meizex_mrw/worker/engine.py:764-790 | every call that reached a tool server was asked for by the model and permitted; without selected tools none did |
| `WorkerLoop.Worker.UnauditedAnswersAreAccepted` | MEIZEX_ROUTER_WORKER/src/meizex_mrw/worker/engine.py:624-690 | an answer no auditor gave is the last reply's, and the checks accepted it with all tool results of the turn at hand |
| `WorkerLoop.NoteAdded` | MEIZEX_ROUTER_WORKER/src/meizex_mrw/worker/engine.py:675-680 | a retry note extends the history by itself |
| `WorkerLoop.TurnAdded` | MEIZEX_ROUTER_WORKER/src/meizex_mrw/worker/engine.py:850 | a tool turn extends the windowed history by itself |
| `WorkerLoop.Worker.SentWindowsAreBounded` | MEIZEX_ROUTER_WORKER/src/meizex_mrw/worker/engine.py:517-850 | the i-th request is the one the first i blocks call for, and holds at most `max_tool_result_turns` turns |
| `WorkerTrace.TurnReads` | MEIZEX_ROUTER_WORKER/src/meizex_mrw/worker/engine.py:517-850 | a finished turn read from outside, without the model's own text or trimming functions: what each request carried; that each round answered exactly the calls the provider asked for, an unblocked one with what the tool said or its beginning and the marker; which notes were sent back; which reply ended the turn and how |
| `WorkerTrace.RequestsBounded` | MEIZEX_ROUTER_WORKER/src/meizex_mrw/worker/engine.py:517-850 | a turn makes at most one request per allowed tool round, one per allowed retry, and a last one |
| `WorkerTrace.ExecutionsAreRead` | MEIZEX_ROUTER_WORKER/src/meizex_mrw/worker/engine.py:764-848 | every call is recorded in order: a permitted one with the tool's own answer, any other as not run |
| `WorkerTrace.UsedExactly` | MEIZEX_ROUTER_WORKER/src/meizex_mrw/worker/engine.py:749-850 | a tool is reported as used if and only if a call of it succeeded, once each |
| `CodeTracer.Tracer.RunBody` | MEIZEX_ROUTER_WORKER/src/meizex_mrw/deterministic_code_trace.py:75-77 | environment, output and fault equal the body specification |
| `CodeTracer.Tracer.RunStmt` | MEIZEX_ROUTER_WORKER/src/meizex_mrw/deterministic_code_trace.py:79-112 | the same for one statement |
| `CodeTracer.Tracer.RunLoop` | MEIZEX_ROUTER_WORKER/src/meizex_mrw/deterministic_code_trace.py:107-110 | the same for the iterations of a for statement |
| `CodeTracer.RangeValuesExact` | MEIZEX_ROUTER_WORKER/src/meizex_mrw/deterministic_code_trace.py:107-110 | the values of a range in closed form: the i-th is start + i * step, and there are as many as lie before the stop in the direction of the step |
| `TracerCode.EvalRunsCode` | MEIZEX_ROUTER_WORKER/src/meizex_mrw/deterministic_code_trace.py:128-145 | an expression evaluates to what its postfix code leaves on a stack machine, operands left to right, or fails as that does |
| `TracerCode.EvalBoolRunsCode` | MEIZEX_ROUTER_WORKER/src/meizex_mrw/deterministic_code_trace.py:114-126 | a test is decided as its code is: a comparison of the left with the right operand, or the truth of a value |
| `TracerCode.JoinTextsReads` | MEIZEX_ROUTER_WORKER/src/meizex_mrw/deterministic_code_trace.py:86-92 | a printed line is the texts of its values in order with one blank between any two |
| `TracerFaults.NeverRaisesExactly` | MEIZEX_ROUTER_WORKER/src/meizex_mrw/deterministic_code_trace.py:148-164 | for any part of Python's operators that is known: `compute` raises under no operators that agree with it if and only if tracing with that part alone does not raise, and then the result is the same |
| `TracerFaults.SafeForAllOperatorsExactly` | MEIZEX_ROUTER_WORKER/src/meizex_mrw/deterministic_code_trace.py:148-164 | nothing being known, `compute` never raises if and only if the program gets through, or out of the subset, before it applies an operator |
| `TracerFaults.CheckedProgramsAreSafe` | MEIZEX_ROUTER_WORKER/src/meizex_mrw/deterministic_code_trace.py:148-164 | a program that runs through in integer, text and list operations without division gives that result in Python and does not raise |
| `TracerFaults.HarmlessProgramsAreSafe` | MEIZEX_ROUTER_WORKER/src/meizex_mrw/deterministic_code_trace.py:75-145 | a condition on the program text alone under which `compute` never raises |
| `TracerFaults.ExpressionSafeExactly` | MEIZEX_ROUTER_WORKER/src/meizex_mrw/deterministic_code_trace.py:128-145 | an expression of the subset with its names bound evaluates without raising under all operators if and only if it applies none |
| `TracerFaults.ComputeCanRaise` | MEIZEX_ROUTER_WORKER/src/meizex_mrw/deterministic_code_trace.py:148-164 | the documentation says it never raises; a concrete program that does |
| `TracerSemantics.TracerComputesReference` | MEIZEX_ROUTER_WORKER/src/meizex_mrw/deterministic_code_trace.py:63-145 | for every program tracing ends, and its environment, printed lines or fault are those of the small-step reference on the program without its for-else blocks |
| `TracerSemantics.ArrivalUnique` | MEIZEX_ROUTER_WORKER/src/meizex_mrw/deterministic_code_trace.py:75-112 | the reference machine arrives at one final state only |
| `TracerSemantics.ElseFreeUnchanged` | MEIZEX_ROUTER_WORKER/src/meizex_mrw/deterministic_code_trace.py:101-110 | a program equals its form without for-else blocks if and only if it has none |
| `TracerSemantics.TracerIsReference` | MEIZEX_ROUTER_WORKER/src/meizex_mrw/deterministic_code_trace.py:63-145 | without for-else blocks the tracer is the reference semantics |
| `TracerSemantics.ForElseIsDropped` | MEIZEX_ROUTER_WORKER/src/meizex_mrw/deterministic_code_trace.py:101-110 | a concrete program whose for-else block Python runs and the tracer drops |
| `TracerElse.StepInStep` | MEIZEX_ROUTER_WORKER/src/meizex_mrw/deterministic_code_trace.py:101-110 | one step of the reference keeps pace with its form without for-else blocks if and only if it does not enter such a block |
| `TracerElse.InStepExactly` | MEIZEX_ROUTER_WORKER/src/meizex_mrw/deterministic_code_trace.py:101-110 | reference and traced form go step by step together for exactly as long as no for-else block is entered |
| `TracerElse.UnenteredElseIsHarmless` | MEIZEX_ROUTER_WORKER/src/meizex_mrw/deterministic_code_trace.py:63-145 | a reference run that never enters a for-else block ends in what the tracer computes, whatever blocks the program has |
| `TracerSemantics.SimStmt` | MEIZEX_ROUTER_WORKER/src/meizex_mrw/deterministic_code_trace.py:79-112 | one statement of the tracer is some number of reference steps |
| `TracerSemantics.SimLoop` | MEIZEX_ROUTER_WORKER/src/meizex_mrw/deterministic_code_trace.py:107-110 | so is a loop with its remaining values |
| `TracerSemantics.LoopIsUnrolling` | MEIZEX_ROUTER_WORKER/src/meizex_mrw/deterministic_code_trace.py:107-110 | a loop is its unrolling with the values fixed at entry, whatever the body assigns |
| `TracerSemantics.ForIsUnrolling` | MEIZEX_ROUTER_WORKER/src/meizex_mrw/deterministic_code_trace.py:101-110 | a for statement over a range is its body for start, start + step, ... as long as that lies before the stop, the variable set before each pass, whatever the body assigns |
| `TracerSemantics.BodyGrows` | MEIZEX_ROUTER_WORKER/src/meizex_mrw/deterministic_code_trace.py:86-92 | output is only appended to and no name disappears |
| `CapabilityRouter.GateMatchesDispatcher` | MEIZEX_ROUTER_WORKER/src/meizex_mrw/capabilities/executor_compat.py:36-69 | with the four standard executors registered in any order, the dispatcher finds an executor for a step if and only if the router's gate admits it |
| `CapabilityRouter.StricterPolicyWins` | MEIZEX_ROUTER_WORKER/src/meizex_mrw/capabilities/router.py:70-80 | the combined validation policy admits a level if and only if requirement and profile both do |
| `CapabilityRouter.GuardedAdmission` | MEIZEX_ROUTER_WORKER/src/meizex_mrw/capabilities/router.py:100-154 | without a location and hardware constraints, admission is exactly the cloud, kind, modality, validation and executor gates |
| `CapabilityRouter.ValidationGateExact` | MEIZEX_ROUTER_WORKER/src/meizex_mrw/capabilities/router.py:140-144 | every resource admitted at a location meets the validation policy if and only if the chain reaches its test there or the policy demands nothing |
| `CapabilityRouter.ModalityGateExact` | MEIZEX_ROUTER_WORKER/src/meizex_mrw/capabilities/router.py:130-138 | the same for the input modality |
| `CapabilityRouter.ExecutorGateExact` | MEIZEX_ROUTER_WORKER/src/meizex_mrw/capabilities/router.py:146-154 | every resource admitted at a location has a compatible executor if and only if the chain reaches its test there or only kinds that are compatible by themselves are allowed |
| `CapabilityRouter.LocalResourceEvades` | MEIZEX_ROUTER_WORKER/src/meizex_mrw/capabilities/router.py:106-107 | a concrete resource marked local is admitted against all three gates |
| `CapabilityRouter.Rank` | MEIZEX_ROUTER_WORKER/src/meizex_mrw/capabilities/ranking.py:118-156 | sorted by the rank key, stably, with ranks numbered in place |
| `CapabilityRouter.ResolveCandidates` | MEIZEX_ROUTER_WORKER/src/meizex_mrw/capabilities/router.py:62-185 | exactly the admitted candidates and the exclusions with their reasons, in registry order |
| `CapabilityRouter.ChoiceIsBestAvailable` | MEIZEX_ROUTER_WORKER/src/meizex_mrw/capabilities/router.py:238-250 | the choice is the earliest of the least available candidates under the rank key, and there is none exactly when none is available |
| `CapabilityRouter.ChoiceHasBestEvidence` | MEIZEX_ROUTER_WORKER/src/meizex_mrw/capabilities/ranking.py:129-151 | no available candidate has better evidence than the choice |
| `CapabilityChoice.KeyIsOrder` | MEIZEX_ROUTER_WORKER/src/meizex_mrw/capabilities/ranking.py:104-151 | the sort key orders two candidates if and only if the criteria do, taken one by one on their fields: evidence, preferred kind, specialised kind, locality, availability, cost and quality under the economy, id |
| `CapabilityChoice.NothingBeatsChoice` | MEIZEX_ROUTER_WORKER/src/meizex_mrw/capabilities/ranking.py:118-156 | no available candidate is ahead of the choice on the first criterion on which they differ |
| `CapabilityChoice.RankingIsOrder` | MEIZEX_ROUTER_WORKER/src/meizex_mrw/capabilities/ranking.py:118-156 | in the whole ranking no candidate is ahead of one placed before it, and each carries its place |
| `CapabilityChoice.RemovalReads` | MEIZEX_ROUTER_WORKER/src/meizex_mrw/capabilities/router.py:62-185 | each reason of removal if and only if its condition on location, cloud and grid leave, kind, hardware, modality, evidence or executor holds and none before it |
| `CapabilityChoice.RuntimeReads` | MEIZEX_ROUTER_WORKER/src/meizex_mrw/capabilities/ranking.py:76-78 | a runtime counts as present if and only if none of the three phrases stands in its description |
| `CapabilityChoice.TiersRead` | MEIZEX_ROUTER_WORKER/src/meizex_mrw/capabilities/ranking.py:42-73 | a candidate's cost and quality tier by its kind |
| `CapabilityRouter.Consider` | MEIZEX_ROUTER_WORKER/src/meizex_mrw/capabilities/router.py:220-273 | one pass of the requirement loop |
| `CapabilityRouter.RouteMission` | MEIZEX_ROUTER_WORKER/src/meizex_mrw/capabilities/router.py:194-330 | the whole route equals the specification |
| `CapabilityRouter.WalkFlags` | MEIZEX_ROUTER_WORKER/src/meizex_mrw/capabilities/router.py:217-255 | the failure flags and degradations record exactly the requirements that fail or degrade |
| `CapabilityRouter.WalkTakers` | MEIZEX_ROUTER_WORKER/src/meizex_mrw/capabilities/router.py:257-273 | each step is what the first requirement choosing its resource asked for |
| `CapabilityRouter.StatusMeaning` | MEIZEX_ROUTER_WORKER/src/meizex_mrw/capabilities/router.py:277-314 | each route status in terms of the requirements alone: which lack an executor, a resource, or their best known one |
| `CapabilityRouter.PlanIsComplete` | MEIZEX_ROUTER_WORKER/src/meizex_mrw/capabilities/router.py:277-314 | a plan is emitted exactly for NORMAL or DEGRADED, has distinct resources and holds the choice of every required requirement |
| `CapabilityRouter.PlanIsAvailable` | MEIZEX_ROUTER_WORKER/src/meizex_mrw/capabilities/router.py:238-273 | every step of every plan, guarded or not, uses a resource that the filter admitted for the requirement it serves and whose runtime is present |
| `CapabilityChoice.PlanReads` | MEIZEX_ROUTER_WORKER/src/meizex_mrw/capabilities/router.py:194-330 | every step of every plan names the capability of its requirement and a resource found for it whose runtime is present and whose place is allowed: in the cloud only if the requirement and a profile that is not local-only allow it, on the grid only with leave; it names the best known resource, and why the two differ where they do |
| `CapabilityChoice.ModelNeedReads` | MEIZEX_ROUTER_WORKER/src/meizex_mrw/capabilities/ranking.py:159-161 | the route says that it needs a language model if and only if a step of its plan is one |
| `CapabilityChoice.ExclusionsRead` | MEIZEX_ROUTER_WORKER/src/meizex_mrw/capabilities/router.py:156-185 | a route reports exactly the resources removed for one of its requirements, each with its reason and capability, whatever its status |
| `CapabilityChoice.DegradationsRead` | MEIZEX_ROUTER_WORKER/src/meizex_mrw/capabilities/router.py:238-262 | and, with a plan, exactly the reasons why a requirement runs with less than its best known resource |
| `CapabilityRouter.PlanIsExecutable` | MEIZEX_ROUTER_WORKER/src/meizex_mrw/capabilities/router.py:146-154 | where every looked-up resource is guarded, the dispatcher finds an executor for every step of every plan, and its resource is available and meets the policy |
| `SpecialistRouter.HardwarePreflight` | MEIZEX_AIR/src/meizex_air/execution_profiles.py:126-154 | the preflight never answers FAIL, so its rejection is never made |
| `SpecialistRouter.EligibilityReasons` | MEIZEX_AIR/src/meizex_air/specialist_router.py:361-453 | the reasons in first-seen order, each once |
| `SpecialistRouter.ReasonsExact` | MEIZEX_AIR/src/meizex_air/specialist_router.py:361-453 | a reason is listed if and only if its cause holds; none is listed exactly for an eligible specialist |
| `SpecialistRouter.Screen` | MEIZEX_AIR/src/meizex_air/specialist_router.py:526-543 | eligible, human and ineligible specialists with the rejections |
| `SpecialistRouter.RouteSpecialist` | MEIZEX_AIR/src/meizex_air/specialist_router.py:493-597 | the decision equals the specification |
| `SpecialistRouter.SelectionIsWinner` | MEIZEX_AIR/src/meizex_air/specialist_router.py:545-571 | with distinct ids a specialist is selected if and only if it is the least eligible one, and some is selected exactly when one is eligible |
| `SpecialistChoice.SelectedIsAhead` | MEIZEX_AIR/src/meizex_air/specialist_router.py:461-486 | a specialist is selected if and only if it is eligible and ahead of every other eligible one: deterministic code first unless judgement is asked for, then a preferred kind, priority, cost, latency, id |
| `SpecialistRouter.SelectionSurvives` | MEIZEX_AIR/src/meizex_air/specialist_router.py:545-571 | the selection survives removing any other specialist, adding any ineligible one and any reordering |
| `SpecialistRouter.DecisionOrderFree` | MEIZEX_AIR/src/meizex_air/specialist_router.py:493-597 | the whole decision is the same for every order of the registry |
| `SpecialistRouter.ConfidenceMeaning` | MEIZEX_AIR/src/meizex_air/specialist_router.py:548-556 | AMBIGUOUS if and only if another eligible specialist ties on every criterion but the id; DETERMINISTIC if and only if there is only one |
| `SpecialistChoice.CertaintyReads` | MEIZEX_AIR/src/meizex_air/specialist_router.py:548-556 | the three confidences by whether another eligible specialist exists and differs in anything but the id |
| `SpecialistChoice.ListsRead` | MEIZEX_AIR/src/meizex_air/specialist_router.py:526-571 | with distinct ids: the eligible are listed where one was selected, all others always, each of these with exactly the reasons that hold of it |
| `SpecialistRouter.FallbackMeaning` | MEIZEX_AIR/src/meizex_air/specialist_router.py:573-597 | without an eligible specialist the outcome is policy alone, and a human it names is the least by id and one the filter rejected |
| `AcceptanceValidator.DependencyCheckExact` | MEIZEX_AIR/src/meizex_air/acceptance_validator.py:349-381 | the check passes if and only if the last supplied checkpoint of every declared dependency passed |
| `AcceptanceValidator.ValidateCheckpoint` | MEIZEX_AIR/src/meizex_air/acceptance_validator.py:389-450 | checks, failed checks and warnings equal the specification |
| `AcceptanceValidator.Sift` | MEIZEX_AIR/src/meizex_air/acceptance_validator.py:425-434 | exactly the blocking required checks, and exactly the blocking optional ones, in order |
| `AcceptanceValidator.AcceptedMeansRequiredPass` | MEIZEX_AIR/src/meizex_air/acceptance_validator.py:425-437 | accepted if and only if every required check passed |
| `AcceptanceValidator.AcceptedExactly` | MEIZEX_AIR/src/meizex_air/acceptance_validator.py:389-450 | accepted if and only if the checkpoint meets the sprint's contract, spelled out on the lists of the sprint and the checkpoint, criterion by criterion and key by key |
| `AcceptanceValidator.ValidationReads` | MEIZEX_AIR/src/meizex_air/acceptance_validator.py:389-450 | the checks of a validation are exactly the structural ones and one per criterion and output key, each with its id, whether it blocks, and its status in terms of the checkpoint |
| `AcceptanceValidator.FailuresRead` | MEIZEX_AIR/src/meizex_air/acceptance_validator.py:425-434 | a check is named as failed if and only if it blocks and did not pass, as a warning if and only if it does not block and did not pass |
| `AcceptanceValidator.ValidationOrderFree` | MEIZEX_AIR/src/meizex_air/acceptance_validator.py:413-421 | the order of criteria and contract keys does not matter |
| `FailureClassifier.DetectSignals` | MEIZEX_AIR/src/meizex_air/failure_classifier.py:362-517 | the signals per class equal the specification |
| `FailureClassifier.DetectedExactly` | MEIZEX_AIR/src/meizex_air/failure_classifier.py:362-517 | a class is detected if and only if its cause is present: the outcome that names it, a blocking check that accuses it, a rejected claim of success, or a truncation; and always with evidence |
| `FailureClassifier.ClassificationExact` | MEIZEX_AIR/src/meizex_air/failure_classifier.py:547-567 | a rejection always has a primary class; the classes are exactly the detected ones, or UNKNOWN_FAILURE alone when there are none, and only then is the strength UNRESOLVED |
| `FailureClassifier.OnlySupportedClasses` | MEIZEX_AIR/src/meizex_air/failure_classifier.py:190-206 | no unsupported class is ever emitted, and TASK_DRIFT if and only if the executor reported it on a rejected checkpoint |
| `FailureClassifier.PrimaryIsFirst` | MEIZEX_AIR/src/meizex_air/failure_classifier.py:565-567 | the primary class is the most authoritative one |
| `RemediationPolicy.MostRestrictiveWins` | MEIZEX_AIR/src/meizex_air/remediation_policy.py:413-423 | the action is the most restrictive baseline over all classes, and the named class is the most authoritative that demands it |
| `RemediationTable.BaselineReads` | MEIZEX_AIR/src/meizex_air/remediation_policy.py:278-382 | the table of answers read by action: each action answers a class if and only if the class and the state of the attempts meet its entry |
| `RemediationTable.ActionReads` | MEIZEX_AIR/src/meizex_air/remediation_policy.py:413-423 | an action answers a classification if and only if a class present demands it and every other demand comes later in the list of actions by severity |
| `RemediationTable.AnswerReads` | MEIZEX_AIR/src/meizex_air/remediation_policy.py:400-423 | through validation, classification and decision, said on the checkpoint, the supplied dependencies and the evidence: a rejected checkpoint is answered by an action if and only if a class it is evidence of demands it and every other demand is less strict |
| `RemediationTable.DependencyStatusReads` | MEIZEX_AIR/src/meizex_air/remediation_policy.py:305-316 | a failed dependency asks for evidence if and only if no checkpoints were supplied to judge by |
| `RemediationTable.DecisionReads` | MEIZEX_AIR/src/meizex_air/remediation_policy.py:400-423 | what a decision asks for beside its action, and how its strength follows the classification's |
| `RemediationTable.CertaintyReads` | MEIZEX_AIR/src/meizex_air/remediation_policy.py:169-174 | a decision abstains, is a strong or a weak match, if and only if the primary class is the unknown one, a false completion or a saturated context |
| `RemediationPolicy.MoreClassesMoreRestrictive` | MEIZEX_AIR/src/meizex_air/remediation_policy.py:413-423 | detecting more classes never makes the action less restrictive |
| `RemediationPolicy.NoActionExactly` | MEIZEX_AIR/src/meizex_air/remediation_policy.py:400-412 | through validation, classification and decision nothing is done if and only if the checkpoint meets the sprint's contract |
| `RemediationPolicy.AbstainsExactly` | MEIZEX_AIR/src/meizex_air/remediation_policy.py:169-174 | the decision abstains if and only if a rejected checkpoint shows no signal, and then asks a human |
| `RemediationPolicy.RetrySameExactly` | MEIZEX_AIR/src/meizex_air/remediation_policy.py:278-382 | a plain retry is issued if and only if every class present still allows one |
| `RemediationPolicy.RetriesAreBounded` | MEIZEX_AIR/src/meizex_air/remediation_policy.py:278-382 | a run of consecutive same failures gets a plain retry at most max(1, `max_same_retry`) times |
| `RemediationPolicy.ZeroCeilingExactly` | MEIZEX_AIR/src/meizex_air/remediation_policy.py:343-348 | a ceiling of zero is kept if and only if the first failure is not INVALID_OUTPUT alone |
| `RemediationPolicy.ZeroCeilingBrokenExactly` | MEIZEX_AIR/src/meizex_air/remediation_policy.py:343-348 | with a ceiling of zero a checkpoint gets a plain retry if and only if it is the first failure, the contract is not met, and the evidence says INVALID_OUTPUT and nothing else |
| `RemediationPolicy.OutcomeAloneDecides` | MEIZEX_AIR/src/meizex_air/failure_classifier.py:362-567 | for every sprint: a checkpoint that would meet the contract had it reported a pass is classified by the outcome it reports and nothing else |
| `RemediationPolicy.OutcomeAloneAnswer` | MEIZEX_AIR/src/meizex_air/remediation_policy.py:278-423 | and is answered by the baseline action of that outcome's class |
| `RemediationPolicy.DecisionLadderExactly` | MEIZEX_AIR/src/meizex_air/remediation_policy.py:278-423 | one more repetition relaxes a whole decision if and only if it reaches the ceiling, INVALID_OUTPUT after its first repetition or TOOL_CALL_LOOP is present, and no class is answered by halting or a human there |
| `RemediationPolicy.SmallFailsByOutcome` | MEIZEX_AIR/src/meizex_air/bounded_execution.py:270-310 | a sprint with one criterion and a checkpoint that meets it fail by the reported outcome alone, so the inputs below can be built |
| `RemediationPolicy.ZeroCeilingIsBroken` | MEIZEX_AIR/src/meizex_air/remediation_policy.py:343-348 | a concrete checkpoint that is retried under a ceiling of zero |
| `RemediationPolicy.LadderIsRelaxed` | MEIZEX_AIR/src/meizex_air/remediation_policy.py:343-348 | a concrete checkpoint that is halted and, one failure later, attempted again |
| `RemediationPolicy.BreakerIsEvaded` | MEIZEX_AIR/src/meizex_air/remediation_policy.py:358-361 | a concrete checkpoint that is attempted again after any number of failures |
| `RemediationPolicy.RetryPastCeilingExactly` | MEIZEX_AIR/src/meizex_air/remediation_policy.py:278-423 | past the ceiling a whole decision still retries if and only if drift or path guessing is present with nothing but missing evidence beside it |

## Left out

- Dispatcher.ResourceDispatcher.ExecuteStep: does not model the write of the resolved invocation into the plan's own step object; the prepared step is a copy.
- Dispatcher.ResourceDispatcher.Resume: results are values, so aliasing between an envelope's result list and an earlier returned result is not captured; discovered resources of a response are not stored by the code and not modelled.
- DispatchRuns.TokenIsSingleUse: resume tokens, random ids in the code, are drawn from a counter, so collisions are not modelled.
- DispatchRuns.PausingChangesNothing: an executor or resolver that remembers other runs is not covered; within its run it may remember everything.
- DispatchRuns.StreamsFollowLifecycle: every dispatch uses a run id that has no stream yet, as generated ids do; a caller that reuses one appends a second run to the same stream.
- RemoteJobs.RemoteJobHandle.Finish: the two writes are one method here; the transition system models them as two separate steps.
- RemoteJobs.RemoteJobHandle.PollResult: `wait` with a timeout and the polling loop of the synchronous `execute` wrapper are not modelled.
- RemoteJobs.EveryJobFinishes: says that runs cannot go on for ever without finishing every job; how fast threads are scheduled is not modelled.
- CheckpointStore.SaveThenLoad: task plan and sprint records, stored the same way, are not modelled; neither are concurrent writers and case-insensitive file systems.
- CheckpointStore.FileVersion: file names whose version part is not a plain decimal number, which Python's `int` may still accept, are not modelled.
- EventLog.CursorReadsAreFaithful: several processes appending at once are not modelled; stripping is of ASCII white space.
- EventLog.ReadAllReturnsRedacted: the redaction is an arbitrary function; its patterns are not modelled. A filter on `session_id` is a decoder that ignores other sessions' lines.
- ContextCompiler.CompileContext: the texts of its errors are not modelled.
- DependencyGraph.DepthFirstSearch.Visit: Python's recursion limit, about 1000 calls, which a longer dependency chain exceeds, is not modelled.
- PartitionPlan.Evaluate: the remaining result fields, plain sums and comparisons of the token arguments, are not modelled.
- WorkerLoop.Worker.Run: event emission, metrics, the auditor's own inference call and the text rules of the answer checks are not modelled; their verdict is arbitrary, and so is what the auditor answers.
- TracerSemantics.TracerComputesReference: Python's value operators are arbitrary functions; keyword arguments of print and len, a name shadowing print, len or range, parsing, and Python's recursion limit are not modelled.
- TracerElse.UnenteredElseIsHarmless: one direction only for the final state, since an entered block without effect does no harm; step by step it is an equivalence.
- CapabilityRouter.RouteMission: alias table, label matching and evidence levels are arbitrary functions; reason texts and the list of all candidates in the result are not modelled; lower-casing is ASCII.
- CapabilityRouter.PlanIsExecutable: for guarded resources only, since the exact lemmas show it fails for others.
- SpecialistRouter.DecisionOrderFree: needs distinct ids, which the code does not check; identity fields and hashes of the decision are not modelled.
- AcceptanceValidator.ValidateCheckpoint: recognition of criterion and key texts is an arbitrary function; messages and details are not modelled.
- FailureClassifier.DetectSignals: signals are kept per class; the merged list sorted by id is not modelled.
- RemediationPolicy.RetriesAreBounded: reason codes and hint texts of a decision are not modelled.
- SSH, subprocesses, pipes, environment allowlists and wall-clock timing.
- The file-backed pending-route store: the in-memory one has the same interface.
- Transport of MCP, HTTP providers, probes, discovery, command line, profile loading.
- Regular expression and keyword classifiers, redaction, float arithmetic and text similarity: tables of patterns rather than protocols.
