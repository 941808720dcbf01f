# CoFlowAi runtime: a verified model

CoFlowAi runs agent workflows. Its promises are about whole runs: a resumed execution never reruns
finished work and ends with the result it would have had, budgets hold, two workers never drive one
execution, delivery is at-least-once, a gate waits for its human. This project models the state
machines behind those promises and proves what they keep. Where a promise needs a condition, the
condition is stated and a lemma shows what happens without it.

| File | Part of the system |
|---|---|
| `Wrappers.dfy`, `Numbers.dfy`, `Types.dfy` | options, small functions on numbers, values, messages |
| `Workflows.dfy`, `FoldLaws.dfy` | one attempt of a workflow tree, as a class and as a function; the uninterrupted fold, and what each kind of node makes of it |
| `DurableExecution.dfy`, `Durability.dfy` | what every attempt keeps: completed nodes, decisions, the log; what it has stored and done when it ends |
| `Disturbances.dfy` | how crashes and exceptions at await points end an attempt, and what is recorded of them |
| `PlainEquivalence.dfy` | an attempt does only what the fold does and ends as the fold ends |
| `WorkflowNames.dfy` | the condition on workflow names, and loops that break it |
| `Runtime.dfy`, `RuntimeHistory.dfy` | `run`, `resume`, decisions and cancellation over the stored log; all histories |
| `Decisions.dfy`, `Signatures.dfy` | what a decision does; which workflows a resume takes for the same |
| `Interleaving.dfy`, `InterleavingEquivalence.dfy` | the same attempt at the grain of single await points, with parallel branches interleaving on one dictionary; it still computes the fold |
| `SequentialSchedules.dfy`, `InterleavedDurability.dfy` | one branch after another is one of the interleavings; what an interleaved attempt has stored |
| `InterleavingHistory.dfy`, `InterleavingProgress.dfy` | histories of interleaved attempts; every schedule ends |
| `SideBySide.dfy`, `Schedules.dfy`, `SharedNames.dfy` | the time between testing that a node is not completed and starting it; schedules put together; branches that share a workflow name |
| `LateStores.dfy` | what a store that reorders copies breaks |
| `SharedDriving.dfy` | several processes driving one execution under the lease |
| `ApprovalGates.dfy`, `InterleavedGates.dfy` | what a gate holds back, one attempt after another, under any interleaving and under any number of processes |
| `ParallelGates.dfy`, `PausedBranches.dfy` | when an execution waits for a gate, with one permit and under any interleaving |
| `Compiler.dfy`, `Builder.dfy` | structural checks on graphs; the fluent builder's ids |
| `Accounting.dfy`, `BudgetBounds.dfy`, `BudgetHistory.dfy`, `BudgetLimits.dfy` | counters over execution trees; conservation and overshoot; model calls over whole histories; the limits on tokens, cost and steps |
| `Retry.dfy`, `ModelGateway.dfy` | the retry loop; one model call along its chain of fallbacks |
| `Leases.dfy`, `RedisLocks.dfy` | the three lock implementations |
| `JobQueue.dfy`, `RedisQueue.dfy` | the two job queues and the worker |
| `RateLimit.dfy`, `ToolExecution.dfy`, `ToolRounds.dfy` | the tool runtime |
| `ContextBuilder.dfy`, `ContextLaws.dfy` | the context builder without a summariser; what it keeps, drops and shortens |
| `SummarisedContext.dfy` | the context builder with a summariser, which is the default |
| `AgentLoop.dfy`, `Transcripts.dfy`, `AgentPrompts.dfy`, `AnthropicWire.dfy` | the agent loop, what its conversations consist of, the prompts it sends, the wire format |

Code that updates state in place is a class or a loop whose `ensures` equates the new state with a
function of the old one; the theorems are about those functions. `Run` gives a parallel node one permit,
branch after branch; `Interleaving.Move` lets its branches interleave in any way. The histories of
`RuntimeHistory` and `InterleavingHistory` put one attempt after another; `SharedDriving` lets attempts
overlap and says when they do. Work the system calls out to (models, tools, predicates, schedules, failures)
is a parameter: a function, or a list consumed at await points. Cost and time are `real`. Tokens, hashes and
idempotency keys are taken as injective in what they are computed from.

## What the proofs found

- A workflow under a loop is frozen at its first turn's output, because its state keys carry only its
  name (`WorkflowNames.LoopedWorkflowFreezes`). `Tidy` is the condition that keeps names safe.
- A node whose `after_node` checkpoint is stored can begin again in six ways:
  - Branches of one parallel node share a workflow name. Both pass the test that a node is not completed, await
    its `before_node` checkpoint, and one of them completes it before the other starts it; no crash is needed. A
    tree in which every part runs is free of this exactly if no two such branches share a name
    (`SharedNames.NeverAgainIffApart`, `SharedNames.TwinsRunAgain`).
  - `create_checkpoint` copies the dictionary and then awaits the store, so with parallel branches and a store
    that serves copies out of order (a pool of connections) an older copy can become the latest checkpoint
    (`LateStores.LateStoreRunsAgain`). A store that keeps the order of the copies, or a tree without parallel
    nodes, rules that out (`InterleavingHistory.InterleavedNeverRunsAgain`).
  - A lease lasts 60 seconds by default and nothing extends it, while an attempt may take 300: a second
    process can then resume beside the first (`SharedDriving.OutlivedLeaseRepeats`).
  - SQLite and Postgres stores all write the owner `worker` unless told otherwise, and `release_lock` deletes by
    owner, so an attempt that gives its lease back late deletes that of its successor, and a third may begin
    (`SharedDriving.SharedOwnerRepeats`); so may two attempts through one Redis store, which remembers one token.
    An attempt length is safe exactly if the lease covers it (at most its time for a row, less than that for a
    Redis key) and either no two processes share an owner or no lease is given back late; in memory, where a
    lease does not run out, every length is (`SharedDriving.LengthIsSafeIff`).
  - `resume` reads the checkpoint before it takes the lease, so it may drive from one that lacks what was
    completed in between (`SharedDriving.StaleReadRepeats`, `SharedDriving.LackingNodeRepeats`).
  - A `run` job that is delivered again calls `run` with the same execution id, and that starts from nothing
    (`SharedDriving.RunAgainRepeats`).

  In a tree that is `Tidy`, which rules out the first way, the output is right in all others
  (`SharedDriving.OverlapKeepsOutput`, `InterleavingHistory.InterleavedEqualsUninterrupted`).
- The signature of a router leaves out its targets, and that of a gate its id and its policy, so a workflow
  changed there is resumed silently (`RuntimeHistory.ChangedRouteAccepted`); the documentation says a changed
  workflow is refused. Histories are therefore stated for resumptions that are `Unambiguous`.
- With `fail_fast`, which is the default of a parallel node, an execution stopped by a pending gate waits for its
  human exactly if no parallel node lies above the gate; else the branch's exception arrives in a group, the
  execution is FAILED and nothing can be decided (`ParallelGates.PendingGateWaitsIff`). If every gate is in a
  branch it never completes (`ParallelGates.ShieldedGateNeverCompletes`). Both hold under any interleaving of the
  branches (`PausedBranches.HaltedGateWaitsIff`, `PausedBranches.InterleavedNeverCompletes`). With `fail_fast=False`, which is not
  modelled, the node swallows the exception and completes past the gate.
- A chain of fallbacks is tried to its end exactly if its last model does not occur before it
  (`ModelGateway.AllTriedIff`); a model that names itself as its last fallback has none.
- `max_model_calls` is kept whatever the agents do exactly if no two branches can run side by side or nothing
  is left of it; every wider tree can overshoot it by a factor of its width (`BudgetBounds.KeepsLimitIff`,
  `BudgetBounds.OvershootAttained`). A round of tools can pass `max_tool_calls` exactly if at least two run at
  once, which STRICT mode rules out, and more are asked for than are left (`ToolRounds.PassesLimitIff`). The documentation says execution
  stops at 100%.
- The limit is one of a single attempt: calls that are in no checkpoint are forgotten, so `n` attempts can make
  `n` times as many, and a history keeps the limit exactly if attempts times width is at most one or nothing is
  left (`BudgetHistory.HistoryKeepsLimitIff`).
- `extend_lock` can move the deadline of another store's lock, but only if its own hold ended between its check
  and its `PEXPIRE` (`RedisLocks.ForeignOnlyAfterOwnHoldEnded`, `RedisLocks.ExtendMayMoveSuccessorsDeadline`).
- A worker that dies between `BRPOP` and `ZADD` loses its job (`RedisQueue.DyingInsideDequeueLosesJob`).
  `max_attempts` is passed exactly through a `recover` that takes a job with no attempts left
  (`RedisQueue.PassedOnlyByRecover`, `RedisQueue.SpentRecoverPasses`), and then without bound
  (`RedisQueue.SilentDeathsRedeliverForever`).
- A job whose `on_result` hook raises has been acknowledged and counted as processed, and goes back into the queue or
  among the dead letters all the same (`JobQueue.Worker.RunOnce`).
- With a summariser, which is the default, `build()` returns exactly if the conversation is never cut by the global
  cap, is left nothing, or one of the summaries made on the way fits into what it is left
  (`SummarisedContext.BuildReturnsIff`). The default summaries make messages of at least fourteen tokens, so a
  conversation that is left between one and thirteen, and does not fit, keeps `build()` summarising its own summary
  for ever (`SummarisedContext.TooLittleRoomNeverEnds`). And what stays of the conversation may start with the
  answer to a request that has gone (`SummarisedContext.SummarisedPromptShapedIff`).
- A side-effect tool whose output is null or fails `validate_output` runs again on replay
  (`ToolExecution.EntersIffNothingRecorded`).
- A resumed agent sends a request whose tool calls are unanswered exactly if the checkpoint was taken after the
  request was saved and before its answers were (`AgentLoop.ResumeFromCopy`): by a sibling while the tools run
  (`AgentLoop.CopyDuringTools`), or after a round of tools that raised (`AgentLoop.ResumeAfterToolsRaised`). The
  context builder may send one too when it runs short of room: a prompt is well shaped exactly if each
  exchange fits the rooms that the caps leave whole or not at all (`AgentPrompts.PromptShapedIff`).
- `build()` raises `ValueError` exactly when no section is selected and the overall budget is negative
  (`ContextBuilder.PromptTrimmed`).

## Model

| member | source | states |
|---|---|---|
| Workflows.Attempt.Execute | coflowai/workflows/workflow.py:169-253 | One attempt over a whole tree, stopped at any await point, leaves exactly the outcome, dictionary, checkpoints and events of `Run` |
| Workflows.Attempt.ExecuteNode | coflowai/workflows/workflow.py:198-234 | One turn of the node loop: skip a completed node, else checkpoint, run, record, checkpoint |
| Workflows.Attempt.ExecuteWorkflow | coflowai/workflows/workflow.py:170-242 | Hash check and registration, the restored running value, then the node loop |
| Workflows.Attempt.ExecuteSequence | coflowai/workflows/node.py:83-95 | Steps piped in order until one does not finish |
| Workflows.Attempt.ExecuteParallel | coflowai/workflows/node.py:128-181 | With one permit, branch after branch on the node's own input; a branch that does not finish fails the node |
| Workflows.Attempt.ExecuteLoop | coflowai/workflows/node.py:260-284 | At most `max_iterations` turns, ended by `until` or by a turn that does not finish |
| Workflows.Attempt.ExecuteApproval | coflowai/approvals/approval.py:95-137 | Pause and record pending, skip or fail on rejection, run the action only when approved |
| DurableExecution.RunExtends | coflowai/workflows/workflow.py:196-235 | Every attempt over every tree only appends to the log and the trace, keeps completed nodes, hashes and decisions in every checkpoint, begins only nodes no checkpoint has completed, and acts only behind approved gates |
| PlainEquivalence.RunSound | coflowai/workflows/workflow.py:175-242 | From any dictionary of correct results, an attempt performs only what the uninterrupted fold performs on the same inputs, stores only its results, and if it finishes returns its result |
| PlainEquivalence.RunNodesSound | coflowai/workflows/workflow.py:184-234 | The same for the node loop: skipping with recorded outputs, and starting from `last_output`, never changes the running value |
| FoldLaws.SequenceLaw | coflowai/workflows/node.py:83-95 | A sequence hands each step the output of the one before, or its own input where that is null, and ends with the last output |
| FoldLaws.PipelineExists | coflowai/workflows/node.py:83-95 | Such a way through the parts always exists |
| FoldLaws.WorkflowLaw | coflowai/workflows/workflow.py:196-234 | A workflow hands its outputs on likewise, and every node that runs is entered and settled with its output |
| FoldLaws.LoopLaw | coflowai/workflows/node.py:260-284 | A loop turns until `until` holds of a turn's output or the turns are used up, and returns the last one |
| FoldLaws.TurnsExist | coflowai/workflows/node.py:260-284 | Such turns always exist |
| FoldLaws.ParallelLaw | coflowai/workflows/node.py:128-181 | A parallel node gives every branch its own input and merges all outputs in branch order; without one of them it has none |
| FoldLaws.RouterTakesRoute | coflowai/workflows/node.py:212-232 | A router does what the first route under the chosen key does, in the fold and in an attempt that nothing disturbs |
| FoldLaws.RouterDefaults | coflowai/workflows/node.py:223-228 | Without such a route it does what its default does, or fails as an unknown route |
| FoldLaws.GateLaw | coflowai/approvals/approval.py:95-137 | A gate runs its action or passes its input on when approved, passes it on or fails when rejected, and has no output while pending |
| Durability.RunDurable | coflowai/workflows/workflow.py:196-234 | However an attempt is stopped: every node that got an output was announced by its `before_node` checkpoint, begun, and stored with that output, except at most the one at which it stopped |
| Durability.FreshDoesAll | coflowai/workflows/workflow.py:169-242 | An attempt that finishes, over names of which nothing was completed, has done everything the fold does |
| Durability.LastOutputKept | coflowai/workflows/workflow.py:184-234 | A finished node leaves its output as the workflow's last, and the running value starts from there if any node is completed, else from the input |
| Disturbances.RunPasses | coflowai/workflows/workflow.py:196-242 | Every attempt passes its await points in order; the first disturbed one stops it: a crash there and then, an exception as that error, or as a failed branch under a parallel node |
| Disturbances.NeverLeftRunning | coflowai/runtime/runtime.py:461-504 | Without a crash the record never stays RUNNING, whatever is raised where |
| Disturbances.RaisedIsRecorded | coflowai/runtime/runtime.py:576-608 | An exception outside parallel nodes is recorded as failed, cancelled or timed out, by what it is |
| Disturbances.DiesWhileFinishing | coflowai/runtime/runtime.py:519-608 | What a process leaves that dies before or between the two writes with which it finishes |
| WorkflowNames.TidyConsistent | coflowai/workflows/workflow.py:175-178 | Names used once (except on different routes) and not under loops make the name-based keys unambiguous |
| WorkflowNames.FinishedWorkflowReplays | coflowai/workflows/workflow.py:201-206 | A finished workflow executed again over the same dictionary runs nothing and returns its recorded output, whatever its new input |
| WorkflowNames.LoopedWorkflowFreezes | coflowai/workflows/node.py:264-284 | A loop around a workflow returns the first turn's output however often it turns |
| WorkflowNames.LoopedWorkflowDiffers | coflowai/workflows/node.py:264-284 | A concrete loop where that differs from the fold, with no crash |
| WorkflowNames.TwiceUsedReplays | coflowai/workflows/workflow.py:201-206 | A workflow used twice in a sequence runs once: the second use returns the first one's output |
| WorkflowNames.SameNameRefused | coflowai/workflows/workflow.py:175-178 | After one workflow has run, another definition under its name is refused |
| Runtime.Driver.RunAttempt | coflowai/runtime/runtime.py:461-504 | One drive: the attempt, then the effect on record and log, with a crash possible before and between the writes |
| Runtime.Driver.Finish | coflowai/runtime/runtime.py:519-608 | Undisturbed, it stores the attempt's dictionary as the last checkpoint and leaves COMPLETED with the output, WAITING_FOR_APPROVAL, or CANCELLED, TIMED_OUT or FAILED by the exception; every transition taken is a legal one |
| Runtime.Driver.ResumeFrom | coflowai/runtime/runtime.py:206-262 | Resume is refused exactly on a non-resumable status, no checkpoint, or another definition; else it drives from the latest checkpoint |
| Runtime.Driver.Record | coflowai/runtime/runtime.py:287-315 | A decision is refused exactly if the execution does not wait or the entry does not exist (or, if none was named, is not pending); else the latest checkpoint has the verdict for that entry and is otherwise the one before |
| RuntimeHistory.NeverRunsAgain | coflowai/workflows/workflow.py:201-233 | In every history of attempts that follow one another, with one permit, over every tree, a node whose `after_node` checkpoint is stored never begins again; interleaved branches are in `InterleavingHistory`, overlapping attempts in `SharedDriving` |
| RuntimeHistory.LineageKept | coflowai/runtime/runtime.py:402-425 | With attempts one after another, completed nodes only accumulate along the log, and no event begins a node that an earlier checkpoint has completed |
| RuntimeHistory.ResumedEqualsUninterrupted | coflowai/runtime/runtime.py:223-262 | Any number of crashes, failures, resumes, refusals and decisions, one attempt after another: a completed execution has the output of one uninterrupted run, and everything performed or stored on the way belongs to that run |
| RuntimeHistory.UndisturbedResumeCompletes | coflowai/runtime/runtime.py:223-262 | Once the gates are decided, a resume that nothing disturbs completes with the uninterrupted output |
| RuntimeHistory.ChangedWorkflowRefused | coflowai/runtime/runtime.py:228-237 | At every point of every history, a workflow gets past `resume` exactly if status and log allow it and it bears the signature of the one that was started; any other signature changes nothing |
| Signatures.SignatureTells | coflowai/workflows/graph.py:30-34 | Two executables have one signature exactly if they are the same but for router targets, gates' ids and policies, and the order of branches: same kinds, names, node ids, keys, limits and steps |
| Signatures.ResumesOnlyTheSame | coflowai/runtime/runtime.py:228-237 | So a workflow gets past `resume` only if it is the started one up to those differences |
| Signatures.ChangedTaskRefused | coflowai/core/executable.py:84-85 | In particular one with another function in a node is refused |
| Decisions.DecisionIsStored | coflowai/runtime/runtime.py:299-315 | A decision that is taken is in the latest checkpoint, which is otherwise as before; one that is refused changes nothing |
| Decisions.PausedIsDecidable | coflowai/runtime/runtime.py:547-574 | An undisturbed attempt that a gate stops leaves an execution that waits, with that entry pending, and can be decided |
| Decisions.DecidedResumeCompletes | coflowai/runtime/runtime.py:287-315 | An execution that waits at its only undecided gate, is decided and resumed undisturbed, completes with the fold's output under that decision |
| Decisions.AskedDecidedCompleted | coflowai/approvals/approval.py:95-137 | From the beginning: run, stop at the gate, decide, resume, complete |
| Decisions.CancelEnds | coflowai/runtime/runtime.py:331-339 | Cancelling an execution that nobody drives ends it unless it is over, and changes nothing else |
| Decisions.OverIsOver | coflowai/core/types.py:136-165 | What is completed, cancelled or timed out stays so through every call |
| Decisions.LegalTransitions | coflowai/core/types.py:136-165 | Which status may follow which: completing and pausing only from running, nothing after the end |
| RuntimeHistory.StampKept | coflowai/runtime/runtime.py:402-425 | Every checkpoint of every history carries the signature of the workflow that was started |
| RuntimeHistory.ChangedRouteAccepted | coflowai/workflows/node.py:208-210 | A concrete history that crashes, is resumed with another route target, and completes with an output the started workflow never returns |
| InterleavingEquivalence.MoveSteady | coflowai/workflows/node.py:137-148 | Whichever branch moves, what is left still has the fold's output and only the fold's facts, and dictionary, checkpoints and waiting copies hold only its results |
| InterleavingEquivalence.BranchMoved | coflowai/workflows/node.py:145-153 | A move inside one branch leaves the outputs and the merge of all branches as they were |
| InterleavingEquivalence.FitsKept | coflowai/workflows/workflow.py:177-186 | What the siblings write into the shared dictionary never invalidates where another branch stands |
| SequentialSchedules.RunIsASchedule | coflowai/workflows/node.py:128-181 | Every undisturbed attempt that runs branch after branch, over every tree and dictionary, is one of the interleavings: some schedule returns its output or stops as it stops, with the same dictionary, checkpoints and events |
| InterleavedDurability.InterleavedDurable | coflowai/workflows/workflow.py:196-234 | Under any schedule and any store: every node that has an output was announced and begun, and is stored with that output or about to be |
| InterleavedDurability.ReturnedIsStored | coflowai/workflows/workflow.py:229-234 | An interleaved attempt that has returned has stored every node it completed, with its output |
| InterleavingHistory.EndingStored | coflowai/runtime/runtime.py:519-608 | What every way to end an interleaved attempt leaves in log and record |
| InterleavingHistory.InterleavedEqualsUninterrupted | coflowai/runtime/runtime.py:223-262 | Any interleaving of branches, any number of attempts cut, paused or failed anywhere, prompt or late stores: a completed execution has the uninterrupted output, and everything performed or stored belongs to that run |
| SideBySide.MoveExclusive | coflowai/workflows/workflow.py:198-215 | If no branches of a parallel node share a workflow name, no move of any coroutine completes a node that another has tested and is about to start |
| InterleavingHistory.InterleavedNeverRunsAgain | coflowai/state/store.py:92-96 | Over any tree whose branches share no workflow name and any schedule, with a store that keeps the order of the copies waiting for it, a node whose `after_node` checkpoint is stored never begins again |
| InterleavingHistory.PromptOrLinearKeepsOrder | coflowai/state/store.py:92-96 | A store that has the copy at once keeps their order, and so does any store over a tree without parallel nodes |
| InterleavingHistory.StoryLineage | coflowai/persistence/sqlite.py:111-113 | With the order kept and no name shared side by side, completed nodes only accumulate along the log, and no event begins a node an earlier checkpoint has completed, however branches interleave |
| InterleavingHistory.RunsAgainOnlyIfOvertaken | coflowai/runtime/runtime.py:402-421 | With any store, if branches share no workflow name: a node begins after its `after_node` checkpoint was stored only if a checkpoint without it was stored in between |
| SharedNames.NeverAgainIffApart | coflowai/workflows/node.py:137-148 | A tree without routers and gates, in which a name has one definition and is otherwise used once, never begins a stored node again, in any history whose store keeps the order of copies, exactly if no two branches of a parallel node share a workflow name |
| SharedNames.SharedNameRunsAgain | coflowai/workflows/workflow.py:198-234 | Wherever in such a tree two branches share a name, one attempt with a store that has each copy at once begins a stored node again |
| SharedNames.TwinsRunAgain | coflowai/workflows/workflow.py:198-234 | The simplest instance: one workflow side by side with itself |
| LateStores.LateStoreRunsAgain | coflowai/persistence/postgres.py:186-206 | A concrete schedule of two branches in which a late copy makes a finished node begin again |
| SharedDriving.RuleIsRead | coflowai/runtime/runtime.py:299-315 | A decision is in the dictionary that the next process reads, which is otherwise as before, and changes nothing for whoever drives |
| SharedDriving.ClosedIsRead | coflowai/runtime/runtime.py:223-262 | What an attempt stores as it ends is what the next process reads, whether the one before dies or gives its lease back; `run` reads nothing |
| SharedDriving.AttemptsDoNotOverlap | coflowai/persistence/sqlite.py:243-264 | Among any processes that resume or run one execution at any times, under a lease in a table, a Redis key or in memory: if no two share an owner, or every lease is given back while it lasts, two are never both within the time of their lease |
| SharedDriving.LeasedAttemptsNeverRepeat | coflowai/runtime/runtime.py:206-262 | If also branches share no name, every attempt ends within its lease and drives from a checkpoint that holds whatever is completed when it gets the lease, no node begins after its `after_node` checkpoint was stored, however many processes resume |
| SharedDriving.LengthIsSafeIff | coflowai/runtime/runtime.py:461-504 | A bound on the length of attempts rules that out, in every run over every tree whose branches share no name, exactly if the lease covers it and owners are distinct or leases are given back on time; in memory always |
| SharedDriving.OutlivedLeaseRepeats | coflowai/runtime/runtime.py:467-470 | For any attempt length beyond the lease, a run of two processes in which a stored node begins again |
| SharedDriving.SharedOwnerRepeats | coflowai/persistence/sqlite.py:161-164 | For any two processes whose stores have one owner, as by default, and any attempt length: one gives its lease back late, two are within their leases, and a stored node begins again |
| SharedDriving.StaleReadRepeats | coflowai/runtime/runtime.py:223-262 | Even within their leases: `resume` reads the checkpoint before it acquires, and a stored node begins again |
| SharedDriving.RunAgainRepeats | coflowai/distributed/worker.py:129-134 | A second `run` of an execution, one attempt after the other and within the leases, begins a stored node again |
| SharedDriving.LackingNodeRepeats | coflowai/runtime/runtime.py:223-262 | In any run: an attempt whose checkpoint lacks a node that is stored, and that gets so far as to complete it, has begun it again |
| SharedDriving.OverlapKeepsOutput | coflowai/runtime/runtime.py:223-262 | However attempts overlap, everything performed or stored belongs to one uninterrupted run, and each attempt that returns has its output |
| InterleavingProgress.MoveLightens | coflowai/workflows/node.py:137-148 | A move changes nothing at all, or less is left to do |
| InterleavingProgress.SchedulesEnd | coflowai/workflows/node.py:137-148 | No schedule has more moves than the tree's size allows |
| InterleavingProgress.UndisturbedInterleavingCompletes | coflowai/runtime/runtime.py:223-262 | After any history, once the gates are decided, an attempt left alone ends within the bound, and wherever nobody can move it has completed with the uninterrupted output: no deadlock |
| ApprovalGates.ActionNeedsApproval | coflowai/approvals/approval.py:102-137 | The action behind a gate never starts unless somebody approved that entry, wherever the gate is |
| ApprovalGates.GateHolds | coflowai/approvals/approval.py:95-137 | No mix of resumes, crashes, failures, cancellations and other decisions begins a node after the gate or completes the workflow |
| InterleavedGates.InterleavedActionNeedsApproval | coflowai/approvals/approval.py:102-137 | The action needs an approval of its entry however branches interleave and whatever the store does |
| InterleavedGates.SharedActionNeedsApproval | coflowai/approvals/approval.py:102-137 | And however many processes drive the execution at once, within their leases or not |
| InterleavedGates.InterleavedGateHolds | coflowai/approvals/approval.py:95-137 | Until its entry is decided nothing after the gate begins and the workflow does not complete, however branches of other nodes interleave |
| InterleavedGates.SharedGateHolds | coflowai/approvals/approval.py:95-137 | And however many processes drive it at once: no process, no checkpoint and no event is past the gate |
| ApprovalGates.DecisionStands | coflowai/runtime/runtime.py:299-311 | A decided entry keeps its decision through every call that does not name it |
| ParallelGates.PendingGateWaitsIff | coflowai/runtime/runtime.py:490-498 | An undisturbed attempt that stops at a pending gate ends WAITING_FOR_APPROVAL exactly if no parallel node lies on the path to the gate; else it ends FAILED and no entry can be decided |
| ParallelGates.StopExplained | coflowai/workflows/node.py:128-181 | Every attempt that stops, does so by the own outcome of the node at the end of its path, wrapped as a failed branch exactly if a parallel node is on the way |
| ParallelGates.GateInBranchFails | coflowai/workflows/node.py:128-166 | A fresh gate in the first branch: FAILED, and nothing can be decided, whatever the other branches are |
| ParallelGates.ShieldedNeverWaits | coflowai/runtime/runtime.py:287-315 | If every gate is inside a branch, no history ever waits and no decision is ever recorded |
| ParallelGates.ShieldedGateNeverCompletes | coflowai/runtime/runtime.py:490-498 | Hence an execution whose uninterrupted run meets such a gate never completes, in any history |
| PausedBranches.HaltedGateWaitsIff | coflowai/workflows/node.py:137-148 | Whatever the branches have done meanwhile, an attempt with a coroutine halted at a pending gate makes the execution wait exactly if that coroutine is in no branch; else it fails and nothing can be decided |
| PausedBranches.InterleavedNeverWaits | coflowai/runtime/runtime.py:287-315 | If every gate is in a branch, no history of interleaved attempts ever waits, and no decision takes effect |
| PausedBranches.InterleavedNeverCompletes | coflowai/runtime/runtime.py:490-498 | Hence it never completes if such a gate stands in the way of the uninterrupted run, however its branches interleave |
| Compiler.ValidateAcyclic | coflowai/workflows/compiler.py:92-115 | Accepts exactly the acyclic graphs, with the finish order as witness; a rejection reports a walk that closes a cycle |
| Compiler.Search.Visit | coflowai/workflows/compiler.py:99-111 | Three-colour search: grey is the path, black nodes stand in finish order, a reported cycle extends the path |
| Compiler.FinishOrderMeansAcyclic | coflowai/workflows/compiler.py:92-115 | A finish order that has every source rules out closed walks |
| Compiler.StackSearch | coflowai/workflows/compiler.py:74-85 | The stack search sees exactly the nodes a walk from the start reaches |
| Compiler.ValidateReachability | coflowai/workflows/compiler.py:70-89 | Reports exactly the ids the first node does not reach |
| Compiler.ValidateNodes | coflowai/workflows/compiler.py:45-56 | Passes exactly non-empty lists of distinct executable nodes |
| Compiler.ValidateEdges | coflowai/workflows/compiler.py:59-67 | Passes exactly edges between known nodes |
| Compiler.Compile | coflowai/workflows/compiler.py:29-41 | Accepts exactly the well-formed graphs; each error is true of the graph and comes only after the earlier checks passed |
| Builder.UniqueId | coflowai/workflows/workflow.py:63-72 | A fresh id: the slug if free, else the slug with the least free number from two on; the search stops |
| Builder.SlugOf | coflowai/workflows/workflow.py:64-65 | A slug is the part of the name from its first to its last letter or digit, in lower case, with `_` for everything else; a name without any is `node` |
| Builder.DecimalReads | coflowai/workflows/workflow.py:69-72 | The number in an id reads back as that number, without leading zeros |
| Builder.NumberedInjective | coflowai/workflows/workflow.py:69-72 | Numbered names of one base are distinct |
| Builder.Workflow.Add | coflowai/workflows/workflow.py:52-61 | Appends one node, under the slug of its name or the slug with the least free number, and drops the cached graph |
| Builder.Workflow.Start | coflowai/workflows/workflow.py:74-77 | Refused once there is a node |
| Builder.Workflow.CompileGraph | coflowai/workflows/workflow.py:117-132 | Whatever was added, the linear graph passes every structural check; only an empty workflow fails |
| Builder.LinearIsWellFormed | coflowai/workflows/compiler.py:188-189 | The chain over distinct ids is fully reachable and acyclic |
| Accounting.ExecutionContext.MergeFrom | coflowai/core/context.py:154-163 | Component-wise maximum |
| Accounting.ExecutionContext.AbsorbParallel | coflowai/core/context.py:165-175 | The sum of the children's differences to the baseline; the maximum step |
| Accounting.ExecutionContext.Charge | coflowai/core/context.py:197-211 | A model call is refused, with nothing counted but the step, exactly if the steps are passed or the model calls, the tokens or the cost are used up; else it is counted as one, with its tokens and its price |
| Accounting.ExecutionContext.Execute | coflowai/workflows/node.py:83-284 | The counters of a whole tree are those of `Go` |
| Accounting.ExecutionContext.ExecuteParallel | coflowai/workflows/node.py:128-166 | Every branch starts from the same counters and all are absorbed |
| BudgetBounds.UsageConserved | coflowai/core/context.py:154-175 | If nothing raises, every counter grows by exactly the sum over all leaf calls |
| BudgetBounds.ModelCallsBounded | coflowai/policies/policy.py:155-159 | If nothing raises, model calls stay within start + width * (limit - start), and a start at the limit makes none |
| BudgetBounds.SequentialWithinLimit | coflowai/policies/policy.py:155-159 | Without parallel nodes the limit is never passed |
| BudgetBounds.OvershootAttained | coflowai/workflows/node.py:132-166 | For every tree whose routers have targets and whose loops turn, some agents reach the bound |
| BudgetBounds.KeepsLimitIff | coflowai/policies/policy.py:155-159 | Such a tree keeps the limit for all agents exactly if its width is at most one or nothing is left |
| BudgetBounds.NarrowWithinLimit | coflowai/policies/policy.py:155-159 | Any tree of width at most one, and any tree that starts at the limit, keeps it for all agents |
| BudgetLimits.CallRefusedIff | coflowai/policies/policy.py:149-173 | A model call is refused exactly if the step limit, the calls, the tokens or the cost are used up, else counted with its tokens and price |
| BudgetLimits.NothingCalledPast | coflowai/policies/policy.py:167-173 | An attempt over any tree that starts with tokens or cost used up makes no model call, whether it raises or not |
| BudgetLimits.SequentialPassesByOne | coflowai/policies/policy.py:167-173 | Without parallel nodes, tokens and cost pass their limits by at most those of the last call |
| BudgetLimits.StepsCounted | coflowai/core/context.py:154-201 | What counts as steps, and stays within `max_steps`, is the longest way through the tree: parts add up, branches count as the longest |
| BudgetLimits.OutsideLeads | coflowai/workflows/node.py:212-284 | A router's branch and a loop's turns are those the outside decides, within the targets and the iterations there are |
| BudgetHistory.CallsCounted | coflowai/core/context.py:154-175 | An attempt that raises nothing has counted every model call it made |
| BudgetHistory.CallsBounded | coflowai/policies/policy.py:155-159 | Even an attempt that ends in an exception makes at most width times what is left in model calls |
| BudgetHistory.HistoryBounded | coflowai/runtime/runtime.py:239-254 | Attempts that start one from a checkpoint of the other, the first from `c`, together make at most their number times width times what `c` leaves |
| BudgetHistory.HistoryAttained | coflowai/runtime/runtime.py:239-254 | And some do: each dies when its calls are made and in no checkpoint, so whatever it has stored the next starts from `c` again |
| BudgetHistory.HistoryKeepsLimitIff | coflowai/runtime/runtime.py:402-418 | `n` attempts, each from a checkpoint of the one before, keep the limit whatever happens in them, exactly if `n` times the width is at most one or nothing is left |
| BudgetHistory.MarksGrow | coflowai/runtime/runtime.py:402-418 | No checkpoint of an attempt has fewer model calls than the attempt started with |
| ModelGateway.Gateway.Generate | coflowai/models/gateway.py:34-84 | Over budget exactly if model calls, tokens or cost are used up, and then no provider is entered and nothing is counted; else the override, or the candidates of the chain in turn |
| ModelGateway.RefusedIffExhausted | coflowai/models/gateway.py:34-84 | A call is refused, before any provider is entered and with nothing counted, exactly if one of the limits on calls, tokens and cost is reached |
| ModelGateway.KnownInOrder | coflowai/models/gateway.py:63-68 | Exactly the registered fallbacks are candidates, in the order given |
| ModelGateway.CountedAs | coflowai/models/gateway.py:252-266 | An answered call counts the tokens of its response, at its own cost or else the price list of the model that answered |
| ModelGateway.FailoverExact | coflowai/models/gateway.py:69-84 | Candidate after candidate: every provider call but the last failed transiently, the last decides, failing only permanently or at the last model; at most `retries + 1` calls each |
| ModelGateway.AllTriedIff | coflowai/models/gateway.py:63-84 | When every provider fails transiently, the whole chain is tried, each with all its retries, exactly if its last model occurs nowhere before |
| ModelGateway.CountedOnce | coflowai/models/gateway.py:252-266 | However many providers were tried, an answered call counts as one, with the usage of the response returned; a raising one is not counted; the limit is not passed |
| ModelGateway.ChainCutAtLast | coflowai/models/gateway.py:75-76 | The chain ends at the first occurrence of its last model |
| ModelGateway.SelfFallbackCutsChain | coflowai/models/gateway.py:63-76 | A model named as its own last fallback is never failed over |
| Leases.LockTable.AcquireLock | coflowai/persistence/sqlite.py:243-256 | Purge then insert, or steal on expiry, by engine |
| Leases.LockTable.ReleaseLock | coflowai/persistence/postgres.py:230-234 | Deletes the row only of its owner |
| Leases.GrantedIff | coflowai/persistence/sqlite.py:243-264 | On every trace with a forward clock an acquire is granted exactly if no lease granted before on that execution still lasts, neither run out nor released by its owner |
| Leases.SameAnswers | coflowai/persistence/postgres.py:216-228 | On every trace with a forward clock SQLite and Postgres answer every call alike |
| Leases.SecondAcquireNeedsEnd | coflowai/persistence/sqlite.py:243-264 | Two successful acquires of one execution: the first owner released in between, or its lease had run out |
| Leases.BackwardClockDiffers | coflowai/persistence/sqlite.py:247-252 | With a clock that steps back the two stores differ |
| RedisLocks.RedisStateStore.AcquireLock | coflowai/persistence/redis.py:121-128 | Sets the key only if nobody holds it and then remembers the token |
| RedisLocks.RedisStateStore.ReleaseLock | coflowai/persistence/redis.py:130-135 | Forgets the token and deletes the key only if it still carries it |
| RedisLocks.HoldsIff | coflowai/persistence/redis.py:121-146 | At every moment of every run of any stores a token holds an execution exactly if its acquire found the lock free and nothing has ended that hold since |
| RedisLocks.HolderStep | coflowai/persistence/redis.py:121-146 | Who holds the lock after any one command, and until when |
| RedisLocks.HoldEndsOnlyByOwner | coflowai/persistence/redis.py:121-146 | Under any interleaving of any stores, a holder stays until its own store releases or its lease runs out |
| RedisLocks.LostForGood | coflowai/persistence/redis.py:121-146 | A token that lost an execution never holds it again |
| RedisLocks.ExtendKeepsHolder | coflowai/persistence/redis.py:137-146 | Neither half of `extend_lock` changes the holder |
| RedisLocks.ExtendMayMoveSuccessorsDeadline | coflowai/persistence/redis.py:142-146 | A run in which an extension moves another store's deadline |
| RedisLocks.MovesForeignDeadlineIff | coflowai/persistence/redis.py:142-146 | What `PEXPIRE` does to the lock of another store: it changes the deadline exactly if another store holds the key then, at a different deadline |
| RedisLocks.ForeignOnlyAfterOwnHoldEnded | coflowai/persistence/redis.py:137-146 | And only if the extender's own hold, which its check saw, ended between check and `PEXPIRE` |
| JobQueue.InMemoryJobQueue.Dequeue | coflowai/distributed/queue.py:94-101 | The first job goes in flight and its attempts grow by one |
| JobQueue.InMemoryJobQueue.Nack | coflowai/distributed/queue.py:106-111 | The job, leased or already acknowledged, goes to the end of the queue if it has attempts left, else to the dead letters |
| JobQueue.InMemoryJobQueue.Ack | coflowai/distributed/queue.py:103-104 | The job leaves the in-flight table |
| JobQueue.Move | coflowai/distributed/queue.py:103-111 | Every job stays in exactly one of queued, in flight, acknowledged and dead |
| JobQueue.Lease | coflowai/distributed/queue.py:94-101 | The same for leasing the first job |
| JobQueue.Worker.RunOnce | coflowai/distributed/worker.py:95-119 | One round settles the first job, and no other, by how its execution and the `on_result` hook end; a job whose hook raises has been acknowledged and counted, and is put back |
| JobQueue.Worker.Drain | coflowai/distributed/worker.py:88-93 | Whatever each attempt of each job does, a fixed set of jobs drains in at most `max(1, max_attempts)` rounds per job; each is delivered up to its first attempt that ends it, acknowledged if that returned and dead if it was misconfigured or the last allowed |
| JobQueue.Interleave | coflowai/distributed/worker.py:95-119 | Several workers, rounds interleaved in any way: the turns that do something are bounded, and once there is none left every job is acknowledged or dead |
| RedisQueue.RedisJobQueue.Dequeue | coflowai/distributed/queue.py:143-153 | Pops the payload at the back and puts it, one attempt on, into processing with its deadline |
| RedisQueue.RedisJobQueue.Nack | coflowai/distributed/queue.py:158-171 | Removes one member with the job's id and pushes the job to pending or dead |
| RedisQueue.RedisJobQueue.Recover | coflowai/distributed/queue.py:173-180 | Moves every expired member back to pending, and nothing else |
| RedisQueue.FirstInFirstOut | coflowai/distributed/queue.py:138-180 | At every server command of every run, what has been pushed onto the pending list is, in the same order and with one attempt more, what processes have leased and then what waits |
| RedisQueue.DequeueInSteps | coflowai/distributed/queue.py:143-153 | `dequeue` as its two commands, and what a process holds between them |
| RedisQueue.NackInSteps | coflowai/distributed/queue.py:158-171 | `nack` as its two commands: back into the queue exactly if asked for and attempts are left |
| RedisQueue.RecoverAndAckInSteps | coflowai/distributed/queue.py:155-180 | `recover` moves a member as it is; `ack` only takes out the member it found |
| RedisQueue.NothingLost | coflowai/distributed/queue.py:138-180 | At every server command of every run an unacknowledged job is pending, processing, dead or in a process's hands, unless a process died holding it |
| RedisQueue.DeathBetweenMethodsIsHarmless | coflowai/distributed/queue.py:138-180 | If processes die only between methods, no unacknowledged job is lost |
| RedisQueue.DyingInsideDequeueLosesJob | coflowai/distributed/queue.py:144-152 | A run in which dying between the two commands of `dequeue` loses a job |
| RedisQueue.SilentDeathsRedeliverForever | coflowai/distributed/queue.py:173-180 | For every `n` a run that delivers one job `n` times through `recover` |
| RedisQueue.AttemptsWithinLimit | coflowai/distributed/queue.py:138-180 | At every server command of a run in which no `recover` takes a job whose attempts are used up, every payload has at most `max(1, max_attempts)` attempts |
| RedisQueue.PassedOnlyByRecover | coflowai/distributed/queue.py:173-180 | More than that happens only after such a `recover` |
| RedisQueue.SpentRecoverPasses | coflowai/distributed/queue.py:173-180 | Every run that ends in such a `recover` goes on, by leasing alone, to a job with more |
| RateLimit.SlidingWindow.Admit | coflowai/tools/executor.py:109-119 | Admits exactly when fewer than `limit` admissions lie in the last 60 seconds |
| RateLimit.SpreadBoundsEveryMinute | coflowai/tools/executor.py:114-119 | Every closed 60-second interval of the whole run holds at most `limit` admissions |
| ToolExecution.ToolExecutor.Execute | coflowai/tools/executor.py:51-90 | The pipeline: checks, override, ledger hit, run, validation, record, count |
| Retry.RunWithRetry | coflowai/core/retry.py:42-59 | The retry loop leaves the result and the attempts of `Attempts` |
| Retry.AttemptsBounded | coflowai/core/retry.py:42-59 | At most one attempt more than retries, each but the last failed retryably, and the last decides, failing retryably only when none is left |
| ToolExecution.AnsweredWithoutTool | coflowai/tools/executor.py:60-76 | A call stopped by a check, an override or a recorded output leaves tool and ledger alone; past its checks it is answered by the override, or else by the record |
| ToolExecution.AnsweredByLastAttempt | coflowai/tools/executor.py:78-90 | Any other call is answered by its last attempt: the normalised output, recorded exactly for a tool with side effects; a failure for a tool's error or an invalid output; and it is counted unless another exception escapes |
| ToolExecution.SideEffectEnteredOnce | coflowai/tools/executor.py:169-178 | One call enters a non-idempotent side-effect tool at most once whatever it raises |
| ToolExecution.RecordedCallNeverRunsAgain | coflowai/tools/executor.py:181-197 | Through any calls, saves and restores from later checkpoints, a recorded non-null call is answered from the ledger |
| ToolExecution.EntersIffNothingRecorded | coflowai/tools/executor.py:185-197 | Exactly when a side-effect call enters its tool |
| ToolExecution.NullOutputRunsAgain | coflowai/tools/executor.py:73-76 | A null output is run again |
| ToolRounds.OvershootBounded | coflowai/agents/agent.py:370-381 | At every interleaving, counted plus in-flight calls stay within max(start, limit - 1 + concurrency) and within what was asked for; a round that starts at the limit calls nothing |
| ToolRounds.OneAtATimeWithinLimit | coflowai/agents/agent.py:362-367 | One at a time, the limit itself holds |
| ToolRounds.PeakReached | coflowai/agents/agent.py:370-381 | The smaller of those two bounds is reached |
| ToolRounds.PassesLimitIff | coflowai/agents/agent.py:357-381 | Started below the limit, some schedule passes it exactly if the mode is not STRICT, `max_concurrency` is at least two and more calls are asked for than are left |
| ContextBuilder.Shrink | coflowai/context/builder.py:172-212 | Compression of tool payloads, then the most recent messages that fit |
| ContextBuilder.ShrunkFits | coflowai/context/builder.py:172-212 | What is kept fits the cap |
| ContextBuilder.ShrunkDerived | coflowai/context/builder.py:172-212 | What is kept is a subsequence, up to compressed tool payloads that keep role, ids and their start |
| ContextLaws.EstimateBounds | coflowai/context/builder.py:21-25 | A text of `n` estimated tokens has more than `4 (n - 1)` and at most `4 n` characters |
| ContextLaws.MessageCost | coflowai/context/builder.py:28-32 | A message costs four tokens, those of its text, and those of name and arguments of each call |
| ContextLaws.KeepRecentGreedy | coflowai/context/builder.py:202-212 | From the last message back, each is kept exactly if it fits beside what is kept of the later ones |
| ContextLaws.PayloadsCompressed | coflowai/context/builder.py:177-181 | With forty tokens per tool result none is dropped: each payload keeps its share of the room less eighty characters and says how much it has lost, shorter ones are untouched |
| ContextLaws.SelectFilters | coflowai/context/builder.py:144-146 | Exactly the sections that are relevant enough, or of priority at most ten, in order |
| ContextLaws.CapsCut | coflowai/context/builder.py:148-152 | Sections over their cap are cut to it, the others left alone |
| ContextLaws.TopIsFirst | coflowai/context/builder.py:157 | The victim is the first of the sections with the highest priority number and, among those, the most tokens |
| ContextLaws.SqueezedThins | coflowai/context/builder.py:154-165 | The global cap drops sections whole, the most dispensable first and never one of priority 0, and shortens at most one, to exactly the room the others leave |
| ContextLaws.ArrangedStable | coflowai/context/builder.py:168 | Sections of one order and priority stay in the order in which they were added |
| ContextLaws.PromptThins | coflowai/context/builder.py:141-170 | Every prompt: the chosen sections, cut to their caps, thinned so to the budget less the reserve, in order |
| SummarisedContext.Condense | coflowai/context/builder.py:183-200 | The summarising branch, whose loop stops at the first message that does not fit |
| SummarisedContext.CondensedLaw | coflowai/context/builder.py:183-200 | It keeps the longest end of the conversation that fits its part of the cap, after a summary of the rest if there is any; the result fits the cap exactly if the summary fits beside that end |
| SummarisedContext.LoopEndsIff | coflowai/context/builder.py:154-165 | With any summariser, the global loop over a conversation and sections of other names and priorities ends exactly if it never cuts the conversation, leaves it nothing, or one of the summaries made on the way fits into what it leaves |
| SummarisedContext.BuildReturnsIff | coflowai/agents/agent.py:320-339 | That is when an agent's prompt is built at all |
| SummarisedContext.TooLittleRoomNeverEnds | coflowai/context/summarizer.py:41-80 | With the shortest texts the default summariser writes, any conversation that has to be cut to less than fourteen tokens, but not to none, is cut for ever |
| SummarisedContext.SummarisedPromptShapedIff | coflowai/context/builder.py:183-200 | After any number of rounds the prompt is system text, the summary last, and then an end of the conversation; it is well shaped exactly if that does not start with the answer to a request |
| ContextBuilder.CutTop | coflowai/context/builder.py:157-163 | One round of the global loop leaves the sections of `CutDown` |
| ContextBuilder.CutDownFalls | coflowai/context/builder.py:157-163 | A round only trims, and strictly lowers the total |
| ContextBuilder.ApplyOverall | coflowai/context/builder.py:155-165 | The global loop leaves the sections of `Squeezed` |
| ContextBuilder.SqueezedSettles | coflowai/context/builder.py:155-165 | The loop ends; then all fits, or nothing is left, or the top section is empty or has priority 0; it raises exactly on no sections and a negative budget |
| ContextBuilder.Build | coflowai/context/builder.py:141-170 | The whole of `build`, with its in-place loops, returns `Prompt` |
| ContextBuilder.PromptTrimmed | coflowai/context/builder.py:141-170 | The prompt is the surviving sections in order, each trimmed from what was added, within the budget unless nothing more may be cut; exactly when it raises |
| ContextBuilder.RoomyPrompt | coflowai/context/builder.py:141-170 | With room nothing is touched |
| AgentLoop.Agent.Execute | coflowai/agents/agent.py:150-211 | The iteration loop leaves the state of `Loop`, whatever order tools finish in |
| AgentLoop.RunTools | coflowai/agents/agent.py:357-381 | For every finishing order: it raises exactly if a call does, else there is one message per call, in call order, with the text that this call returned |
| AgentLoop.ToolsCarried | coflowai/agents/agent.py:357-381 | A round of tools raises exactly if one of its calls does; else every call's own text comes back under its id and name |
| Transcripts.RunTranscript | coflowai/agents/agent.py:143-211 | Every run: the first model call gets what is stored or else the user's input; each later one the conversation before, the reply to it, and the texts of that reply's own tool runs in order, or a repair prompt; and the outcome is what the last reply says |
| Transcripts.AllowanceByMode | coflowai/policies/policy.py:127-140 | How many iterations an agent has, by mode, step limit and its own request |
| AgentLoop.FreshRunShaped | coflowai/agents/agent.py:143-211 | Every conversation handed to the context builder answers each request at once, in order; model calls and repairs stay within their limits |
| AgentLoop.ResumeFromCopy | coflowai/agents/agent.py:168-191 | Whatever copy of the dictionary is taken at any moment of a run: a run resumed from it first hands on what it holds, and that is badly shaped exactly if the copy was taken after a request was saved and before its answers were |
| AgentLoop.ResumeAfterToolsRaised | coflowai/agents/agent.py:404-412 | At the end of a run that is so exactly if it ended in a raising round of tools |
| AgentLoop.CopyDuringTools | coflowai/agents/agent.py:171-181 | While the tools of a request run, that request is what the dictionary holds, although nothing raises |
| AgentLoop.PromptBuilt | coflowai/agents/agent.py:320-339 | Building the agent's prompt never raises, whatever the budget |
| AgentPrompts.FreshRunPromptsShaped | coflowai/agents/agent.py:143-211 | End to end: in a fresh run, each prompt that has room within its budget is system text and the whole conversation, every request answered at once, in order |
| AgentPrompts.RoomyPromptShaped | coflowai/agents/agent.py:320-339 | With every section within its cap and the total within the budget, what `build` returns is system text and the whole conversation |
| AgentPrompts.PromptShapedIff | coflowai/agents/agent.py:320-339 | Under any budget a prompt is system text and what the two rooms that the budget leaves keep of the conversation, by token counts; it is well shaped exactly if every exchange fits them whole or not at all |
| AgentPrompts.PickShapedIff | coflowai/context/builder.py:203-212 | Any part of a well-shaped conversation with distinct call ids is well shaped exactly if it splits no exchange |
| AgentPrompts.KeepRecentShapedIff | coflowai/context/builder.py:203-212 | The recent messages that fit are well shaped exactly if, from the end, each exchange fits whole into the room left or none of its messages does |
| AgentPrompts.ShrunkShapedIff | coflowai/context/builder.py:172-212 | The same for the conversation's section under any cap |
| AgentPrompts.TightPromptNotShaped | coflowai/context/builder.py:203-212 | Without room the builder can keep an answer and drop its request |
| AnthropicWire.SplitSystem | coflowai/providers/anthropic.py:188-223 | The grouping loop with its pending buffer |
| AnthropicWire.SystemInOrder | coflowai/providers/anthropic.py:188-223 | The system text is made of the texts of the system messages, in order, without empty ones |
| AnthropicWire.RoundTrip | coflowai/providers/anthropic.py:188-223 | Decoding the wire gives back every non-system message in order, for any placement of system messages and tool runs |
| AnthropicWire.EncodeGroups | coflowai/providers/anthropic.py:194-209 | No wire message is empty and no two result groups are adjacent |

## Left out

- RuntimeHistory.ResumedEqualsUninterrupted: gives parallel nodes one permit and puts attempts one after another; interleaved branches are in `InterleavingHistory`, which over-approximates how attempts end and resumes with the started tree only, and overlapping attempts are in `SharedDriving`.
- RuntimeHistory.NeverRunsAgain: attempts follow one another; when several processes overlap it holds under the condition of `SharedDriving.LeasedAttemptsNeverRepeat` and fails without it.
- RuntimeHistory.LineageKept: attempts follow one another, likewise.
- RuntimeHistory.UndisturbedResumeCompletes: assumes the lock of a crashed attempt has been released or has expired.
- SharedDriving.LeasedAttemptsNeverRepeat: for a store that has each copy at once; what `SharedDriving` and `InterleavedGates` prove besides holds for late copies too. All processes read one clock; the status of the record, which only refuses more, is left out, so decisions are possible at any time.
- SharedNames.NeverAgainIffApart: the trees in which shared names are shown to run again have no routers and no gates; with routers of one name on both ways the outside cannot always lead both branches there, so the exact condition would be about router names and keys as well. That trees with distinct names are safe is proved for all.
- WorkflowNames.TidyConsistent: `Tidy` is shown to suffice; it is not necessary for every oracle, since a name used twice on equal results is harmless.
- ParallelGates.PendingGateWaitsIff: one permit and `fail_fast=True`; any interleaving is in `PausedBranches`.
- PausedBranches.HaltedGateWaitsIff: `fail_fast=True`.
- ParallelGates.ShieldedGateNeverCompletes: likewise; with `fail_fast=False` the execution completes past the gate.
- Workflows.Attempt.Execute: the approval id is given with the gate rather than computed from the node id, so two gates that end up with one id share one decision; task outputs depend on their input only; the awaits after the last node are one await.
- Workflows.Attempt.ExecuteWorkflow: `compile` checks structure only; permissions and models are not checked.
- Workflows.Attempt.ExecuteParallel: one permit and `fail_fast=True`; `Interleaving` lets branches interleave, `fail_fast=False` is not modelled.
- Runtime.Driver.RunAttempt: is alone with the execution; acquiring the lock and a second driver are in `SharedDriving`.
- Runtime.Driver.ResumeFrom: the refusals for a held lock and for an executable the runtime does not know are left out.
- Runtime.Driver.Finish: exceptions raised by the store while an attempt is being finished are not modelled.
- Compiler.Compile: the checks of permissions and models, which follow the structural ones, are left out.
- Accounting.ExecutionContext.Charge: a tool round is one charge without checks of its own; its calls are in `ToolRounds`.
- Accounting.ExecutionContext.Execute: what counters hold after an exception is not stated, because an escaping exception skips some merges; the model calls of such an attempt are bounded in `BudgetHistory`, where the branches beside a raising one are taken to go as far as they can.
- Accounting.ExecutionContext.ExecuteParallel: likewise says nothing when a branch raises.
- ToolRounds.OvershootBounded: the limits on tokens and cost, which `check_tool_call` tests too and which can only refuse more, are left out.
- JobQueue.Interleave: an acknowledgement and the hook after it are one turn.
- Disturbances.RaisedIsRecorded: outside parallel nodes; inside one the exception arrives in a group and the execution is FAILED.
- RedisLocks.RedisStateStore.ReleaseLock: forgetting the token and running the script are one step.
- ToolExecution.ToolExecutor.Execute: resolution, authorisation, argument and rate checks are one given verdict.
- ToolExecution.EntersIffNothingRecorded: a cancellation noticed inside an attempt, which also keeps the call out of its tool, is not modelled.
- ContextBuilder.Shrink: the branch without a summariser; the other one, which is the default, is in `SummarisedContext`.
- ContextBuilder.Build: likewise; and it works on section values, so what a second `build()` on the same builder would see is not modelled.
- AgentPrompts.PromptShapedIff: for an agent whose summariser is off; `SummarisedContext.SummarisedPromptShapedIff` is for one that has a summariser.
- SummarisedContext.Condense: what a summariser writes is a function of what it is given; 0.7 and 0.3 of a cap are given numbers, the first at most the cap.
- SummarisedContext.TooLittleRoomNeverEnds: of the extractive summariser only the length of its shortest text is used.
- AgentLoop.Agent.Execute: what is recorded of a turn is the conversation handed to the builder; the prompt made from it is `ModelPrompt`, and what is proved of it is in `AgentPrompts`.
- Builder.UniqueId: letters and digits are the ASCII ones.
- ModelGateway.Gateway.Generate: streaming, capability routing and request mutation are left out; in `Accounting` a model call is the call that answers, and one that raises is an escaping exception.
- Fork, replay, event numbering, memory search, capability routing, permissions, pricing: near-immediate.
- HTTP transports, provider calls, streaming, the CLI, sandboxes, plugins: input and output only.
- Logging, metrics, tracing, redaction and event payloads: they do not affect control.
- JSON encoding of state and deep copies: taken as faithful.
- Timeouts, jitter and delivery of cancellation: nondeterministic failures at await points.
