# Governance core: a verification model

This project models the part of the AgentPact repository that keeps an agent from repeating an external side
effect it cannot confirm, and proves what that part promises.  It has five components; each is one or more modules.

**The governed browser loop on its crash-safe executor.**  `BrowserLoop` is the loop as a class over a mutable
`RunState`; every port (observe, decide, authorize, execute, verify, emit) may answer anything well typed or raise.  Each
method does what a function of `LoopSteps` says, so a run is a function of the answers its ports gave.
`PersistedExecutor` is the durable path of an external write: each transaction is a method on shared tables that other
processes change in between, and every method is a step of the protocol in `ExecutionProtocol`, whose runs interleave
executor calls, crashes, recovery scans and result probes.  `AttemptStore` holds the tables and the attempt services;
`LoopTrace` says which event may follow which; `LoopProgress` is the invariant of a run and the verdict its report must
give; `LoopSafety` proves that every step keeps them, `LoopAnswers` that all a run records, calls and reports is what its
ports said, `LoopReports` what that means for external writes, and `ExecutionAuthority` under which permits the calls of
the protocol are made.  Together: over any port behaviour at most one external write of a run reaches the browser, no
runtime call follows it, and the run is reported UNKNOWN.  Without the durable executor there is no such promise: after a
normal return and a verdict to continue, a plain runtime may be asked for the same write again.  `ExecutionWitnesses` and
`LoopWitnesses` hold concrete runs for the places where the promises end.

**The hash-chained run journal with its coordinator and commands.**  `PlanJournal` replays, extends and commits to
histories; `Coordinator` translates pack results; `RunDatabase` projects a run to its public state and offered actions;
`RunTransactions` gives each command as a function on rows and proves where it leads; `RunService` is the service whose
methods carry these transactions out on a draft; `RunLifecycle` follows whole histories.  `CoordinatorMoves`,
`RunProjections` and `RunEffects` say the same of single results, projections and commands on the rows' own fields:
exactly when each goes through, what it shows, and everything it changes.

**Suffix replanning.**  `SuffixReplan` assesses replacement plans and composes any number of accepted replans.

**Admission.**  `Interactions` and `Admission` hold the checks that let a bundle through; `AdmissionTerms` says subject by
subject what they amount to; `AdmissionIdentity` is the fingerprint that ignores when things happened;
`AdmissionPersistence` is the protocol of concurrent submitters.

**Benchmark aggregation.**  `Quantiles`, `Benchmark`, `BenchmarkReport`, `PairedBenchmark`, `PairedAggregation` and
`PairedOrder`, over the order-free tallies of `Tallies`; `BenchmarkFigures` and `PairedFigures` say what every case and
every record counts for.

Hashes are function parameters.  Where a statement needs them to be collision free it says so (`Injective`,
`DistinctDigests`).  Times are integers, rates and quantiles exact reals.

## Findings

Places where the code does less than one might expect, each with its exact condition, and with an input where the condition
does not speak for itself:

- A fault hook that raises a retryable browser error behind the browser call reopens that call to the loop; nothing else
  does (`ExecutionProtocol.OnlyAHookReopensACall`).  It can happen to any request that can be authorized, and then two
  writes of one run reach the browser (`ExecutionWitnesses.AHookReopensACall`, `ExecutionWitnesses.TwoReopenedCalls`,
  `LoopWitnesses.AReopenedWriteIsFollowedByAnother`).
- One EXECUTING row without a complete checkpoint makes the whole recovery scan roll back (`PersistedExecutor.ScanRows`,
  with a table in `ExecutionWitnesses.OneRowBlocksTheScan`).
- Once a write has returned with its effect possibly started, a later failure can still turn the report into FAILED.  The
  failing port is the provider of decisions or of policy, or a page or observation event is lost anywhere but directly
  behind a completed write; or no port fails and the run fails on its own: a decision on another page, spent iterations or
  retries, an invalid authorization, a raising call that is no write, or a decision, policy or verdict that says so.  These
  are all the ways (`LoopReports.WhenAnEffectIsForgotten`, with runs in
  `LoopWitnesses.ARefusedObservationForgetsTheEffect`, `LoopWitnesses.ABrokenReadForgetsTheEffect` and
  `LoopWitnesses.ASpentBudgetForgetsTheEffect`).
- A sink that refuses the terminal event after a write raised leaves the report FAILED, since the effect flag is only set
  by a normal return; UNKNOWN needs the accepted event or an earlier flag (`LoopReports.RaisedWritesStayOpen`, with a run
  in `LoopWitnesses.ARefusedEndLosesARaisedWrite`).
- `append` does not look at terminality, run identity, plan version or clock (`PlanJournal.FreshAppendReplays`), and a
  repeated append is answered only if its first caller did (`PlanJournal.AppendIsRetrySafe`).
- A completed result also completes a probe-blocked step (`Coordinator.WhatUnblocks`).
- A cancellation that is offered can fail: always while the run is being planned, and later exactly when the native store no
  longer vouches for one of its other steps (`RunTransactions.WhenOfferedCancellationsCommit`,
  `RunTransactions.PlanningRunsCannotBeCancelled`).
- A second approval pause on the same step leaves the run without a projection (`RunTransactions.PausedRunsProjectSo`).
- The new-capability check of the whole-plan assessment never decides anything (`SuffixReplan.SameFactsBringNoCapability`).
- A whole-plan replan that is accepted may swap grants and capability versions and repeat steps
  (`SuffixReplan.WhatAnAcceptedReplanKeeps`, with plans in `SuffixReplan.AnAcceptedReplanMaySwapGrants`).
- A plan that passes the scope check of its grant may still allow more than the grant: when it names no resource or leaves
  out an attribute the grant names (`Interactions.WhenTheCheckMeansCoverage`, with an admitted submission in
  `Admission.AnOpenPlanIsAdmitted`).
- With every pair invalid the safety counts of one record are reported, and ties among records decide which, unless all
  records of the least case id agree (`PairedBenchmark.AllInvalidReportsTheSeedsSafety`, `PairedOrder.WhenOrderNeverMatters`,
  with a list in `PairedOrder.TiesAreBrokenByOrder`).

## Model

| member | source | states |
|---|---|---|
| `AttemptStore.AuthorizeKeepsConstraints` | enterprise/governance/execution_attempt_service.py:35-114 | Authorizing an attempt keeps the tables constraints: one attempt per permit, one per task and idempotency key, no attempt on an unconsumed permit. |
| `AttemptStore.UniquePermitConstraintIsRedundant` | alembic/versions/2026_08_31_0008-persisted_execution_checkpoint.py:30 | On constrained tables the unique constraint on the permit never fires by itself, since a permit with an attempt is no longer issued. |
| `ExecutionProtocol.RunKeepsInv` | enterprise/browser_loop/persisted_executor.py:78-142 | Over every interleaving of executor calls, crashes, recovery scans and probes the protocol invariant holds (holders distinct, calls distinct, calls durable, abandoned attempts failed). |
| `ExecutionProtocol.AtMostOneCallPerPermit` | enterprise/browser_loop/persisted_executor.py:87-142 | Two browser calls of any run are on different permits and on different task and idempotency key pairs. |
| `ExecutionProtocol.CallsStayOnRecord` | enterprise/browser_loop/persisted_executor.py:103-142 | An attempt handed to the browser is EXECUTING or UNKNOWN until a probe settles it, and CONFIRMED or FAILED after that. |
| `ExecutionProtocol.AbandonedIsNeverInvoked` | enterprise/browser_loop/persisted_executor.py:180-187 | An attempt recovery has failed was never handed to the browser and never is in any continuation; it stays FAILED. |
| `ExecutionProtocol.InvokeKeepsInv` | enterprise/browser_loop/persisted_executor.py:113-120 | The browser is called for an attempt nobody else holds, that was never called before and is already EXECUTING. |
| `ExecutionProtocol.RecoverKeepsInv` | enterprise/browser_loop/persisted_executor.py:163-195 | A recovery scan at any moment keeps the invariant, also for calls in flight. |
| `ExecutionProtocol.TransitionKeepsInv` | enterprise/governance/execution_attempt_service.py:277-310 | The compare-and-sets AUTHORIZED to EXECUTING and EXECUTING to UNKNOWN keep the invariant. |
| `ExecutionProtocol.OneStepRetriesAfterCall` | enterprise/browser_loop/persisted_executor.py:144-146 | One step makes a call that reached the browser end in a retryable error exactly when the fault hook raises such an error behind the browser call. |
| `ExecutionProtocol.OnlyAHookReopensACall` | enterprise/browser_loop/persisted_executor.py:113-146 | Over whole runs: a call that reached the browser ends in an error the loop retries if and only if the fault hook raised a retryable browser error behind it. |
| `ExecutionWitnesses.AHookReopensACall` | enterprise/browser_loop/persisted_executor.py:113-146 | Wherever a request can be authorized, its call can reach the browser and end in an error the loop retries, by the hook alone. |
| `ExecutionWitnesses.TwoReopenedCalls` | enterprise/browser_loop/persisted_executor.py:113-146 | From two issued permits, two calls in a row reach the browser and both end in an error the loop retries. |
| `ExecutionWitnesses.OneRowBlocksTheScan` | enterprise/browser_loop/persisted_executor.py:180-195 | A scan over an abandoned attempt and an executing one without a probe reference changes nothing, although alone the abandoned one would be failed. |
| `ExecutionAuthority.CallsAreAuthorized` | enterprise/browser_loop/persisted_executor.py:87-120 | Over every run: each browser call was authorized by a step of its own process, under a permit issued and unexpired then and consumed now, for the very action, observation, effect and profile the process asked for, and its attempt says so. |
| `ExecutionAuthority.WhenAttemptsAreAuthorized` | enterprise/governance/execution_attempt_service.py:35-114 | An attempt is authorized exactly for a request with a key under an issued, unexpired permit for just that action, observation, effect and profile, when neither permit nor key has an attempt. |
| `ExecutionAuthority.ProbesSettle` | enterprise/governance/execution_attempt_service.py:255-310 | Over every run: a settled attempt is CONFIRMED or FAILED as the probe said that found it UNKNOWN. |
| `PersistedExecutor.ReportsAreInOrder` | enterprise/browser_loop/persisted_executor.py:180-199 | Both lists of the recovery report name their attempts in the order they were scanned. |
| `PersistedExecutor.ReportsPartitionTheScan` | enterprise/browser_loop/persisted_executor.py:180-199 | The recovery report lists every scanned attempt in exactly one of its two lists, abandoned ones authorized, ambiguous ones executing. |
| `PersistedExecutor.ScanRows` | enterprise/browser_loop/persisted_executor.py:180-195 | The recovery loop commits exactly when every EXECUTING row names its whole checkpoint, and then leaves exactly the recovered tables and the two lists in scan order. |
| `PersistedExecutor.Deployment.RecoverAbandoned` | enterprise/browser_loop/persisted_executor.py:149-199 | A scan is refused for a negative age or an incomplete checkpoint and then changes nothing; else it is one Recover step of the protocol. |
| `PersistedExecutor.Deployment.AuthorizeAttempt` | enterprise/browser_loop/persisted_executor.py:87-100 | Authorization is one step of the protocol: the call holds a new attempt bound to its request and to an issued, unexpired permit for exactly that request, or has ended with an error. |
| `PersistedExecutor.Deployment.MarkAttemptExecuting` | enterprise/browser_loop/persisted_executor.py:103-111 | The EXECUTING boundary is one step: on success the call may reach the browser, else it has ended. |
| `PersistedExecutor.Deployment.MarkAttemptUnknown` | enterprise/browser_loop/persisted_executor.py:122-135 | The ambiguity record is one step: on success the attempt is UNKNOWN with a complete checkpoint. |
| `PersistedExecutor.Executor.Execute` | enterprise/browser_loop/persisted_executor.py:78-142 | A call that is no external write changes nothing durable; an external write is one process of the protocol, returns only after reaching the browser, with a checkpoint whose attempt is that of the call, whose task, step, fingerprint and observation are those of its permit and whose permit, key digest, effect and probe reference are those of the command; it ends retryable only without having reached the browser (unless the hook may reopen calls). |
| `PersistedExecutor.Executor.ExecuteExternal` | enterprise/browser_loop/persisted_executor.py:84-120 | Whatever others do between the transactions, an external write ends as its process says; a retryable end means the browser was not called. |
| `PersistedExecutor.Executor.CallBrowser` | enterprise/browser_loop/persisted_executor.py:113-142 | From the EXECUTING boundary on the browser is called exactly once, and no error of it is passed on. |
| `PersistedExecutor.Executor.RecordAmbiguity` | enterprise/browser_loop/persisted_executor.py:122-142 | After the browser call the result is the pending one, with the browser's own completion and the UNKNOWN checkpoint that names the call, or a non-retryable error (unless the hook may reopen calls). |
| `PersistedExecutor.Executor.Hook` | enterprise/browser_loop/persisted_executor.py:144-146 | The fault hook lets a call go on unchanged or ends it with what it raised. |
| `LoopTrace.NumberedAndClosedOnce` | enterprise/browser_loop/loop.py:445-468 | Events are numbered 1 to n, are all of the same run, and only the last can be terminal. |
| `LoopTrace.StartsAreAuthorized` | enterprise/browser_loop/loop.py:134-204 | Every action start directly follows the ALLOW verdict on the same fingerprint and observation, which is the most recent observation. |
| `LoopTrace.SuccessIsVerified` | enterprise/browser_loop/loop.py:414-425 | A terminal SUCCEEDED follows a succeeded verification with the same code; AWAITING_APPROVAL follows the verdict that asked for it. |
| `LoopTrace.CurrentIsLatest` | enterprise/browser_loop/loop.py:314-329 | The current observation of a trace is that of its last observation event. |
| `LoopTrace.EveryEventFollowsItsPrefix` | enterprise/browser_loop/loop.py:445-468 | Every event of a trace was allowed to follow the events before it. |
| `LoopTrace.ConclusionsAreFinal` | enterprise/browser_loop/loop.py:414-425 | A verdict that settles the run is followed by nothing but its end. |
| `LoopProgress.ExecutionKeepsCore` | enterprise/browser_loop/loop.py:193-229 | Announcing a call, making it and counting it keeps the run invariant: budgets, counters, effect flag, one announcement per call. |
| `LoopProgress.LaunchKeepsCore` | enterprise/browser_loop/loop.py:193-229 | A call launched from a live point leaves the invariant and says what the run may do next. |
| `LoopProgress.OnlyTheLastReaches` | enterprise/browser_loop/loop.py:206-257 | If the run could go on after every call but the last, at most one call reached the browser, and it is the last one. |
| `LoopProgress.EventKeepsCore` | enterprise/browser_loop/loop.py:445-468 | Recording an event keeps the run invariant. |
| `LoopProgress.BeginIteration` | enterprise/browser_loop/loop.py:91-92 | A live run may begin the next iteration with an observation and a call of its budget left. |
| `LoopSteps.AuthorizedCommand` | enterprise/browser_loop/loop.py:346-373 | A command exists exactly when permit and idempotency references are present, the authorization is for this action and observation, and the profile is allowed for the effect. |
| `LoopSteps.Decide` | enterprise/browser_loop/loop.py:288-312 | A domain-pack decision is only taken from the pack, version and capability the run is bound to; a model decision only on input the policy prepared for this very observation, when the pack had none. |
| `LoopSafety.EndingIsTrue` | enterprise/browser_loop/loop.py:470-505 | A run that ends with the verdict on it ends with a true report: the status and reason asked for, or the fallback on the effect flag when the terminal event is refused. |
| `LoopSafety.RetryIsSafe` | enterprise/browser_loop/loop.py:427-439 | A retry within the budget is counted and goes on or fails; beyond the budget the run fails. |
| `LoopSafety.LookIsSafe` | enterprise/browser_loop/loop.py:84-89 | A look that fails without a write behind it fails the run. |
| `LoopSafety.VerifyIsSafe` | enterprise/browser_loop/loop.py:375-412 | The verdict goes on record, an exception of the verifier as an unclear one, before anything is made of it. |
| `LoopSafety.VerdictIsSafe` | enterprise/browser_loop/loop.py:414-425 | Succeeded, disproved and unclear verdicts end the run SUCCEEDED, FAILED and UNKNOWN with their own reason; continue and retry do not end it. |
| `LoopSafety.SuccessIsSafe` | enterprise/browser_loop/loop.py:110-132 | A claim of success makes no call and ends, goes on or escapes as the verifier and the budgets say, with a true report. |
| `LoopSafety.SuspendIsSafe` | enterprise/browser_loop/loop.py:238-257 | A result awaiting its probe ends the run UNKNOWN on that very checkpoint, unless the sink refuses the verdict, and sets the effect flag. |
| `LoopSafety.ReconsiderIsSafe` | enterprise/browser_loop/loop.py:279-284 | A retry verdict on a write ends the run UNKNOWN; on anything else it costs a retry, and without one left the run fails. |
| `LoopSafety.LookAfterIsSafe` | enterprise/browser_loop/loop.py:258-276 | Without the page behind a returned action a write ends UNKNOWN and anything else FAILED. |
| `LoopSafety.AnswerIsSafe` | enterprise/browser_loop/loop.py:206-286 | A write that raised in a way that leaves its effect open ends the run UNKNOWN; the run goes on only with nothing left to a probe or to recovery. |
| `LoopSafety.PerformIsSafe` | enterprise/browser_loop/loop.py:193-207 | The runtime is called exactly when the sink took the announcement, and then exactly once. |
| `LoopSafety.AllowedIsSafe` | enterprise/browser_loop/loop.py:174-191 | No call is made without a binding command, or on an observation that has aged. |
| `LoopSafety.IterationIsSafe` | enterprise/browser_loop/loop.py:94-100 | Without a decision, or with one on another observation, the run fails and nothing is called; every other iteration makes at most one call and keeps the invariant. |
| `LoopSafety.IterationsAreSafe` | enterprise/browser_loop/loop.py:91-286 | Any number of iterations keeps the invariant, whatever the ports answer. |
| `LoopSafety.ConclusionIsSafe` | enterprise/browser_loop/loop.py:76-82 | An exception that escaped the loop is reported by the effect flag alone, and a spent budget as FAILED. |
| `LoopSafety.RunsAreSafe` | enterprise/browser_loop/loop.py:76-286 | Every run, whatever its ports answer, ends within its budgets with a report that repeats its counters and trace and whose status, reason, checkpoint and approval pause are the verdict on its trace, its last call and its last fault. |
| `LoopAnswers.IterationGoesBy` | enterprise/browser_loop/loop.py:94-286 | An iteration records nothing but what its ports said, makes exactly the call they launch, with the chosen action under the policy's authorization on this fresh observation, uses a retry exactly where they ask for one, and goes on exactly where they let it, on the page they showed. |
| `LoopAnswers.RunsGoByTheirAnswers` | enterprise/browser_loop/loop.py:76-286 | Over every run: each event but the end is what some round's ports said of the page of an earlier one, the calls are those its rounds ordered, one after the other, the effect flag is up behind every write that came back with a possible effect and only behind one or behind a result left to a probe, what failed it failed in its last round, and a report names an approval exactly as the policy of the last round asked for it. |
| `LoopReports.ReachedRunsStayOpen` | enterprise/browser_loop/loop.py:206-257 | On an executor that cannot reopen calls a run that reached the browser did so once, in its last call, and reports UNKNOWN; FAILED exactly when that call raised, the flag is unset and the terminal event was refused.  Unless an event was refused, a returned call has its checkpoint reported. |
| `LoopReports.RaisedWritesStayOpen` | enterprise/browser_loop/loop.py:214-225 | A raised write with an open effect is the last call, and the run is UNKNOWN if and only if the terminal event was accepted or the flag was set before; else FAILED. |
| `LoopReports.WhenAnEffectIsForgotten` | enterprise/browser_loop/loop.py:76-286 | Over every run in which an effect may have started: FAILED exactly when the terminal event was accepted and either the failing port is the decision or policy provider, or an observation, captured or recorded, elsewhere than directly behind a completed write; or no port failed and the run failed on its own: mismatched decision, spent iterations or retries, invalid authorization, raising call that is no write, or a decision, policy or verdict that says so, each at its place in the trace and with its reason. |
| `LoopReports.WhenAnEffectIsSuspected` | enterprise/browser_loop/loop.py:76-286 | Over every run without a known effect: UNKNOWN exactly when the terminal event was accepted and either the failing port is the verifier or the page directly behind a completed write; or no port failed and a raised write, a pending probe, an unclear verdict or a retry verdict on a write left it open, each with its reason. |
| `LoopWitnesses.ARefusedObservationForgetsTheEffect` | enterprise/browser_loop/loop.py:127-131 | A run whose write returned with a possible effect, judged CONTINUE, ends FAILED because the sink refuses the observation after a later claim of success. |
| `LoopWitnesses.ABrokenReadForgetsTheEffect` | enterprise/browser_loop/loop.py:222-225 | A run whose write returned with a possible effect ends FAILED because a later call that only reads raises. |
| `LoopWitnesses.ASpentBudgetForgetsTheEffect` | enterprise/browser_loop/loop.py:286 | A run whose write returned with a possible effect ends FAILED because its iterations are spent. |
| `LoopWitnesses.ARefusedEndLosesARaisedWrite` | enterprise/browser_loop/loop.py:487-489 | A run whose write reached the browser and then raised ends FAILED because the sink refuses the terminal event. |
| `LoopWitnesses.APlainRuntimeMayRepeatAWrite` | enterprise/browser_loop/loop.py:227-285 | On a plain runtime a returned write is asked for again, under the same permit and idempotency key. |
| `LoopWitnesses.AReopenedWriteIsFollowedByAnother` | enterprise/browser_loop/loop.py:208-213 | With a hook that raises a stale page behind the browser call, two writes of one run reach the browser, under two permits. |
| `BrowserLoop.BrowserLoop.Emit` | enterprise/browser_loop/loop.py:445-468 | An event is appended with the next number exactly when the sink takes it. |
| `BrowserLoop.BrowserLoop.Terminal` | enterprise/browser_loop/loop.py:470-505 | The report says what the accepted terminal event says, or EVENT_SINK_FAILED with UNKNOWN exactly when an effect may have started. |
| `BrowserLoop.BrowserLoop.Observe` | enterprise/browser_loop/loop.py:314-329 | A page that comes is counted and becomes the last one; it is returned exactly when its event was accepted too. |
| `BrowserLoop.BrowserLoop.ConsumeRetry` | enterprise/browser_loop/loop.py:435-439 | A retry is granted and counted exactly while the budget lasts. |
| `BrowserLoop.BrowserLoop.RetryReobserve` | enterprise/browser_loop/loop.py:427-433 | A retry buys at most one observation; without one nothing changes. |
| `BrowserLoop.BrowserLoop.Verify` | enterprise/browser_loop/loop.py:375-412 | A verifier that raises counts as unclear with VERIFICATION_FAILED; the verdict is on record before it is used. |
| `BrowserLoop.BrowserLoop.VerificationTerminal` | enterprise/browser_loop/loop.py:414-425 | Success, failure and unclear verdicts end the run with the status of the verdict; continue and retry change nothing. |
| `BrowserLoop.BrowserLoop.Suspend` | enterprise/browser_loop/loop.py:238-257 | A result awaiting its probe ends the run UNKNOWN on that very checkpoint, or the refused verdict escapes. |
| `BrowserLoop.BrowserLoop.Reconsider` | enterprise/browser_loop/loop.py:279-284 | A retry verdict on a write ends the run UNKNOWN; anything else goes on at the price of one retry exactly within the budget. |
| `BrowserLoop.BrowserLoop.Iterations` | enterprise/browser_loop/loop.py:91-286 | The bounded loop is that many iterations, and stops at a report, an exception or the budget. |
| `BrowserLoop.BrowserLoop.Conclude` | enterprise/browser_loop/loop.py:76-82 | An exception that escaped the loop is reported UNKNOWN exactly when an effect may have started, else FAILED. |
| `BrowserLoop.BrowserLoop.Run` | enterprise/browser_loop/loop.py:76-286 | Every run is the run of the answers its ports gave, with a true report; what it records, calls and reports is what they said, an approval by the reference and reason of the last policy answer; on the durable executor at most one external write reaches the browser, in the last call, and is then reported UNKNOWN on its checkpoint, FAILED only as the refused end of a raised write. |
| `PlanJournal.Replay` | enterprise/agent_runs/journal.py:131-194 | Replay succeeds exactly on whole, untampered journals, told on the fields of their events, and restores the checkpoint of the head; a refusal names the first bad event and the first check it fails. |
| `PlanJournal.CheckEvent` | enterprise/agent_runs/journal.py:139-182 | The checks on one event pass exactly when it may follow what came before; a fault is the first check that fails. |
| `PlanJournal.AcceptedJournalsAreWhole` | enterprise/agent_runs/journal.py:131-194 | A journal is accepted exactly when it begins with admission, every event is signed, named, agrees with its own checkpoint and shows a state its transition leads to, and every next one is linked to it, of the same run, in time, a version up only by supersession, and behind no end of the run. |
| `PlanJournal.AcceptsOneMore` | enterprise/agent_runs/journal.py:139-191 | A journal with one event more is accepted exactly when that event fits. |
| `PlanJournal.PrefixClosed` | enterprise/agent_runs/journal.py:131-194 | Every non-empty prefix of an accepted journal is accepted. |
| `PlanJournal.HeadDigestCommits` | enterprise/agent_runs/journal.py:144-147 | Under injective digests two accepted journals with the same head digest are equal event for event. |
| `PlanJournal.CheckpointNamesItsHistory` | enterprise/agent_runs/journal.py:232 | Under injective digests a checkpoint stands at the head of at most one accepted journal. |
| `PlanJournal.VersionCountsSupersessions` | enterprise/agent_runs/journal.py:173-191 | Along an accepted journal the plan version is one more than the number of supersessions, the run identity never changes, time never goes back and nothing follows a terminal event. |
| `PlanJournal.JournalTable.Append` | enterprise/agent_runs/journal.py:197-264 | Append stores exactly one event that says what the request says at the head of the chain, or answers the request already committed there, and returns that event's checkpoint; each error is returned exactly where its check is the first to fail, and a refused append changes nothing. |
| `PlanJournal.FreshAppendReplays` | enterprise/agent_runs/journal.py:246-301 | A fresh append leaves a replayable journal exactly when its caller vouched for what append does not check, and replay then gives the returned checkpoint. |
| `PlanJournal.AppendIsRetrySafe` | enterprise/agent_runs/journal.py:232-244 | Repeating an append, at any later clock, returns the same checkpoint and leaves the journal as it is, if and only if the first caller vouched for what append does not check; else the journal has become unreadable. |
| `PlanJournal.AppendIsForkFree` | enterprise/agent_runs/journal.py:232-245 | From an already extended checkpoint an append succeeds if and only if it is the committed request and still the head. |
| `Coordinator.ResultsKeepThePlan` | enterprise/agent_runs/coordinator.py:14-101 | After any results in any order the plan keeps its steps and their order, the completed prefix grows by one per completion, and nothing else about the run changes. |
| `Coordinator.CompletedAfterEveryStep` | enterprise/agent_runs/coordinator.py:21-40 | A run is COMPLETED after exactly as many completions as it had open steps, and then has no active step. |
| `Coordinator.CompletionIsDeliveredOnce` | enterprise/agent_runs/coordinator.py:21-40 | With distinct native step ids a completion that moved the run never moves it again, after any further results. |
| `Coordinator.PendingResultIsDeliveredOnce` | enterprise/agent_runs/coordinator.py:41-67 | A pending result that blocked the run never moves it again; redelivered at once it is a no-op. |
| `Coordinator.ProbeMovesOnlyOnExactEvidence` | enterprise/agent_runs/coordinator.py:70-101 | A probe moves a run if and only if it is blocked and the evidence is confirmed for its exact task, step, permit and attempt. |
| `Coordinator.WhatUnblocks` | enterprise/agent_runs/coordinator.py:21-40 | A blocked run also leaves its block on a completion naming its root and step, without any evidence; nothing else moves it. |
| `Coordinator.TranslationFitsItsTransition` | enterprise/agent_runs/coordinator.py:31-67 | Every translated result fits its transition, is appendable, keeps the run identity, and is terminal exactly when the run is completed. |
| `CoordinatorMoves.WhatACompletionDoes` | enterprise/agent_runs/coordinator.py:21-40 | A completion is refused, changes nothing, or moves the active step, marked completed, to the end of the prefix and makes the next one active, each exactly when the source does so, field by field. |
| `CoordinatorMoves.WhatAPendingResultDoes` | enterprise/agent_runs/coordinator.py:41-67 | A pending result is refused, changes nothing, or blocks the active step on exactly its permit, attempt and probe reference, each exactly when the source does so, and leaves all other steps alone. |
| `CoordinatorMoves.WhatAProbeDoes` | enterprise/agent_runs/coordinator.py:70-101 | A probe is refused, changes nothing, or completes the blocked step, exactly by its status and the identity of the execution. |
| `CoordinatorMoves.ResultsKeepEveryStep` | enterprise/agent_runs/coordinator.py:14-101 | After any results every step of the run has its identity and its place, those completed on the way are marked so, and nothing else changes but the run's state. |
| `RunDatabase.OffersFollowTheState` | enterprise/agent_runs/service.py:1077-1319 | The offered actions are one of none, approve and reject, probe, cancel, as the state says. |
| `RunDatabase.ApprovalIsOfferedWhileAwaited` | enterprise/agent_runs/service.py:1240-1277 | Approval and rejection are offered exactly while the run waits for a decision and nothing was authorized for its step. |
| `RunDatabase.CancellationIsOfferedBeforeEffects` | enterprise/agent_runs/service.py:1278-1316 | Cancellation is offered exactly to a working run without effects and to a run still being planned. |
| `RunDatabase.EffectsLeaveOnlyTheProbe` | enterprise/agent_runs/service.py:1502-1523 | Once an effect may have started, a run that left planning offers at most the probe; exactly when it does is `RunProjections.WhatIsShown`. |
| `RunDatabase.RowsOfAreRows` | enterprise/agent_runs/service.py:1464-1478 | The pending actions found for a step are exactly those of its task and step. |
| `RunProjections.WhatIsShown` | enterprise/agent_runs/service.py:1077-1319 | Each public state but FAILED is shown exactly for its own rows, FAILED for all others, and each with its own offers, reason and counts; UNKNOWN with the probe exactly for a blocked run whose native pair, attempt and permit rows match. |
| `RunProjections.WhenNothingIsShown` | enterprise/agent_runs/service.py:1077-1157 | There is no projection exactly when one of the two native rows is missing or the pending actions of the step are not in order. |
| `RunEffects.WhatIsLoaded` | enterprise/agent_runs/service.py:1032-1074 | A run is loaded exactly when its root is trusted, its admission there and its journal whole; else it says which is missing. |
| `RunEffects.WhatTheNativeStoreChecks` | enterprise/integrations/skyvern_agent_run_store.py:392-475 | The native store lets a checkpoint be journaled exactly when its rows vouch for every step of it. |
| `RunEffects.WhatCancellingDoes` | enterprise/agent_runs/service.py:687-728 | A cancellation goes through exactly under the stated rows, moves the native pair to canceled, leaves every effect and decision row and appends one RUN_CANCELLED event. |
| `RunEffects.WhatRejectingDoes` | enterprise/agent_runs/service.py:635-685 | A rejection goes through exactly while the action awaits a decision of somebody else, marks action and request, cancels the native pair and appends one APPROVAL_REJECTED event. |
| `RunEffects.WhatApprovingDoes` | enterprise/agent_runs/service.py:547-606 | An approval goes through exactly for an action that awaits it or was approved before, spends the action, resumes the native pair and appends one APPROVAL_RESUMED event. |
| `RunEffects.NothingToDecide` | enterprise/agent_runs/service.py:547-685 | Without a pending action nothing can be approved or rejected. |
| `RunEffects.WhatPausingDoes` | enterprise/agent_runs/service.py:912-1009 | A pause goes through exactly for a running step without an open action and a new request id, adds one action and one request, and appends one APPROVAL_REQUIRED event. |
| `RunEffects.WhatReflectingDoes` | enterprise/agent_runs/service.py:843-910 | A pack result is reflected exactly when it moves the checkpoint and the rows vouch for where to, and changes nothing but the journal. |
| `RunEffects.BlockedRunsProjectSo` | enterprise/agent_runs/service.py:1157-1188 | A committed pending result projects to UNKNOWN with the probe exactly when attempt and permit are for the same action and observation, wherever the journal can be read. |
| `RunLifecycle.CommittedEventReplays` | enterprise/agent_runs/service.py:843-910 | A committed command leaves a journal that replays exactly when the run was not over and the clock had not gone back, and replays to what the command wrote. |
| `RunLifecycle.NothingFollowsShutdown` | enterprise/integrations/skyvern_agent_run_store.py:392-475 | No command commits on a run that is over with its child canceled, whatever result still arrives. |
| `RunLifecycle.LateResultsMeetCanceledRows` | enterprise/integrations/skyvern_agent_run_store.py:400-421 | The native check refuses any late result for a canceled child. |
| `RunLifecycle.NothingFollowsSuccess` | enterprise/agent_runs/service.py:1118-1128 | No command commits on a run that shows as SUCCEEDED. |
| `RunLifecycle.ClosedStatesAreShutDown` | enterprise/agent_runs/service.py:1188-1239 | A run that shows as REJECTED or CANCELLED is over, its child is canceled and nothing was attempted. |
| `RunLifecycle.JournalSurvivesEveryRun` | enterprise/agent_runs/service.py:547-1009 | Over any interleaving of commands with row changes by others that leave canceled rows canceled, under a clock that does not go back, the journal stays replayable, only grows, and is frozen once the run is over. |
| `RunTransactions.EveryCommandCommits` | enterprise/agent_runs/service.py:547-1009 | Cancel, reject, approve, pause and reflected results that commit are committed commands: enabled, checked against native rows, one event. |
| `RunTransactions.EveryAppendReplays` | enterprise/agent_runs/service.py:594-603 | Whatever command appends, its journal is one event longer, replayable exactly for a running run and a steady clock, and replays to the requested checkpoint. |
| `RunTransactions.FinalRunsTakeNoCommand` | enterprise/agent_runs/service.py:635-728 | From SUCCEEDED, REJECTED and CANCELLED no command of any kind appends anything. |
| `RunTransactions.CancelledRunsProjectSo` | enterprise/agent_runs/service.py:687-728 | A successful cancel projects to CANCELLED unless the clock went back. |
| `RunTransactions.RejectedRunsProjectSo` | enterprise/agent_runs/service.py:635-685 | A successful reject projects to REJECTED unless the clock went back. |
| `RunTransactions.ApprovedRunsProjectSo` | enterprise/agent_runs/service.py:547-606 | A successful approval, decided here or recorded before, can be read exactly for an unfinished run and a steady clock; it then offers nothing, is RUNNING exactly when nothing was attempted on its task, and its stored action is spent. |
| `RunTransactions.FreshApprovalsRun` | enterprise/agent_runs/service.py:565-580 | An approval decided by the command itself projects to RUNNING with no action unless the clock went back. |
| `RunTransactions.PausedRunsProjectSo` | enterprise/agent_runs/service.py:912-1009 | A paused run has a projection exactly for the first pause of a step, an unfinished run and a steady clock; it then awaits approval exactly without attempts or permits. A second pause leaves a state conflict. |
| `RunTransactions.WhenOfferedCancellationsCommit` | enterprise/agent_runs/service.py:687-728 | An offered cancel commits exactly when the run is not being planned any more and the native store still vouches for its completed, remaining and superseded steps. |
| `RunTransactions.PlanningRunsCannotBeCancelled` | enterprise/agent_runs/service.py:1278-1289 | While planning, cancel is the one action offered, and it always fails. |
| `RunService.Decide` | enterprise/approval/persistence.py:20-70 | A decision is recorded on request and pending action exactly for an undecided request, another approver and an open, unexpired action. |
| `RunService.AgentRunService.CancelRun` | enterprise/agent_runs/service.py:687-728 | Cancel commits exactly the cancelling transaction or nothing, returns the checkpoint the new journal replays to, and says why not by the first check that fails. |
| `RunService.AgentRunService.RejectRun` | enterprise/agent_runs/service.py:635-685 | Reject commits exactly the rejecting transaction or nothing, and says why not by the first check that fails. |
| `RunService.AgentRunService.ApproveRun` | enterprise/agent_runs/service.py:547-607 | Approve commits exactly the approving transaction, or nothing, also when the adapter cannot restore the run; it changes nothing without error exactly where there is no approval to act on, and else says why not by the first check that fails. |
| `RunService.AgentRunService.PauseForApproval` | enterprise/agent_runs/service.py:912-1009 | Pausing commits exactly the pausing transaction or nothing, and says why not by the first check that fails. |
| `RunService.AgentRunService.ReflectResult` | enterprise/agent_runs/service.py:843-910 | Reflecting a result commits exactly the translated result or nothing, and says why not by the first check that fails. |
| `SuffixReplan.AssessSuffixReplan` | enterprise/agent/work_orders.py:201-250 | A suffix replan needs no new authorization exactly when the plan is the direct successor of the same task, contract and scope, its completed steps are literally the same, and no step differing only in its id occurs more often than it was left; each failed check has its reason, in order, and contract, grants and accepted steps are those of the plans. |
| `SuffixReplan.AcceptedMeansKept` | enterprise/agent/work_orders.py:201-250 | Acceptance, computed on multisets of authorities and on scopes without nulls, is the same as equality of the plans' own fields and counts of equal steps. |
| `SuffixReplan.ReplansCompose` | enterprise/agent/work_orders.py:201-250 | Over any chain of accepted replans the version counts them, root, contract and scope bounds stay, every completed prefix survives literally, and no capability, grant, contract, input, transition or criteria occurs more often, nor are there more steps. |
| `SuffixReplan.ReplanAddsNoAuthority` | enterprise/agent/work_orders.py:233-238 | An accepted replan adds no authority to what is left after any point of the completed prefix. |
| `SuffixReplan.MutualScopesAreTheSame` | enterprise/agent/work_orders.py:253-260 | Neither scope expands the other exactly when units and resources are equal and the attributes differ at most in nulls. |
| `SuffixReplan.CountAuthorities` | enterprise/agent/work_orders.py:235-236 | The counter of step authorities is their multiset. |
| `SuffixReplan.AssessReplan` | enterprise/agent/work_orders.py:166-198 | A replan needs no new authorization exactly when contract, scope bounds, step ids and the facts of the last step of each id hold; each failed check has its reason, and contract and grants are invalidated exactly otherwise. |
| `SuffixReplan.BusinessInputsChanged` | enterprise/agent/work_orders.py:263-277 | Inputs count as changed exactly when the step ids or the facts of some step differ. |
| `SuffixReplan.SameFactsBringNoCapability` | enterprise/agent/work_orders.py:180-188 | The new-capability reason never stands alone: plans with the same facts use no new capability. |
| `SuffixReplan.WhatAnAcceptedReplanKeeps` | enterprise/agent/work_orders.py:166-198 | A whole-plan replan is accepted exactly when it keeps the contract, stays within the scope and states the same set of facts, step by step those of the last step of the same id; grants, versions, step contracts, criteria, order and number of steps are open. |
| `SuffixReplan.AnAcceptedReplanMaySwapGrants` | enterprise/agent/work_orders.py:263-277 | A replan that runs its step twice under another grant and version is accepted by the whole-plan assessment and refused by the suffix assessment. |
| `Interactions.EmptyResourcesBreakTransitivity` | enterprise/agent/interactions.py:347-354 | The scope check is not transitive: an empty resource set in the middle lets resources escape. |
| `Interactions.NullAttributesBreakTransitivity` | enterprise/agent/interactions.py:347-354 | The scope check is not transitive: a dropped attribute in the middle lets a null replace a value. |
| `Interactions.WhenWithinIsTransitive` | enterprise/agent/interactions.py:347-354 | Two chained scope checks amount to the direct one if and only if no restriction was lost through an empty resource set or a dropped attribute. |
| `Interactions.BuildGrantProjection` | enterprise/agent/interactions.py:167-217 | A projection exists exactly for one principal, workload, tenant and epoch of registered live grants, and shows exactly the live grants that allow some request, each kind of request by its own dimension. |
| `Interactions.BuiltProjectionsBind` | enterprise/agent/interactions.py:357-376 | On a projection built from the same grants no step is refused for its binding. |
| `Interactions.WhatCoverageIs` | enterprise/agent/interactions.py:347-354 | A scope allows all another allows exactly for the same units, resources named within the wider ones wherever those are named, and every attribute of the wider one fixed to the same value. |
| `Interactions.WhenTheCheckMeansCoverage` | enterprise/agent/interactions.py:347-354 | A scope that passes the check allows no more than the allowing scope if and only if it names resources wherever the other does and fixes every attribute the other fixes. |
| `Interactions.WhenCoverageMeansTheCheck` | enterprise/agent/interactions.py:347-354 | A covered scope passes the check if and only if it fixes no attribute the other leaves open, null aside. |
| `Interactions.ProposalsStayWithinEveryGrant` | enterprise/agent/interactions.py:299-320 | Every grant a valid proposal uses is executable now, belongs to the requesting principal and allows every resource the plan or request names; it allows all the plan scope allows exactly when the plan names resources and attributes wherever the grant does. |
| `Interactions.RequireEntry` | enterprise/agent/interactions.py:126-136 | The entry a request is checked against is an unexpired one of its capability and grant, and is missing only when there is none. |
| `Admission.Prepare` | enterprise/governance/admission.py:140-275 | A submission is admitted exactly when it is admissible, the bundle carries exactly the referenced grants, the audit record names every part of the submission as it is, and a refusal is that of the first check that fails. |
| `AdmissionTerms.WhatIsAdmitted` | enterprise/governance/admission.py:156-242 | Admission is exactly this: one task, tenant, principal, request and contract throughout, in time; the request was shown and is granted; every step runs a capability of the contract under a live grant that was shown as it is, allows request and execution, has the policy version and covers the scope; and every step is served by exactly one work order. |
| `Admission.CheckOrders` | enterprise/governance/admission.py:218-230 | The work orders pass exactly when they are one for each step and each is within its step. |
| `Admission.IndexOrders` | enterprise/governance/admission.py:218-219 | Indexing keeps one work order for every step id that occurs. |
| `Admission.SizesShowTheCover` | enterprise/governance/admission.py:219-225 | The size and key comparisons hold exactly when the orders are one for each step. |
| `Admission.OrdersAndStepsAreInBijection` | enterprise/governance/admission.py:222-228 | There are as many orders as steps, and each step has exactly one order. |
| `Admission.EveryOrderHasItsStep` | enterprise/governance/admission.py:222-225 | Each order has exactly one step. |
| `Admission.ReferencedGrants` | enterprise/governance/admission.py:232-240 | The admitted grants are exactly those the plan refers to, each once. |
| `Admission.AdmittedBundlesAreCovered` | enterprise/governance/admission.py:207-242 | Every admitted grant is used, executable, under the one policy version and allows every resource the plan names; it allows all the plan scope allows exactly when the plan names its limits; every step has such a grant. |
| `Admission.AnOpenPlanIsAdmitted` | enterprise/governance/admission.py:207-242 | A submission whose plan names no resource is admitted under a grant for one resource, which its scope then exceeds. |
| `AdmissionIdentity.DurationMicroseconds` | enterprise/governance/admission_persistence.py:218-222 | Days, seconds and microseconds recombine to the exact difference, also a negative one. |
| `AdmissionIdentity.AdmissionFingerprint` | enterprise/governance/admission_persistence.py:178-209 | Popping and rewriting the payload keys gives the digest of the bundle without times and with durations. |
| `AdmissionIdentity.NormalizeGrants` | enterprise/governance/admission_persistence.py:195-205 | Every grant payload loses its times and gains its durations. |
| `AdmissionIdentity.FingerprintsIdentifySemantics` | enterprise/governance/admission_persistence.py:178-209 | Two bundles have the same fingerprint if and only if they agree on everything but points in time, on how long the contract lives after its task was created, and on how long each grant holds and how long after its resolution it begins to. |
| `AdmissionIdentity.ShiftingKeepsTheFingerprint` | enterprise/governance/admission_persistence.py:180-203 | Moving every time by the same amount keeps the fingerprint; moving only the contract expiry does not. |
| `AdmissionIdentity.WhichTimesShow` | enterprise/governance/admission_persistence.py:180-193 | When a bundle was submitted, audited or authorized never shows in its fingerprint; when its task was created shows exactly through a contract that expires, and so does the expiry. |
| `AdmissionIdentity.WhichGrantTimesShow` | enterprise/governance/admission_persistence.py:195-203 | Of a grant its expiry and its beginning show, each against its resolution; without a beginning it begins at its resolution. |
| `AdmissionPersistence.ReceiptsAgree` | enterprise/governance/admission_persistence.py:99-165 | All receipts of one tenant and request name the same ids and commit time, and at most one is not a duplicate. |
| `AdmissionPersistence.OneRowPerRequest` | enterprise/governance/models.py:122-125 | At any moment a tenant and request has at most one admission row, announced exactly once in the outbox. |
| `AdmissionPersistence.EveryNewRowHasItsReceipt` | enterprise/governance/admission_persistence.py:109-113 | A row added during a run has one author, which holds its non-duplicate receipt unless it died in between. |
| `AdmissionPersistence.OutcomesAreTrue` | enterprise/governance/admission_persistence.py:158-165 | A receipt means the request is admitted with this meaning, a conflict that it is admitted with another, a raised error that a constraint stood in the way. |
| `AdmissionPersistence.CollisionsAreWithOwnRequest` | enterprise/governance/admission_persistence.py:114-124 | Where ids are never shared between requests, a collision is with the own request and is never raised. |
| `AdmissionPersistence.AdmittedRequestsAreAnswered` | enterprise/governance/admission_persistence.py:102-108 | A request already admitted is answered by its row without a change: duplicate for the same meaning, conflict for another. |
| `AdmissionPersistence.MeaningDecidesTheAnswer` | enterprise/governance/admission_persistence.py:158-165 | The answer is a duplicate exactly for the same semantics; a bundle with all times shifted alike is one. |
| `AdmissionPersistence.LateInsertsChangeNothing` | enterprise/governance/admission_persistence.py:109-124 | An insert that comes too late collides and changes nothing. |
| `AdmissionPersistence.InsertKeepsInv` | enterprise/governance/admission_persistence.py:109-113 | Inserting the admission row and its outbox row keeps every guarantee. |
| `AdmissionPersistence.AdmissionRepository.LookAndInsert` | enterprise/governance/admission_persistence.py:100-113 | The first transaction answers an earlier admission by its row, inserts both rows as submitted at this time, or collides. |
| `AdmissionPersistence.AdmissionRepository.CheckBundle` | enterprise/governance/admission_persistence.py:48-69 | A bundle is refused before any table is touched exactly for the first of these: not audit-only, several tenants, a tenant or a capability outside the allowlists. |
| `AdmissionPersistence.AdmissionRepository.Persist` | enterprise/governance/admission_persistence.py:99-124 | Looking, inserting and looking again, whatever other submitters do in between, ends with the answer of the row that was there before or the own receipt at this time. |
| `AdmissionPersistence.AdmissionRepository.PersistAtomic` | enterprise/governance/admission_persistence.py:47-124 | A call is refused exactly for a wrong mode, tenant or capability, by the first such check, and otherwise is a process of the protocol that ends with what it returns: a request admitted before is answered duplicate or conflict by whether its bundle means the same, a new one has its own receipt. |
| `Quantiles.QuantilesAreMonotoneAndBounded` | enterprise/evaluation/quantitative_benchmark.py:420-430 | The interpolated quantile grows with the percentile and lies between the smallest and the largest sample. |
| `Quantiles.QuantileEnds` | enterprise/evaluation/quantitative_benchmark.py:420-430 | The ends of the percentile scale are the ends of the sample. |
| `Quantiles.AtIsMonotone` | enterprise/evaluation/quantitative_benchmark.py:425-430 | Linear interpolation never goes down along an ordered sample. |
| `Quantiles.QuantilesInterpolate` | enterprise/evaluation/quantitative_benchmark.py:420-430 | From one sample to the next a quantile grows in proportion to the percentile: any mix of two percentiles has the same mix of their quantiles. |
| `Quantiles.QuantileAtSample` | enterprise/evaluation/quantitative_benchmark.py:420-430 | Where the percentile falls on a sample the quantile is that sample. |
| `Quantiles.MedianIsTheMiddle` | enterprise/evaluation/quantitative_benchmark.py:420-430 | The median is the middle sample of an odd number and the mean of the two middle ones of an even number. |
| `Benchmark.Rate` | enterprise/evaluation/quantitative_benchmark.py:411-413 | A count rate passes its validator whenever the events do not exceed the denominator. |
| `Benchmark.LatencyOf` | enterprise/evaluation/quantitative_benchmark.py:433-442 | Latency metrics always pass their validator: the median never exceeds the 95th percentile. |
| `Benchmark.LatencyStaysInRange` | enterprise/evaluation/quantitative_benchmark.py:433-442 | Both quantiles lie within any bounds of the latencies. |
| `Benchmark.RecoveryAddsUp` | enterprise/evaluation/quantitative_benchmark.py:303-323 | Case counts, events and denominators of the categories add up to the overall recovery metrics. |
| `Benchmark.RecoveryIsValid` | enterprise/evaluation/quantitative_benchmark.py:296-323 | Recovery metrics pass every validator. |
| `Benchmark.GroupIsValid` | enterprise/evaluation/quantitative_benchmark.py:452-468 | Every category metric passes its validator. |
| `Benchmark.GroupRecoveries` | enterprise/evaluation/quantitative_benchmark.py:496-498 | The grouping loop puts every recovery into its category, in order, and nothing else. |
| `BenchmarkReport.AggregateIsValid` | enterprise/evaluation/quantitative_benchmark.py:374-408 | The aggregated report passes every validator. |
| `BenchmarkReport.AggregateIgnoresOrder` | enterprise/evaluation/quantitative_benchmark.py:471-580 | Reordering the cases changes neither the report nor whether there is one. |
| `BenchmarkReport.AggregateBenchmark` | enterprise/evaluation/quantitative_benchmark.py:471-580 | There is a report exactly for a non-empty corpus of one version in which no case occurs twice, each refusal for its own reason, and it passes every validator. |
| `BenchmarkFigures.OneMoreCase` | enterprise/evaluation/quantitative_benchmark.py:480-580 | One case more changes every figure of the report by exactly its own fields, starting from the empty report, and a recovery counts once among all and once in its own category. |
| `BenchmarkFigures.LatencyQuantiles` | enterprise/evaluation/quantitative_benchmark.py:433-442 | The reported median is the middle latency or the mean of the two middle ones, and the 95th percentile the latency it falls on, of all latencies in ascending order. |
| `BenchmarkFigures.LatenciesAreTheCases` | enterprise/evaluation/quantitative_benchmark.py:574 | The latencies of a report are those of its cases. |
| `BenchmarkFigures.LatenciesAreTheCategorys` | enterprise/evaluation/quantitative_benchmark.py:452-468 | The latencies of a category are those of its recoveries. |
| `PairedBenchmark.PairedReportIsValid` | enterprise/evaluation/quantitative_benchmark.py:660-736 | Every paired report passes every validator, also when every pair is invalid. |
| `PairedBenchmark.ArmsAreSampledAlike` | enterprise/evaluation/quantitative_benchmark.py:710-720 | Every arm is sampled once for each valid pair. |
| `PairedBenchmark.AllInvalidReportsTheSeedsSafety` | enterprise/evaluation/quantitative_benchmark.py:668-698 | With every pair invalid nothing is sampled, but the safety counts and dimensions are those of the seed record. |
| `PairedAggregation.GroupPairs` | enterprise/evaluation/quantitative_benchmark.py:642-644 | Grouping collects every pair with its records in the order they are met, and the pairs in the order of their first records. |
| `PairedAggregation.CheckGroup` | enterprise/evaluation/quantitative_benchmark.py:648-654 | A group passes exactly with one record per arm and one declared opportunity, and is refused for the first of the two that it lacks. |
| `PairedAggregation.ClassifyPairs` | enterprise/evaluation/quantitative_benchmark.py:645-658 | Classification ends at the first incomplete pair with what is wrong with it, else collects exactly the records of the valid pairs and counts both kinds. |
| `PairedAggregation.AggregatePaired` | enterprise/evaluation/quantitative_benchmark.py:630-736 | There is a paired report exactly for complete pairs with an aggregatable set of representatives; it is the report of the valid pairs and passes every validator; an incomplete list is refused for its first incomplete pair, by the reason of that pair. |
| `PairedFigures.WhatCompletePairsAre` | enterprise/evaluation/quantitative_benchmark.py:645-654 | A list is made of complete pairs exactly when every record has one record of each arm in its pair, each once, all declaring the same opportunities. |
| `PairedFigures.WhatHasAHeadline` | enterprise/evaluation/quantitative_benchmark.py:660-699 | There is a headline exactly when the governed records of the unspoiled pairs are of one corpus and no two of them of one case. |
| `PairedFigures.CountedAreValid` | enterprise/evaluation/quantitative_benchmark.py:655-658 | The valid records are those of pairs in which no record reports unfairness or a fault. |
| `PairedFigures.GovernedRecordsMakeTheHeadline` | enterprise/evaluation/quantitative_benchmark.py:660-699 | The headline of a paired report is the report of the governed records of the unspoiled pairs. |
| `PairedFigures.ArmsAndPairsAreCounted` | enterprise/evaluation/quantitative_benchmark.py:700-736 | Each arm is measured on its own records of those pairs, in the order G, B0, B1, and both kinds of pairs are counted. |
| `PairedFigures.OneMoreRecord` | enterprise/evaluation/quantitative_benchmark.py:590-627 | A record counts only for the opportunities it was declared to offer, as met exactly by its own fields. |
| `PairedFigures.NobodyIsCounted` | enterprise/evaluation/quantitative_benchmark.py:668-698 | Without an unspoiled pair the report samples nothing and keeps only what the first record with the alphabetically least case id says of safety and dimensions. |
| `PairedFigures.BeforeIsAlphabetical` | enterprise/evaluation/quantitative_benchmark.py:671 | The order of case ids is the alphabetical one. |
| `PairedOrder.PairedReportIgnoresOrder` | enterprise/evaluation/quantitative_benchmark.py:630-736 | With a valid pair present, reordering the records changes nothing. |
| `PairedOrder.OnePairMoreIsComplete` | enterprise/evaluation/quantitative_benchmark.py:645-654 | The records of a new pair leave a list of complete pairs exactly when they are a complete pair. |
| `PairedOrder.InvalidPairsChangeOnlyTheirCount` | enterprise/evaluation/quantitative_benchmark.py:660-736 | With a valid pair present, an added complete invalid pair, wherever its records stand, changes nothing but the count of invalid pairs; an incomplete one leaves no report. |
| `PairedOrder.AllInvalidReportsAgree` | enterprise/evaluation/quantitative_benchmark.py:668-698 | With every pair invalid, two orders of one list give the same report exactly when their seeds agree on safety counts and dimensions. |
| `PairedOrder.WhenOrderNeverMatters` | enterprise/evaluation/quantitative_benchmark.py:671 | With every pair invalid, the order never matters exactly when all records of the least case id agree on safety counts and dimensions. |
| `PairedOrder.TiesAreBrokenByOrder` | enterprise/evaluation/quantitative_benchmark.py:671 | One flagged pair in two orders of its arms is accepted both times and reported with different unauthorized effects. |

## Left out

- Cancellation of the asynchronous task: an exception outside the `Exception` hierarchy ends the loop without a report.
- Event times: `occurred_at` of loop events, and the clock and identifier sources failing; both are taken to answer.
- Titles, DOM, screenshots and element lists of an observation, and the content of model inputs.
- Configuration validation and the integrity secret: constructor checks only.
- The browser itself: a call is an entry in the history of calls.
- `confirm_execution_attempt` and `fail_execution_attempt`: no code calls them; if it did, an EXECUTING attempt could end
  without an UNKNOWN record.
- Attempt identifiers of the executor are numbers; only their equality and order are used.
- Row locking, `skip_locked` and isolation levels: a transaction is one atomic step, and the rows a scan skips are a parameter.
- The legacy journal id scheme is only the second of two accepted ids.
- Sorting of journal rows by sequence on loading: the rows are held in that order.
- Operation keys, tenants and roles: a key is an opaque text, and every row belongs to the caller's organization.
- The pack adapter: its results are inputs, and whether it can restore a run is one.  What happens between the
  transactions of `approve` and `probe` is covered by stating each transaction for arbitrary rows.
- The read-only first transaction of `probe`, run creation and the advisory lock around it.
- Pause records, decision traces, timelines and reports of the service: display of what the projection already says.
- The role names of public plan steps.
- Loading a mismatched admission during an approval pause: the model refuses it there too.
- Attribute values equal in Python but not in JSON (true and 1) are different here.
- Sorted output order of projections, admitted grants, dimensions and categories: they are sets, maps or lists in source order.
- Python's truth value of a validator object, schema contents, and error texts of the validators; `Admission.Prepare`
  has one text for each group of checks.
- The snapshot dump inside a contract is compared as a value, not as JSON with lists in set order.
- Creation provenance checks of a snapshot and the fields of work orders that no check reads.
- The stored bundle fingerprint and payload columns, which nothing reads back here.
- Floating-point rounding and the tolerance of the report validators.
- Cases that violate their own record validators are not aggregated.
- The loops over attributes, columns and models that only move data between representations.
- `Coordinator` results whose status changes nothing (awaiting approval, failed) carry no further content.
- BrowserLoop.BrowserLoop.Run: its bound on external writes holds for the durable executor with a fault hook that does
  not raise retryable errors, which is the exact condition.
- RunLifecycle.JournalSurvivesEveryRun: takes it that rows once canceled stay canceled when others change them, and that
  the clock does not go back.
- The answers of a loop iteration are fixed when it begins, except the runtime's: each port is asked at most once in it, so
  an answer that depends on the ones before it is one of those considered.
