# Verified model of the Symphony orchestration service

Symphony polls an issue tracker, runs one coding agent per eligible issue, and keeps claims, retries, runtime and token
totals while workers, timers and configuration reloads interleave with it. This project models the parts of it in which
many small rules have to hold together, and proves what they are for.

- **The orchestrator as a step machine.** `Machine`, `Reconcile` and `Handlers` are the steps; `Orchestration` is the
  object that performs them in place, each method proved equal to its step. The outside world acts between commands and
  at every suspension inside a handler: a state carries what will happen at its coming suspensions, so a statement about
  all states is a statement about all interleavings. `Invariant` and `Reachability` hold the safety results, `Dispatch`
  the tick, `RetryLadder` the attempts and their delays, `RetryOutcomes` what a fired retry leads to, `ReconcileEffects`
  what reconciliation does to runs, claims and workspaces, `Ledger` and `Conservation` the accounts, and
  `ReconcileEquivalence` and `RunEquivalence` the two reconcilers.
- **The scheduling order, the backoff and the token deltas** (`Scheduling`, `Backoff`, `Tokens`), against independent
  definitions of what they should be.
- **The retry timer queue** (`RetryTimers`), refined to a queue whose cancelled timers never fire.
- **The chunker and the budgeted recursion** (`Chunker`, `ChunkBoundaries`, `BoundaryFree`, `Fanout`, `Recursion`,
  `RecursionAnswers`, `RecursiveRuns`, `RecursionModes`), and the planner that prices a query in advance
  (`RecursionPlans`, `Planning`), with what its price is worth (`PlanVerdicts`, `CallBounds`).
- **The remote command builder** (`RemoteCommand`), with the re-parser it uses and the shell it is meant for.
- **The SSH host pool** (`HostPools`, `HostPoolObject`), with the tasks that sleep on its condition.
- **The worker attempt** (`Runner`), every way out with its cleanup.
- **Usage reports** (`Usage`, `UsageRules`, `Claude`): which counts in a payload are absolute, and the trip from
  per-turn usage through absolute totals and back.

`Options`, `Numbers` and `Dicts` are helpers: an option type, the larger and the smaller of two numbers, and a dictionary
that remembers insertion order, with sums over it.

Where the source and its own comments disagree, the model follows the code:

- "At most `fanout` pieces" (src/symphony/rlm/recursive.py:147-148) can fail on natural boundaries
  (`Fanout.FanoutIsNotTheBound`). `Fanout.FanoutHoldsIffUnitsPack` says for every body when it holds,
  `Fanout.FanoutHoldsWithoutBoundaries` and `Fanout.FanoutHoldsForShortUnits` give two conditions that are easy to check,
  and `Fanout.SplitCountBound` the bound that always holds without overlap.
- An oversized answer is said never to be silent (src/symphony/rlm/recursive.py:387-390). It is silent exactly where the
  payload fits one affordable call, whose answer nobody reduces: `Recursion.OversizedIsReportedIff`, and
  `Recursion.OversizedCanBeSilent` for an instance.
- `max_calls_upper_bound` (src/symphony/rlm/recursive.py:338-342) ignores reductions of several pieces
  (`CallBounds.UpperBoundCanFail`) and uneven splits (`CallBounds.UnevenSplitsExceedTheBound`).
  `CallBounds.UpperBoundHoldsIff` says when it holds whatever is asked and answered,
  `PlanVerdicts.UpperBoundHoldsWithoutReductionsIff` when no merge is
  oversized. Against completeness it is a pessimist: `PlanVerdicts.FitsBudgetIsSoundUpToInternalNodes`.
- The two reconcilers differ when an answer repeats an id (src/symphony/orchestrator/reconcile.py:365-404 keeps the first
  mention, src/symphony/orchestrator/core.py:911-955 applies each); `ReconcileEquivalence.ReconcilersAgreeIff` is exact.
- `HostPool.release` calls itself idempotent (src/symphony/ssh/worker.py:783). It is if and only if the host has at most
  one lease out (`HostPools.ReleaseIsIdempotentIff`), and over every run a lease returned twice is harmless if and only if
  no other is out on its host (`HostPools.DoubleReleaseIsHarmlessIff`). The pool's other results are for tasks that return
  each lease once, as `lease` does.
- after_run is owed on every exit once before_run succeeded (src/symphony/agent/runner.py:466-467); a cancellation that
  arrives during the session stop skips it (`Runner.CancelledStopSkipsAfterRun`), and `Runner.AfterRunIsOwedOnce` says
  exactly when.

## Model

| member | source | states |
|---|---|---|
| `Reachability.NothingClaimedIsStranded` | src/symphony/orchestrator/core.py:554-886 | In every state reached between two commands, under any interleaving at any suspension, `claimed` is the disjoint union of `running` and `retry_attempts`; each running entry has an unfinished worker or exactly one queued exit; each retry has exactly one wakeup, an armed timer or one queued firing; no issue is merely claimed. |
| `Reachability.FiringFindsItsEntry` | src/symphony/orchestrator/core.py:807-849 | A queued retry firing always finds its entry, and its issue is not running, before and after the tracker call: the branch for an already running issue is dead code. |
| `Reachability.LiveTasksAreHandles` | src/symphony/orchestrator/core.py:639-707 | Every worker task neither cancelled nor finished is the handle of a running entry, and only of the one for its own issue. |
| `Reachability.OneWorkerPerIssue` | src/symphony/orchestrator/core.py:639-707 | No issue ever has two workers that are neither cancelled nor finished. |
| `Reachability.ExitIsInertIffCancelled` | src/symphony/orchestrator/core.py:709-753 | A queued exit leaves the whole state unchanged if and only if its worker had been cancelled. |
| `Reachability.RunKeepsInv` | src/symphony/orchestrator/core.py:554-592 | Every action of the service or of the world around it keeps the invariant, over whole runs. |
| `Reachability.ProcessKeepsInv` | src/symphony/orchestrator/core.py:554-600 | One round of the mailbox, whatever happens at its suspensions, keeps the invariant. |
| `Reachability.ReconcileKeepsInv` | src/symphony/orchestrator/core.py:890-982 | Both reconcilers keep the invariant for every refresh and every interleaving. |
| `Reachability.FinishRetryKeepsInv` | src/symphony/orchestrator/core.py:824-862 | The retry handler after its tracker call gives the held issue back to exactly one of: running, retry queue, unclaimed. |
| `Invariant.OccurKeepsInv` | src/symphony/orchestrator/core.py:691-707 | A worker finishing, a timer firing, a report, a reload or a tick arriving at any moment keeps the invariant, also while a handler holds an issue. |
| `Invariant.TerminateKeepsInv` | src/symphony/orchestrator/core.py:984-1037 | Termination, with the suspension inside its cleanup, leaves the issue unclaimed or queued for retry and the rest as it was. |
| `Invariant.ScheduleKeepsInv` | src/symphony/orchestrator/core.py:757-800 | Scheduling a retry replaces the old wakeup: the entry ends with one armed timer and no queued firing. |
| `Invariant.SpawnKeepsInv` | src/symphony/orchestrator/core.py:665-683 | A spawned worker is fresh, uncancelled, and the one handle of its entry. |
| `ReconcileEquivalence.ReconcilersAgreeIff` | src/symphony/orchestrator/core.py:304-336 | For every state and every answer the delegated and the built-in reconciler reach the same state, suspension by suspension, if and only if every id the answer repeats is harmless for the runs that survive stall detection. |
| `ReconcileEquivalence.ReconcilersAgree` | src/symphony/orchestrator/reconcile.py:419-533 | In particular they agree on every answer without repeated ids and on a failed call. |
| `ReconcileEquivalence.RepeatedIdsCanDisagree` | src/symphony/orchestrator/reconcile.py:365-404 | The concrete disagreement: a repeated id whose first mention keeps the run and whose second ends it. |
| `ReconcileEquivalence.RefreshesAgreeIff` | src/symphony/orchestrator/core.py:911-955 | The same condition for the refresh phase alone, with the built-in loop read as last mention wins and the plan as first mention wins. |
| `ReconcileEquivalence.StallPhasesAgree` | src/symphony/orchestrator/core.py:957-982 | Planning all stalls first and terminating then is the same as the built-in loop: release followed by schedule is one schedule. |
| `ReconcileEffects.ReconciliationObeysTheTracker` | src/symphony/orchestrator/core.py:890-955 | For either reconciler and every answer without repeated ids, after stall detection: the workspaces cleaned are exactly the non-empty identifiers of the runs whose issue was answered terminal, in answer order; a run goes on, with the answered issue, if and only if that is active, not terminal, dispatchable and labelled; every other run is ended, unclaimed and its worker cancelled; a failed call ends none. |
| `ReconcileEffects.RefreshObeys` | src/symphony/orchestrator/core.py:911-955 | The same for the built-in refresh phase on its own, from any state. |
| `ReconcileEffects.StallEffects` | src/symphony/orchestrator/core.py:957-982 | Stall detection queues exactly the runs silent for longer than the configured time, one attempt further with the documented delay and with their workers cancelled; it cleans no workspace and leaves every other issue alone. |
| `RunEquivalence.RunsAgree` | src/symphony/orchestrator/core.py:304-336 | Over whole runs from the start, delegated and built-in reconciliation go through the same states as long as no answer repeats an id. |
| `RetryLadder.RetriesWaitAsDocumented` | src/symphony/orchestrator/core.py:757-800 | Every retry queued in any state of any run has an attempt of at least one and waits the documented time of that attempt under a cap that was configured (the one cap, while it is left alone), or the continuation delay of a first one. |
| `RetryLadder.ExitQueuesTheNextStep` | src/symphony/orchestrator/core.py:709-753 | An exit leaves its issue claimed and queued with a fresh armed timer: a failure one attempt further with the documented delay, a normal exit at attempt one with the continuation delay, and only the latter completed. |
| `RetryLadder.RetryRunsItsAttempt` | src/symphony/orchestrator/core.py:807-880 | In every reachable state, a fired retry that ends in a run runs under the attempt it was queued for, on the issue just read, which is active, not terminal and routable under the configuration in force. |
| `RetryOutcomes.FiredRetryIsSettled` | src/symphony/orchestrator/core.py:807-862 | In every reachable state a fired retry is settled by the answer: a failed call queues attempt + 1 under the old identifier with the documented delay; an issue not returned, not active, not dispatchable or not labelled is released and nothing cleaned; a terminal one is released and cleaned; without a slot, global or of its state, or with a failed spawn, attempt + 1 is queued; else it runs. Every other issue is left alone. |
| `RetryLadder.RunKeepsClimbing` | src/symphony/orchestrator/core.py:554-600 | Every action of the service or of the world around it keeps retries and runs on the ladder of attempts. |
| `Dispatch.TickIsWorkConserving` | src/symphony/orchestrator/core.py:602-635 | When the loop of a tick ends, no slot is left or no candidate satisfies `should_dispatch`; and the loop pushes no state past the larger of its limit and what it already ran. |
| `Dispatch.TickStartsOnlyFitCandidates` | src/symphony/orchestrator/core.py:602-635 | Whatever a tick starts after reconciling was neither running nor claimed; it runs on a candidate of that id with non-blank id, identifier, title and state, active, not terminal, dispatchable and with every required label, as a first attempt with a fresh session and a new worker; a candidate whose spawn failed is queued; nothing else changes. |
| `Dispatch.NoPriorityInversion` | src/symphony/orchestrator/core.py:626-635 | A candidate passed over for a later-sorted one had a global slot in front of it: it was blocked by eligibility, a run, a claim, its state's limit, or a failed spawn. |
| `Dispatch.LoopIsWorkConserving` | src/symphony/orchestrator/core.py:626-635 | The loop stops early only for want of a slot; everything before that is blocked for good within the tick. |
| `Dispatch.LoopAdvances` | src/symphony/orchestrator/core.py:626-635 | Within the loop everything that blocks a candidate only grows, and no state is pushed past its limit. |
| `Dispatch.DispatchRespectsLimits` | src/symphony/orchestrator/scheduling.py:200-224 | A dispatch leaves its own normalized state within that state's limit and the running map within the global one. |
| `Conservation.BooksBalance` | src/symphony/orchestrator/core.py:716-718 | Over every run each worker ever spawned is running or was banked exactly once, banked time is the sum of what was banked, and each token total is the sum of the credits of all sessions ever live. |
| `Conservation.RuntimeConservedWhenARunEnds` | src/symphony/orchestrator/core.py:1002-1008 | Banked plus live runtime does not move at the instant a run exits or is terminated. |
| `Conservation.RuntimeConservedAtDispatch` | src/symphony/orchestrator/core.py:665-673 | Nor at the instant one is dispatched. |
| `Conservation.RuntimeNeverDecreases` | src/symphony/observability/snapshot.py:159-172 | Under a clock that never steps back, reported runtime never decreases over any run. |
| `Conservation.CommandRespectsGlobalLimit` | src/symphony/orchestrator/core.py:851-880 | A command that grows the running map leaves it within the global limit in force. |
| `Conservation.GlobalLimitHolds` | src/symphony/orchestrator/scheduling.py:200-208 | While the configured limit stays within a bound, so does the running map in every state of the run. |
| `Ledger.EndRunConserves` | src/symphony/orchestrator/core.py:1186-1190 | Ending a run banks exactly its live time and its credit, once. |
| `Ledger.SpawnConserves` | src/symphony/orchestrator/core.py:665-683 | A new run adds no time, no tokens, and one handle not seen before. |
| `Conservation.ReportMovesAggregateWithSession` | src/symphony/orchestrator/core.py:1067-1134 | A report moves each aggregate count by the credit it adds to its session, which is what its total exceeds the last report by; it rebases that session, notes the activity, and keeps everything else; one for an issue not running changes nothing. |
| `Orchestration.Orchestrator.RunTick` | src/symphony/orchestrator/core.py:602-635 | The tick in place, with its loop over sorted candidates, reaches the state of the step function. |
| `Orchestration.Orchestrator.DispatchIssue` | src/symphony/orchestrator/core.py:639-683 | Dispatch in place; a failed spawn leaves a retry instead. |
| `Orchestration.Orchestrator.HandleWorkerExit` | src/symphony/orchestrator/core.py:709-753 | Worker exit in place: the stale exit is dropped, a normal one banks and continues, a failure backs off. |
| `Orchestration.Orchestrator.ScheduleRetry` | src/symphony/orchestrator/core.py:757-800 | Retry scheduling in place: the old timer cancelled, one armed, the claim kept. |
| `Orchestration.Orchestrator.HandleRetryTimer` | src/symphony/orchestrator/core.py:807-862 | The retry handler in place, with its suspension. |
| `Orchestration.Orchestrator.TerminateRunningIssue` | src/symphony/orchestrator/core.py:984-1037 | Termination in place, with the suspension in its cleanup. |
| `Orchestration.Orchestrator.HandleAgentUpdate` | src/symphony/orchestrator/core.py:1067-1134 | The inline token accounting refines the credit of one report to a session and the aggregate. |
| `Orchestration.Orchestrator.ReconcileBuiltIn` | src/symphony/orchestrator/core.py:890-955 | The built-in loops in place. |
| `Orchestration.Orchestrator.ReconcileStalledRuns` | src/symphony/orchestrator/core.py:957-982 | The built-in stall loop in place. |
| `Orchestration.Orchestrator.ReconcileWithModule` | src/symphony/orchestrator/reconcile.py:465-533 | Plan, then execute, against the same object. |
| `Orchestration.Orchestrator.PlanStallTerminations` | src/symphony/orchestrator/reconcile.py:260-289 | The stall plan names exactly the silent runs, in running order, with their next attempts. |
| `Orchestration.PlanReconciliation` | src/symphony/orchestrator/reconcile.py:365-404 | The two planning loops: first mentions of known ids in answer order, then what was not returned. |
| `Orchestration.PlanReturned` | src/symphony/orchestrator/reconcile.py:383-392 | The first loop, with the set it has returned. |
| `Orchestration.PlanMissing` | src/symphony/orchestrator/reconcile.py:394-404 | The second loop. |
| `Orchestration.Orchestrator.LiveRuntimeMs` | src/symphony/observability/snapshot.py:159-172 | The accumulating loop computes banked time plus the live time of every running entry. |
| `Orchestration.Orchestrator.Process` | src/symphony/orchestrator/core.py:554-600 | One round of the mailbox in place. |
| `Scheduling.SortIsTheStableOrdering` | src/symphony/orchestrator/scheduling.py:97-124 | A list is the dispatch order if and only if it is ordered by the five-part key and keeps equal keys in input order. |
| `Scheduling.StableOrderingIsUnique` | src/symphony/orchestrator/scheduling.py:97-124 | There is only one such list, so the sorting algorithm does not matter. |
| `Scheduling.SortIsStableOrdering` | src/symphony/orchestrator/scheduling.py:113-124 | The dispatch order is ordered, stable, and a permutation of its input. |
| `Scheduling.KeyLeIsTotalOrder` | src/symphony/orchestrator/scheduling.py:63-110 | The five-part key is a total order. |
| `Scheduling.OrderIsDocumented` | src/symphony/orchestrator/scheduling.py:63-110 | What the key means: priorities 1 to 4 first, lower numbers before higher; then the older issue, one without a date last; then the identifier. |
| `Scheduling.RunningCountIsCardinality` | src/symphony/models.py:435-438 | The count for a state is the number of runs whose issue is in it now, up to case and outer blanks. |
| `Scheduling.NamesCompareTrimmed` | src/symphony/models.py:52-62 | A name is normalized to what lies between its outer blanks, in lower case. |
| `Tokens.ReplayCreditsPositiveIncrements` | src/symphony/agent/events.py:461-507 | Over any report sequence, with resets and repeats, the credit is the sum of the positive increments and the baseline is the last report. |
| `Tokens.CreditCoversLastReport` | src/symphony/agent/events.py:461-507 | The credit never falls below the last report, and stays equal to it if and only if no report ever dropped. |
| `Tokens.ApplyTokenTotals` | src/symphony/agent/events.py:476-507 | In place: session and optional aggregate move by the same delta. |
| `Backoff.BackoffIsDocumentedFormula` | src/symphony/orchestrator/retry.py:80-92 | For all integers the clamped shift equals max(0, min(10000 * 2^(max(attempt, 1) - 1), cap)). |
| `Backoff.BackoffIntermediateIsBounded` | src/symphony/orchestrator/retry.py:80-92 | The shifted integer never exceeds max(10000, 2 * cap), by the bit-length bound. |
| `Backoff.BackoffIsMonotone` | src/symphony/orchestrator/retry.py:80-92 | The delay is monotone in the attempt. |
| `Backoff.BitLengthBounds` | src/symphony/orchestrator/retry.py:91-91 | A number lies between two neighbouring powers of two, as its bit length says. |
| `RetryTimers.RunRefinesPerfectCancellation` | src/symphony/orchestrator/retry.py:246-406 | Although a cancelled timer's callback may still run once at any time, and a reload may move the backoff cap between any two operations, deliveries and pending entries over any run are those of a queue whose cancelled timers never fire. |
| `RetryTimers.StepRefinesPerfectCancellation` | src/symphony/orchestrator/retry.py:246-406 | The same for each operation, the failing timer factory included. |
| `RetryTimers.FiringDeliversIffNotRetired` | src/symphony/orchestrator/retry.py:380-406 | A callback delivers if and only if its entry was not replaced, cancelled or popped before. |
| `RetryTimers.DeliveredAtMostOnce` | src/symphony/orchestrator/retry.py:246-406 | No scheduled entry is delivered twice; entries and generations share one domain; scheduled = pending + replaced + cancelled + popped. |
| `RetryTimers.ScheduleArmsOneTimer` | src/symphony/orchestrator/retry.py:233-306 | Scheduling records the entry as due after one second for a continuation and after the documented backoff for a failure; the one callback that will be delivered for the issue is newly armed; other issues keep theirs; a raising factory leaves the issue with nothing; an unknown regime changes nothing. |
| `RetryTimers.StepKeepsInv` | src/symphony/orchestrator/retry.py:246-406 | Every operation keeps the invariant behind these. |
| `RetryTimers.RetryQueue.Schedule` | src/symphony/orchestrator/retry.py:246-306 | Scheduling in place; a raising timer factory leaves no entry behind. |
| `RetryTimers.RetryQueue.Insert` | src/symphony/orchestrator/retry.py:276-292 | The entry and its generation, or neither. |
| `RetryTimers.RetryQueue.Cancel` | src/symphony/orchestrator/retry.py:339-345 | Cancelling in place. |
| `RetryTimers.RetryQueue.Pop` | src/symphony/orchestrator/retry.py:355-365 | Popping in place. |
| `RetryTimers.RetryQueue.OnTimer` | src/symphony/orchestrator/retry.py:380-406 | The callback in place: due if and only if its generation is the current one. |
| `Chunker.ChunkTextTiles` | src/symphony/rlm/repl.py:224-278 | Chunk bodies are non-empty, contiguous and end where the text ends; each chunk is the slice it says, within the limit with its overlap; two neighbouring bodies overflow one body budget. |
| `Chunker.ChunkCountBound` | src/symphony/rlm/recursive.py:295-297 | With no overlap, chunks of at least a fanout-th of the text are at most 2 * fanout - 1. |
| `Chunker.UnitsTile` | src/symphony/rlm/repl.py:193-203 | Splitting at the boundaries of a level loses and invents nothing. |
| `Chunker.AtomsTile` | src/symphony/rlm/repl.py:206-221 | Descending the ladder yields non-empty pieces within budget that concatenate to the text. |
| `Chunker.BodiesTile` | src/symphony/rlm/repl.py:267-278 | Greedy packing keeps the text, stays within budget, and never leaves two neighbours that fit together. |
| `ChunkBoundaries.ChunkingIsUnique` | src/symphony/rlm/repl.py:193-278 | A list is what the chunker makes if and only if it tiles the text and every body ends at the last position within the body budget that the ladder allows; the ladder is told by the cuts of each level alone, for every boundary mode. |
| `ChunkBoundaries.AutoBreaks` | src/symphony/rlm/repl.py:206-221 | For `auto`, a position is allowed if and only if it is a paragraph cut, or the paragraph around it is over the budget and it is a line cut there, or so is the line around it and it is a sentence cut there, or so is the sentence around it and it is a multiple of the budget into it. |
| `ChunkBoundaries.ChunksEndAtLastBreaks` | src/symphony/rlm/repl.py:224-278 | Every body ends at the last allowed position that fits. |
| `ChunkBoundaries.AtomsEnd` | src/symphony/rlm/repl.py:206-221 | A piece of the ladder ends exactly where the cuts of its levels allow it. |
| `Chunker.MakeChunks` | src/symphony/rlm/repl.py:224-278 | The chunker in place: an error exactly for a bad size, else the tiling above. |
| `Chunker.PackChunks` | src/symphony/rlm/repl.py:250-278 | The packing loop with its flush computes the chunks of the packed bodies. |
| `Chunker.SplitToFit` | src/symphony/rlm/repl.py:206-221 | The ladder loop computes the atoms. |
| `Recursion.QueryStaysWithinBudget` | src/symphony/rlm/recursive.py:214-238 | For any sub-model and any combiner, no query exceeds its calls, its tokens or its depth, or sends a context over the leaf size; the ledger counts exactly what was sent. |
| `Recursion.BlockedIffCallBreaksABound` | src/symphony/rlm/recursive.py:227-238 | Within the budget, a call is blocked exactly when making it would break a bound, and for the call count exactly when all calls are used up. |
| `Recursion.NoStopsMeansComplete` | src/symphony/rlm/recursive.py:412-504 | If no stop is reported, the leaf contexts cover every position of the payload; the answer fits the leaf budget if the root was split, and is the one call's answer if it was not. |
| `Recursion.OversizedIsReportedIff` | src/symphony/rlm/recursive.py:387-390 | An oversized answer comes with a stop, whatever the sub-model and the combiner do, if and only if the payload is empty, over the leaf size, or over the token bound: not for a payload that fits one affordable call. |
| `Recursion.OversizedCanBeSilent` | src/symphony/rlm/recursive.py:472-475 | The failing case: a payload of one character, an answer over the leaf size, no stop. |
| `Recursion.SolveExtends` | src/symphony/rlm/recursive.py:472-490 | A subtree only adds calls and stops, and stays within the budget. |
| `Recursion.SolveCovers` | src/symphony/rlm/recursive.py:472-490 | A subtree that reports no stop covers its own part of the payload. |
| `Recursion.PiecesCover` | src/symphony/rlm/recursive.py:476-489 | So do the pieces of one level, from any piece on. |
| `Recursion.ReduceFits` | src/symphony/rlm/recursive.py:441-470 | A reduction that reports no stop ends within the leaf budget. |
| `RecursionAnswers.AnswerIsAllReplies` | src/symphony/rlm/recursive.py:412-504 | With a combiner that concatenates and no merge reduced, the answer is the concatenation of what the sub-model answered to each context sent, in the order sent, even if the query stopped. |
| `RecursionAnswers.SilentQueryIsUnbudgeted` | src/symphony/rlm/recursive.py:412-504 | Without a stop, for every combiner, the answer and the contexts sent, in order, are those of the same recursion without ledger, cuts or rounds: each answer enters one merge in its place. |
| `RecursionAnswers.ReductionNeverLoses` | src/symphony/rlm/recursive.py:441-470 | A reduction answers with its text or with what one of at most three whole passes combined; each pass shrinks it, only the last may fail to, which is reported; the answer is never empty unless the text was. |
| `Fanout.SplitCountBound` | src/symphony/rlm/recursive.py:476-480 | With no overlap one level makes at most 2 * fanout - 1 pieces. |
| `Fanout.FanoutHoldsIffUnitsPack` | src/symphony/rlm/recursive.py:147-148 | For every body and any overlap, a level makes at most `fanout` pieces if and only if its units can be gathered in order into that many groups of the level's size: greedy packing is optimal. |
| `Fanout.FanoutHoldsWithoutBoundaries` | src/symphony/rlm/recursive.py:147-148 | So the promise holds on text without natural boundaries, split without overlap. |
| `Fanout.FanoutHoldsForShortUnits` | src/symphony/rlm/recursive.py:147-148 | It also holds when the units are short enough to fill `fanout` groups to within a unit each. |
| `Fanout.FanoutIsNotTheBound` | src/symphony/rlm/recursive.py:147-148 | The text for which a fanout of two makes three pieces. |
| `Fanout.GreedyIsOptimal` | src/symphony/rlm/repl.py:267-278 | Packing from an open group makes no more groups than any other way of packing the same units in order. |
| `RecursionModes.RaisesIffPartial` | src/symphony/rlm/recursive.py:214-225 | Raise mode raises if and only if stop mode is partial, with its first stop as reason and a prefix of its calls made; otherwise the runs are equal. |
| `RecursionModes.SolveMirrors` | src/symphony/rlm/recursive.py:472-490 | The same for every subtree. |
| `RecursionPlans.PlanIsTree` | src/symphony/rlm/recursive.py:316-335 | On text without natural boundaries, split without overlap, the planned walk over lengths is the walk over the text as it is really split. |
| `PlanVerdicts.TreePredictsLeafCalls` | src/symphony/rlm/recursive.py:412-490 | On any text, while neither the call nor the token bound is hit, the leaf calls made are the leaves of the text's own tree: same number, sizes, order, depth and truncations. |
| `PlanVerdicts.PlanPredictsLeafCalls` | src/symphony/rlm/recursive.py:316-335 | So on text without natural boundaries, with no overlap, they are the leaves planned. |
| `PlanVerdicts.TreeDecides` | src/symphony/rlm/recursive.py:412-504 | On any text, if no merge this run makes is oversized: a bound is hit exactly when the leaves break it, the query is complete exactly when they fit and none is truncated, and then it makes one call a leaf and charges their tokens. |
| `PlanVerdicts.FitsBudgetIsSoundUpToInternalNodes` | src/symphony/rlm/recursive.py:337-355 | On text without natural boundaries, with no overlap and no oversized merge in the run, `fits_budget` is sound, and the complete queries it fails are exactly those with leaves <= max_calls < leaves + internal nodes. |
| `PlanVerdicts.WouldStopOnNamesTheStops` | src/symphony/rlm/recursive.py:356-363 | There, every bound that is hit has a bound named, truncation is named exactly when it is reported, and what is named happens except for calls counted against internal nodes. |
| `PlanVerdicts.CallsAreAtMostTheLeaves` | src/symphony/rlm/recursive.py:472-490 | With no oversized merge in the run a query makes at most one call for each leaf of its tree, on any text, affordable or not. |
| `PlanVerdicts.UpperBoundHoldsWithoutReductions` | src/symphony/rlm/recursive.py:338-342 | So `max_calls_upper_bound` bounds the calls of such a query on text without natural boundaries, with no overlap. |
| `PlanVerdicts.UpperBoundHoldsWithoutReductionsIff` | src/symphony/rlm/recursive.py:338-342 | On any text with affordable leaves it does if and only if the tree has no more leaves than the plan has leaves and internal nodes. |
| `CallBounds.UpperBoundHoldsIfKept` | src/symphony/rlm/recursive.py:338-342 | Under every budget and on any text, it bounds the calls whatever the sub-model and the combiner do if the plan has no internal node, or the call limit is within it, or raising a truncation ends the query before anything is reduced or more leaves than that are called. |
| `CallBounds.UpperBoundHoldsIff` | src/symphony/rlm/recursive.py:338-342 | With tokens enough for every call allowed, in stop and in raise mode, that condition is also needed. |
| `CallBounds.UpperBoundCanFail` | src/symphony/rlm/recursive.py:338-342 | Where merges break it: five characters planned at three calls, made four or more. |
| `CallBounds.UnevenSplitsExceedTheBound` | src/symphony/rlm/recursive.py:338-342 | Where uneven splits break it without any reduction: eleven characters planned at four calls, five leaves. |
| `BoundaryFree.ChunksAreSlices` | src/symphony/rlm/repl.py:206-278 | Without natural boundaries the chunks are the hard slices, which packing does not glue back together. |
| `RecursiveRuns.RecursiveQuery` | src/symphony/rlm/recursive.py:370-504 | The closures over a mutable ledger compute the functional query; a raised bound is the error; the result counts the contexts sent and their tokens, and is partial exactly if a stop was noted. |
| `RecursiveRuns.BudgetLedger.Solve` | src/symphony/rlm/recursive.py:472-490 | `solve` in place. |
| `RecursiveRuns.BudgetLedger.SolvePieces` | src/symphony/rlm/recursive.py:483-489 | Its loop. |
| `RecursiveRuns.BudgetLedger.ReduceToBudget` | src/symphony/rlm/recursive.py:441-470 | `reduce_to_budget` in place, with its bounded rounds. |
| `RecursiveRuns.BudgetLedger.AskModel` | src/symphony/rlm/recursive.py:412-439 | `leaf` in place: cut, check, spend, call. |
| `RecursiveRuns.BudgetLedger.Note` | src/symphony/rlm/recursive.py:214-225 | A reason is recorded once, and raises if the budget says so. |
| `Planning.PlanRecursion` | src/symphony/rlm/recursive.py:300-367 | The planner in place, with its verdict: bound, `fits_budget` and `would_stop_on`. |
| `Planning.Planner.Walk` | src/symphony/rlm/recursive.py:316-335 | `walk` and the variables it updates. |
| `RemoteCommand.BuildSucceedsIffQuotable` | src/symphony/ssh/worker.py:362-393 | The builder fails exactly on an empty list or an unquotable word: the mismatch error is unreachable. |
| `RemoteCommand.BuiltIsOneLine` | src/symphony/ssh/worker.py:347-393 | A line is built exactly for a non-empty list whose words hold no null, line feed or carriage return, and holds none itself. |
| `RemoteCommand.BuiltLineMeansItsTokens` | src/symphony/ssh/worker.py:362-393 | Tokenizing a built line by sections 2.2 and 2.3 of the POSIX.1-2017 Shell Command Language gives its tokens back. |
| `RemoteCommand.ShellInvertsRender` | src/symphony/ssh/worker.py:347-393 | The same for every token list, with operators exactly where one was meant. |
| `RemoteCommand.ShlexInvertsRender` | src/symphony/ssh/worker.py:380-393 | So does the `shlex` automaton the builder itself re-parses with. |
| `RemoteCommand.RenderIsInjective` | src/symphony/ssh/worker.py:213-226 | Equal lines carry equal tokens, operators included. |
| `RemoteCommand.LaunchLineMeansWhatItSays` | src/symphony/ssh/worker.py:396-410 | The launch line has one operator, and path and command arrive as single words, whatever they spell. |
| `HostPools.LeasesAreCounted` | src/symphony/ssh/worker.py:782-833 | Over every run a host's count is the number of its leases not yet returned, and never passes a positive configured cap. |
| `HostPools.NoWakeupIsLost` | src/symphony/ssh/worker.py:737-806 | While a task sleeps un-notified, a host has capacity only if a `mark_reachable` on that very host set its flag and has not notified yet, or was cancelled in between. |
| `HostPools.EnteringSucceedsIffCapacity` | src/symphony/ssh/worker.py:756-768 | A woken task leaves with a lease if and only if some host has capacity, and sleeps otherwise. |
| `HostPools.SelectPicksTheBest` | src/symphony/ssh/worker.py:683-701 | A preferred host with capacity wins; else the least loaded, the earliest configured among equals. |
| `HostPools.SelectIsNoneIffSaturated` | src/symphony/ssh/worker.py:683-701 | Nothing is selected if and only if no host has capacity. |
| `HostPools.CapacityIsRoomForOneMore` | src/symphony/ssh/worker.py:647-652 | A host has capacity exactly when it is reachable and one more lease keeps the cap, and exactly then some preference selects it. |
| `HostPools.AnnouncementDelivers` | src/symphony/ssh/worker.py:737-806 | A sleeper owed a wakeup is awake once the owed `mark_reachable` has notified, and first at the lock it leaves with a lease. |
| `HostPools.ReleaseIsIdempotentIff` | src/symphony/ssh/worker.py:782-790 | Releasing twice equals releasing once if and only if the host has at most one lease out. |
| `HostPools.ReleaseIsNotIdempotent` | src/symphony/ssh/worker.py:782-790 | The pool on which it does not: two leases, one returned twice, none counted. |
| `HostPools.DoubleReleaseIsHarmlessIff` | src/symphony/ssh/worker.py:782-790 | Over every run, one release too many keeps the count, and the whole invariant, if and only if no other lease is out on that host; else the count is one short. |
| `HostPools.DoubleReleaseOverfills` | src/symphony/ssh/worker.py:703-790 | What it costs: a reachable host at its cap then takes one lease more than the cap. |
| `HostPools.DuplicatesAreDropped` | src/symphony/ssh/worker.py:603-613 | A host configured twice is one host. |
| `HostPools.MarkTakesEffect` | src/symphony/ssh/worker.py:792-806 | Marked reachable, a host has capacity exactly if its cap leaves room, and its error is cleared; marked unreachable, it has none; its count, the cap and the other hosts stay. |
| `HostPools.DownGetsNoLease` | src/symphony/ssh/worker.py:683-798 | Whatever the tasks do, a host taken out of rotation is selected for nobody and its count never grows until it is marked reachable. |
| `HostPools.StepKeepsInv` | src/symphony/ssh/worker.py:641-833 | Every step of every task keeps the counts, the cap and the wakeups. |
| `HostPoolObject.HostPool.constructor` | src/symphony/ssh/worker.py:596-617 | The pool in place, duplicates dropped, a cap only if positive. |
| `HostPoolObject.HostPool.Select` | src/symphony/ssh/worker.py:683-701 | The selection loop in place. |
| `HostPoolObject.HostPool.TryAcquire` | src/symphony/ssh/worker.py:703-735 | One attempt in place; a refused remote path takes no slot. |
| `HostPoolObject.HostPool.Release` | src/symphony/ssh/worker.py:782-790 | Returning a slot in place; not idempotent. |
| `HostPoolObject.HostPool.Mark` | src/symphony/ssh/worker.py:792-806 | The flag in place; an unknown host is an error and changes nothing. |
| `Runner.ExitsMatchTheTable` | src/symphony/agent/runner.py:106-117 | Every attempt that is not cancelled stops a session and runs after_run exactly as its row of the exit table says, each at most once. |
| `Runner.AfterRunIsOwedOnce` | src/symphony/agent/runner.py:445-525 | after_run happens exactly once if before_run succeeded and never otherwise, unless the session stop is itself cancelled. |
| `Runner.CancelledStopSkipsAfterRun` | src/symphony/agent/runner.py:510-516 | The failing case: an attempt whose before_run succeeded and whose session stop is cancelled never runs after_run. |
| `Runner.StopIsOwedOnce` | src/symphony/agent/runner.py:445-525 | The session is stopped exactly once if and only if it started, after all turns and just before after_run. |
| `Runner.CleanupDoesNotMask` | src/symphony/agent/runner.py:696-716 | A failing stop or after_run changes neither the outcome nor the effects. |
| `Runner.TurnsAreBounded` | src/symphony/agent/runner.py:547-602 | Turns never exceed max(1, max_turns), and reach it when that is the reason for ending. |
| `Runner.TurnsAreEarned` | src/symphony/agent/runner.py:555-620 | The task prompt goes to turn 1 only; turn k + 1 only to an issue the refresh after turn k returned active, not terminal and routable; each turn runs the prompt just built, each refresh asks for the issue of its turn. |
| `Runner.LastTurnDecides` | src/symphony/agent/runner.py:530-602 | A started attempt takes complete turns up to the first that does not go well, that leaves the issue missing, inactive or unroutable, or that reaches max_turns; that turn alone decides the outcome, obstacle by obstacle in this order; a cancelled cleanup replaces it. |
| `Runner.SomeTurnIsLast` | src/symphony/agent/runner.py:545-602 | There is such a turn, within max(1, max_turns). |
| `Runner.FailedStartDecides` | src/symphony/agent/runner.py:445-500 | An attempt that starts no session fails with the step that failed, unless that step or its cleanup is cancelled. |
| `Runner.RunAttempt` | src/symphony/agent/runner.py:428-525 | The attempt in place. |
| `Runner.RunTurnLoop` | src/symphony/agent/runner.py:530-602 | The turn loop over the shared context. |
| `Runner.DoTurn` | src/symphony/agent/runner.py:555-588 | One turn: prompt, run, refresh. |
| `Runner.Judge` | src/symphony/agent/runner.py:580-600 | The four breaks, in their order. |
| `Usage.DeltasNeverCount` | src/symphony/agent/events.py:256-344 | What is read from an event is what would be read with everything under a delta key removed at every level. |
| `Usage.OnlyTheRestMatters` | src/symphony/agent/events.py:311-344 | Payloads that differ only under delta keys credit the same. |
| `Usage.SelectionPruned` | src/symphony/agent/events.py:311-344 | The selected counts are the same object, delta keys removed. |
| `Usage.WalkPruned` | src/symphony/agent/events.py:256-276 | The bounded walk never enters a delta subtree, nor spends its node budget there. |
| `Usage.ReadingPruned` | src/symphony/agent/events.py:391-414 | Nor does reading look at one. |
| `Usage.IterNodes` | src/symphony/agent/events.py:256-276 | The deque loop computes the walk. |
| `UsageRules.SelectionFollowsTheRules` | src/symphony/agent/events.py:311-344 | What is selected: the first absolute wrapper, node by node and field by field; only without any, the first node naming itself a token-usage event that offers counts, itself before its envelopes, a container before its own fields. |
| `UsageRules.ReadingIsLenient` | src/symphony/agent/events.py:347-414 | Each count is the one under the first name holding a number that is not negative; a missing total is the sum; nothing is read exactly if no name holds one. |
| `UsageRules.WalkIsBreadthFirst` | src/symphony/agent/events.py:256-276 | The walk meets only objects that at most 8 steps lead to without passing a delta key, outer ones first. |
| `UsageRules.WalkReachesAllButDeltas` | src/symphony/agent/events.py:256-276 | It meets all of them, unless it ends at its limit of 512 nodes. |
| `Claude.RoundTrip` | src/symphony/agent/claude.py:254-280 | For any turns reported to one session, crediting, publishing, extracting and taking increases yields exactly the sum of input plus cache-read tokens and of output tokens. |
| `Claude.EventReadsBack` | src/symphony/agent/claude.py:743-782 | Every published event, of a failed turn too, reads back as the session's sums, whatever else it carries. |
| `Claude.UsageReadsBack` | src/symphony/agent/events.py:391-414 | The published counts are found under the names tried first. |
| `Claude.WrapperComesFirst` | src/symphony/agent/events.py:329-334 | The totals wrapper is the payload's first absolute key, before any rate limits. |
| `Claude.ClaudeSession.Credit` | src/symphony/agent/claude.py:262-269 | Crediting in place. |
| `Claude.ClaudeSession.HandleResult` | src/symphony/agent/claude.py:743-782 | Usage is credited before it is published, whether or not the turn failed. |
| `Claude.TurnIsItsReport` | src/symphony/agent/claude.py:262-280 | A turn counts its own and its cache-read input tokens as input and its output tokens as output, each the number in the last field of that name; a negative or missing one counts zero. |

## Left out

- `stop()` and `_closing`: runs are modelled up to shutdown, which edits state outside the mailbox (src/symphony/orchestrator/core.py:461-491).
- `invoke`: an arbitrary closure in the mailbox can break any invariant (src/symphony/orchestrator/core.py:1166-1174).
- An exception raised inside a handler by an injected dependency other than the tracker, the runner and the cleaner (a routing check, a sort, an observer): the mailbox loop swallows it (src/symphony/orchestrator/core.py:554-570), and after a retry entry was popped that would strand its claim.
- The tick timer chain, observers, phases and startup cleanup: they change no claim, run, retry, total or clock.
- Reasons, error texts and log lines; failures of the tracker, the runner and the cleaner are arbitrary outcomes.
- Which session an agent update is meant for: updates are keyed by issue id only, as in the source, so nothing is claimed about an old worker's last report.
- Floating-point time: milliseconds are integers, and a clock reading is fixed within one atomic step; a retry entry keeps its delay instead of its due time.
- Conservation.RuntimeConservedWhenARunEnds: states termination without cleanup, because with one the clock may move at the suspension that follows; `Ledger.EndRunConserves` covers the instant itself.
- Conservation.GlobalLimitHolds: per-state limits have no such run-level statement, because refreshed snapshots move running issues between states; they are stated for each dispatch and each tick.
- Unicode in `normalize_state` and labels: case folding and stripping are ASCII only.
- The paragraph, line and sentence splits are modelled by the positions they cut at, with the line ends and the white space of Python's `str`.
- The default sub-model and combiner of the recursion: any function of the call number and the context stands for the one, any pure function for the other; exceptions from them, and the bounded trace, are not modelled.
- Remote path checks, SSH host parsing, transport, preflight and cleanup commands: whether a path passes is a parameter.
- `RunProgress` and `decide_failover`: a one-way latch and a case table, which would add only easy members.
- The shell beyond tokens (reserved words, assignments, expansions, aliases): a quoted word is stated to arrive as one word.
- Runs that go on after a lease was returned twice: one such release is stated for every state of every run, with the overfull host it can lead to.
- CallBounds.UpperBoundHoldsIff: stated where the tokens suffice for every call allowed, as in the default budget; with fewer, the token bound may end the query first, so that the condition may not be needed; that it is enough is `CallBounds.UpperBoundHoldsIfKept`, under every budget.
- PlanVerdicts.FitsBudgetIsSoundUpToInternalNodes: stated where the plan is the tree; on other texts the plan prices another tree than the query builds, and `PlanVerdicts.TreeDecides` is the statement about the one it builds.
- Fairness of the pool's condition: nothing is claimed about which woken task gets the lock first.
- Hooks, prompts, events, tool execution and log binding inside an attempt, beyond the order of effects and who is asked for what; the second cancellation of one attempt is allowed but not counted.
- Token counts given as numeric strings or floats, and the cost in dollars: only integers are counts here, anything else is none.
- Workspaces, tracker adapters, HTTP, dashboard, CLI, configuration parsing and REPL execution.
