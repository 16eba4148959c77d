# SWEForge durable workflow: a verified model

SWEForge turns a GitHub issue into a reviewed pull request through a long chain of durable steps: a plan is drafted and approved, a permit is bound to an execution attempt, the attempt is reviewed and repaired, and an accepted cycle is published and finalized. Every step is one transaction on a SQLite store, and a worker may die between any two of them. This project models those transactions, the publisher that runs on top of them, and the smaller cores around them, and proves what every run keeps.

The model has two forms side by side. The store, the publisher, the event table, the input tables, the evidence store and the configuration staging are classes whose methods update their fields as the program does, with the queries written as loops; each method is proved to commit exactly what a specification function says, or to change nothing when the program raises. The theorems are proved about those functions over whole runs. Beside them, each operation's outcome is stated once more on the raw rows, as an if-and-only-if that does not name the predicates its specification branches on, so that a specification and a method that were wrong in the same way would not pass. A specification function returns `None` exactly when the transaction raises and is rolled back.

## Layout

- `WorkflowModel`, `WorkflowRun`: the rows of one IssueThread, the guarded transactions on them, and runs in the order the engine calls them, with a worker that may die between any two commits.
- `WorkflowInvariant`, `WorkflowTables`, `WorkflowPlanning`, `WorkflowExecution`, `WorkflowReview`, `WorkflowRepair`, `WorkflowSafety`: the invariant and its preservation, one transaction at a time.
- `WorkflowTheorems`, `WorkflowChain`: live plans and permits, superseded versions, the repair chain, publication through acceptance.
- `WorkflowPhases`: how each step moves the phase, and why the scan before a repair refuses nothing.
- `WorkflowTermination`, `WorkflowProgress`, `WorkflowCounterexamples`: explicit budgets, exactly where the machine stands still, and concrete runs into those places.
- `WorkflowSteering`: what a bind makes of waiting inputs, read off the events: when it runs, when steering holds it back, what it leaves.
- `WorkflowOutcomes`: what every other transaction does in a reachable state, read off the rows.
- `WorkflowStore`: the store as a class.
- `Publisher`, `PublisherSafety`, `PublisherRun`: the publication protocol over a world of git, pull requests and comments, cut at any effect.
- `PublisherOutcome`: how a publication ends by the tree it starts from, and what each of its ten effects leaves.
- `Acceptance`, `AcceptanceColumns`, `Generations`: the two proofs that a declarative cycle is accepted, also column by column, and how publications partition the history.
- `Queue`: the per-thread event queue and its two claim paths, one of them in SQL's three-valued logic.
- `Inputs`, `InputsTheorems`, `InputsRouting`, `InputsOutcomes`, `InputStore`: dispositions, the revision inbox, resume claims and the initial workflow.
- `Ingestion`, `IngestionColumns`: polled pages and how snapshots become events.
- `ConfigPaths`, `Config`, `ConfigEdits`, `ConfigAdds`, `ConfigStaging`: configuration generations, their round trip, and the operator's edits on paths as the file system reads them.
- `History`, `HistoryRendering`, `Evidence`: bounded history rendering and the evidence budget.

`dafny verify dfyconfig.toml` checks the whole project.

## What is assumed

Derived ids (SHA-256 or formatted strings) are injective constructors, timestamps and keys are ordered numbers, and a comment body is represented by its kind: an exact approval, another invocation, a bare mention, or talk. The thread lock means one worker per thread. Each run is of one thread and, for publication, of one branch; listings show earlier effects, eligibility persists, and nobody else touches the workspace. The move from EXECUTING to REVIEW_EXECUTION after a successful attempt is the engine's own save (`src/sweforge/workflow.py:792-1093`) and is a step of the run; a run never uses the unguarded writers (`save_workflow_state`, `insert_plan`, `update_plan`, `insert_permit`) in any other way. The declarative task rows, written by the runtime that schedules tasks, appear as given rows (`Acceptance`, `Generations`) or as free steps of a run (`Inputs`).

## Where the code and its own words differ

The model follows the code.

- `src/sweforge/github_store.py:4538-4550` says a hard crash during review consumes budget. It does not: the counter moves only when a failure is recorded, so deaths during review are unbounded (`WorkflowProgress.ReviewDeathsAreFree`).
- `src/sweforge/github_store.py:892-897` bounds an initial attempt by three executions. After a replan in the same cycle the bind's `INSERT OR IGNORE` loses its attempt number and the attempt is inserted without a count, so a fourth execution is possible (`WorkflowProgress.GrantedBudget`); otherwise three is the bound.
- Recovery does not cover every death. `WorkflowProgress.ProgressUnlessStuck` gives the exact condition for progress, and `WorkflowCounterexamples` a run into each of the two shapes that violate it.
- `src/sweforge/github_store.py:2985-3043` claims under another ordering test than the assertion of `src/sweforge/github_store.py:8022-8058`: it lets an event overtake a success whose publication row does not exist yet (`Queue.NextKeepsOrder` is the exact condition).
- `src/sweforge/lifecycle_context.py:15-19` bounds a field by its limit plus 6, not by its limit (`History.BoundIsTight`).
- `src/sweforge/github_store.py:7818-7819` speaks of the one unfinished claim of a thread. Several may be unfinished; the earliest is returned, and that is what makes them drain in order.
- `src/sweforge/github_store.py:6087-6103` reports an identity mismatch on completion, but once the workflow is complete it accepts any identity (`InputsTheorems.LifecycleReplay`).
- A clarification left open by an earlier cycle can be answered in a later one, and then moves that cycle to EXECUTION_READY around a consumed permit (`WorkflowCounterexamples.StaleAnswer`). The engine only answers the clarification of the cycle that waits, and runs do the same.
- `src/sweforge/github_store.py:2938-2983` repairs redundant snapshots with a plain `INSERT ... SELECT` over a self-join. An unclaimed event that repeats two earlier resolved ones is selected twice, its primary key clashes, and the whole batch is rolled back, as is every later one until that event is claimed. Snapshots without the mention are observed in a transaction of their own and survive this (`Ingestion.ObservedWhileBlocked`). `Ingestion.RepairedClean` is the exact condition, `Ingestion.BlockedRun` a run into it, and `Ingestion.OneAtATimeUnblocked` a kind of run that never gets there.
- `src/sweforge/repo_admin_cli.py:161-169` joins the raw name to the skills directory. Only a single ordinary component stays inside its own subtree (`ConfigEdits.EditStaysInside`): `a/assets` removes part of a skill, and `../tools/mcp` the MCP subtree (`ConfigEdits.ClimbingRemovalExactly`). The name of a tool's source directory is empty for the current directory, and the tool then replaces or spills into the whole scripts directory (`ConfigEdits.EmptyNameClears`, `ConfigEdits.SpilledToolStays`).
- `src/sweforge/github_store.py:3720-3727` budgets an attempt's evidence by SQL's `length`, which stops at the first NUL. The 96,000 characters hold if and only if no stored output contains one (`Evidence.WithinBudgetExactly`, `Evidence.NulIsFree`).

## Model

| member | source | states |
|---|---|---|
| `WorkflowSafety.RunKeeps` | src/sweforge/github_store.py:892-905 | Over every run of guarded operations and worker deaths, one invariant on plans, permits, attempts, reviews, repair permits, execution rows and the phase holds. |
| `WorkflowSafety.Keep` | src/sweforge/github_store.py:2421-2430 | Every single step of that machine keeps the invariant; a transaction that raises leaves the rows as they were. |
| `WorkflowTheorems.LivePermits` | src/sweforge/github_store.py:3531-3569 | In every reachable state each cycle has exactly one plan that is not SUPERSEDED (the current one in the current cycle), at most one uninvalidated execution permit, which names that plan at its exact version, none while planning or waiting for approval, and an unconsumed one in EXECUTION_READY. |
| `WorkflowTheorems.SupersededNeverRuns` | src/sweforge/github_store.py:7342-7534 | Once a plan version is superseded, no later state of any run binds a permit that names it: an approval of an older version never executes. |
| `WorkflowTheorems.SupersededStays` | src/sweforge/github_store.py:7041-7135 | No step ever takes a plan row out of SUPERSEDED. |
| `WorkflowTheorems.LearnsNothing` | src/sweforge/github_store.py:5713-5854 | Every step other than finalization leaves the learning jobs alone and changes plan rows only where the current plan is. |
| `WorkflowChain.RepairChain` | src/sweforge/github_store.py:4060-4365 | In a cycle with one initial attempt the numbers are exactly 1..k with k at most 6, the repair round is the number less one, and of two successive attempts the older succeeded, has one NEEDS_FIXES review, and is what the newer repairs. |
| `WorkflowChain.NumberIsRound` | src/sweforge/github_store.py:4060-4146 | Attempt n of such a cycle is its first attempt repaired n - 1 times. |
| `WorkflowChain.OneRepairReady` | src/sweforge/github_store.py:4060-4146 | REPAIR_READY holds exactly one usable repair permit, bound to the review of the latest attempt or to the failed repair that is retried. |
| `WorkflowChain.AwaitingMeansAccepted` | src/sweforge/github_store.py:3931-4000 | AWAITING_PUBLICATION implies an approved current plan, a SUCCEEDED latest attempt of that exact version, and its single ACCEPT review. |
| `WorkflowChain.TargetExactlyWhileAwaiting` | src/sweforge/github_store.py:4743-4851 | The publisher gets a target exactly while the phase is AWAITING_PUBLICATION and the workspace is recorded, and the target is the current cycle and input. |
| `WorkflowChain.FinalizedOnce` | src/sweforge/github_store.py:5713-5854 | Every finalization of a run schedules learning for a publication id never finalized before: the set of finalized ids grows by exactly one each time. |
| `WorkflowTermination.Spend` | src/sweforge/github_store.py:897-905 | Every working step (bind, execute, die, recover, review, repair) spends the matching budget and strictly shortens the steps left. |
| `WorkflowTermination.WorkIsBounded` | src/sweforge/github_store.py:3796-3852 | From any reachable state, the initial executions, repair executions, review runs and total steps of any working run stay within the budgets read off that state. |
| `WorkflowProgress.GrantedBudget` | src/sweforge/github_store.py:7137-7188 | What a freshly granted permit is worth: 3 initial executions (4 when the cycle already holds an attempt of an older version), 20 repair executions, 24 review runs. |
| `WorkflowProgress.OneVersionEnds` | src/sweforge/github_store.py:4570-4689 | After a fresh approval any mix of deaths, review failures and NEEDS_FIXES verdicts takes at most 126 steps, 3 (or 4) initial executions, 5 x (1 + 3) repair executions and 4 review runs for each of 6 attempts. |
| `WorkflowProgress.OneVersionOutcome` | src/sweforge/github_store.py:3796-4689 | Where it ends: such a run can go no further if and only if the worker is gone and the version is in AWAITING_PUBLICATION, REVIEW_BLOCKED or EXECUTION_FAILED, or in one of the standstill shapes. |
| `WorkflowProgress.ProgressUnlessStuck` | src/sweforge/workflow.py:2189-2326 | With the worker gone, an unfinished version of any run can take a working step if and only if it is in neither of two named standstill shapes. |
| `WorkflowPhases.RepairScanNeverRefuses` | src/sweforge/github_store.py:4195-4365 | Over every run of a fresh thread, the pending scan of a repair bind never meets an approval that has run code: a repair that is ready can always be bound or blocked. |
| `WorkflowPhases.PhaseMoves` | src/sweforge/github_store.py:804-815 | Every step of a run moves the phase along one table: each operation starts in the phases it names and ends in those it names. |
| `WorkflowProgress.LostStays` | src/sweforge/github_store.py:4570-4689 | The standstill after a death between re-bind and the attempt row admits no working step at all. |
| `WorkflowProgress.ReviewDeathsAreFree` | src/sweforge/github_store.py:4538-4568 | Any number of deaths during review leaves the state unchanged: the review budget moves only when a failure is recorded, so no bound covers such deaths. |
| `WorkflowProgress.ReadyBindable` | src/sweforge/github_store.py:4195-4365 | In REPAIR_READY the usable permit passes every check of its bind. |
| `WorkflowProgress.LostRepair` | src/sweforge/github_store.py:4436-4536 | A repair attempt left in EXECUTING passes every check of its recovery. |
| `WorkflowCounterexamples.LostAfterRebind` | src/sweforge/github_store.py:7342-7534 | A concrete run from a fresh thread into the lost state: a death, a recovery, and a second death between re-bind and the attempt row. |
| `WorkflowCounterexamples.FailedRowBlocksRetry` | src/sweforge/github_store.py:4570-4689 | A concrete run after which the permit is live but its FAILED execution row is never claimable: a death between the failed row and the failed attempt. |
| `WorkflowCounterexamples.StaleAnswer` | src/sweforge/github_store.py:3362-3433 | Answering a clarification left open by an earlier cycle moves the new cycle to EXECUTION_READY around a consumed permit; runs here therefore answer only the clarification of the waiting cycle. |
| `WorkflowSteering.BindExactly` | src/sweforge/github_store.py:7342-7534 | A bind goes through if and only if the permit stands, its root is stored and every event before it is done with, its row is free, no unread invocation other than an exact approval waits, and no waiting approval has run code. |
| `WorkflowSteering.BindLeaves` | src/sweforge/github_store.py:7342-7534 | It leaves the claimed row running, the permit consumed, every waiting approval skipped and consumed as stale, attempt 1 in place unless its number was taken, and nothing else changed. |
| `WorkflowSteering.RepairBindExactly` | src/sweforge/github_store.py:4195-4365 | A repair bind raises if and only if its permit does not stand or an approval that ran code waits before any steering; otherwise it ends in REVIEW_BLOCKED with its permit withdrawn if and only if somebody steers, and else runs the repair attempt. |
| `WorkflowSteering.ReadyRepair` | src/sweforge/github_store.py:4195-4365 | Over every run of a fresh thread the usable permit of REPAIR_READY binds, and is held back if and only if an unread invocation waits. |
| `WorkflowSteering.ScanEnds` | src/sweforge/github_store.py:7403-7433 | The scan before a bind refuses if and only if a waiting approval that ran code stands before any steering, and else stops if and only if an unread invocation waits. |
| `WorkflowSteering.TalkHoldsNoRepair` | src/sweforge/github_store.py:4195-4365 | Removing plain talk from the events changes nothing about a repair bind. |
| `WorkflowSteering.TalkHoldsNoBind` | src/sweforge/github_store.py:7342-7534 | Nor about a bind, except that talk before the root must be done with like any other event there, and that is the whole difference. |
| `WorkflowOutcomes.InitialByCounter` | src/sweforge/github_store.py:4570-4689 | In a reachable state a lost initial execution is retried if and only if its counter is below three: attempt interrupted, permit usable again, a running row handed back, thread ready; else the attempt fails and the thread is blocked. |
| `WorkflowOutcomes.RepairByCounter` | src/sweforge/github_store.py:4436-4536 | A lost repair is retried if and only if its counter is below three, keeping its permit; else the permit is withdrawn and the thread blocked. |
| `WorkflowOutcomes.AcceptExactly` | src/sweforge/github_store.py:3931-4000 | In a reachable state a review is accepted if and only if it is the ACCEPT review of the newest attempt under review; only the phase moves. |
| `WorkflowOutcomes.BlockExactly` | src/sweforge/github_store.py:4002-4058 | And blocked if and only if it is the BLOCKED one; exactly the unused repair permits of its plan are withdrawn. |
| `WorkflowOutcomes.FailureCounts` | src/sweforge/github_store.py:4538-4568 | A failed review is counted on its attempt alone, and with three counted the thread is blocked. |
| `WorkflowOutcomes.RepairIssuedExactly` | src/sweforge/github_store.py:4060-4146 | A repair is asked for if and only if the newest attempt has a NEEDS_FIXES review; the permit is of the next round and new, and past the fifth round every unused permit is withdrawn and the thread blocked. |
| `WorkflowOutcomes.RepairCloses` | src/sweforge/github_store.py:4367-4417 | Over every run a repair that succeeds consumes its permit and returns to review, and one that fails loses its permit and blocks. |
| `WorkflowOutcomes.ApproveExactly` | src/sweforge/github_store.py:6772-6858 | In a reachable state an approval grants its fresh permit if and only if it names the current plan waiting for approval and its event is stored, unconsumed and has run no code. |
| `WorkflowOutcomes.AuthorizeExactly` | src/sweforge/github_store.py:7137-7188 | The automatic grant differs only in needing no event and in the status it writes. |
| `WorkflowOutcomes.PostExactly` | src/sweforge/github_store.py:6860-6915 | Only the current plan is posted, from planning, and posting it again while it waits changes nothing. |
| `WorkflowOutcomes.RevisionStartsExactly` | src/sweforge/github_store.py:6917-6956 | Feedback reopens planning from the approval or ready phase, or as a replay of itself, and withdraws exactly the unused permits of the cycle. |
| `WorkflowOutcomes.RevisionEndsExactly` | src/sweforge/github_store.py:6958-7039 | A planned revision ends if and only if it is the one begun for this feedback, its plan id and version are new, and the feedback has run no code. |
| `WorkflowOutcomes.RevisionLeaves` | src/sweforge/github_store.py:6958-7039 | It leaves the old plan SUPERSEDED, the new one current, the feedback consumed once and skipped, and nothing else changed. |
| `WorkflowOutcomes.ReviseExactly` | src/sweforge/github_store.py:7041-7135 | The combined revision goes through if and only if the phase, the event and the new version allow it, and does both at once. |
| `WorkflowOutcomes.CycleBeginsExactly` | src/sweforge/github_store.py:6661-6770 | A cycle begins if and only if it is the first one, or the next one after an idle thread, with a new plan id and version. |
| `WorkflowOutcomes.EnsureExactly` | src/sweforge/github_store.py:3796-3852 | The permit's attempt runs again with one more retry, or for the first time under the number after the highest of its cycle; a success is left alone. |
| `WorkflowOutcomes.AskExactly` | src/sweforge/github_store.py:3328-3360 | Over every run the asking worker interrupts its own row and the thread waits for input. |
| `WorkflowOutcomes.AnswerExactly` | src/sweforge/github_store.py:3362-3433 | In a reachable state an open clarification of the waiting cycle is answered by handing back its permit and its row and readying the execution. |
| `WorkflowOutcomes.CancelExactly` | src/sweforge/github_store.py:3531-3569 | An open clarification is cancelled by withdrawing every permit of its cycle, used or not, and returning to planning with that event as feedback. |
| `WorkflowOutcomes.OpenExactly` | src/sweforge/github_store.py:7608-7657 | A new clarification is open and belongs to the cycle that asks. |
| `WorkflowOutcomes.ClosedOnce` | src/sweforge/github_store.py:3896-3929 | A review stands for its attempt once, and an execution row is closed once, from running. |
| `WorkflowOutcomes.PublicationExactly` | src/sweforge/github_store.py:5713-5854 | Over every run a publication row is opened, and the cycle closed, only while a recorded workspace awaits publication; it closes if and only if the row of its own cycle and input has an outcome. |
| `WorkflowOutcomes.AdvanceExactly` | src/sweforge/github_store.py:5322-5357 | A publisher's update writes the status of its own row and no other. |
| `WorkflowStore.LatestAttempt` | src/sweforge/github_store.py:3786-3794 | The scan for the highest attempt number of a cycle finds the one latest attempt, or none exists. |
| `WorkflowStore.ReviewFor` | src/sweforge/github_store.py:3896-3929 | The lookup of an attempt's review finds exactly the row whose execution it is. |
| `WorkflowStore.PendingEvents` | src/sweforge/github_store.py:7395-7402 | The unconsumed events of the thread other than the root, in order. |
| `WorkflowStore.ScanPending` | src/sweforge/github_store.py:7403-7433 | The sweep before a bind consumes stale approvals up to the first other invocation, and stops exactly there; `WorkflowSteering.ScanEnds` says on the events when. |
| `WorkflowStore.Store.RecordEvent` | src/sweforge/github_store.py:2472-2490 | A source event is added once, by its key. |
| `WorkflowStore.Store.SaveThreadWorkspace` | src/sweforge/github_store.py:5906-5943 | Records that the thread has a workspace and changes nothing else. |
| `WorkflowStore.Store.SaveWorkflowPhase` | src/sweforge/workflow.py:1066-1083 | The phase the engine saves after an execution, on an existing workflow row only. |
| `WorkflowStore.Store.BeginWorkflowCycle` | src/sweforge/github_store.py:6661-6770 | Commits the whole new plan, cycle root and PLANNING state, or refuses and changes no table. |
| `WorkflowStore.Store.MarkCurrentPlanPosted` | src/sweforge/github_store.py:6860-6915 | Posts the current draft and waits for approval; a replay changes nothing; anything else is refused. |
| `WorkflowStore.Store.ApproveCurrentPlan` | src/sweforge/github_store.py:6772-6858 | Grants exactly one permit for the posted current plan and consumes the approving event, or changes nothing. |
| `WorkflowStore.Store.AuthorizeCurrentPlan` | src/sweforge/github_store.py:7137-7188 | The same grant without an event. |
| `WorkflowStore.Store.BeginPlanRevision` | src/sweforge/github_store.py:6917-6956 | Invalidates the cycle's unused permits and returns to PLANNING, or changes nothing. |
| `WorkflowStore.Store.FinishPlanRevision` | src/sweforge/github_store.py:6958-7039 | Supersedes the current plan and inserts the next version, consuming the feedback event. |
| `WorkflowStore.Store.ReviseCurrentPlan` | src/sweforge/github_store.py:7041-7135 | Consumes the feedback, withdraws unused permits, supersedes the current plan and inserts the next version, all or nothing. |
| `WorkflowStore.Store.BindAuthorizedExecution` | src/sweforge/github_store.py:7342-7534 | Sweeps pending inputs, claims the execution row, consumes the permit and inserts attempt 1 when its number is free, or refuses and changes nothing, exactly as `WorkflowSteering.BindExactly` and `BindLeaves` say. |
| `WorkflowStore.Store.EnsureExecutionAttempt` | src/sweforge/github_store.py:3796-3852 | Leaves the permit's attempt RUNNING, inserting the next number when it has none. |
| `WorkflowStore.Store.FinishExecutionAttempt` | src/sweforge/github_store.py:3854-3878 | Closes one attempt and touches nothing else. |
| `WorkflowStore.Store.UpdateExecution` | src/sweforge/github_store.py:3572-3624 | Closes a RUNNING execution row and refuses any other. |
| `WorkflowStore.Store.RecoverOrphanedInitialAttempt` | src/sweforge/github_store.py:4570-4689 | Success recovery, retry with the permit restored, or exhaustion, exactly by the counter and the lineage checks. |
| `WorkflowStore.Store.SaveExecutionReview` | src/sweforge/github_store.py:3896-3929 | Stores the review of an attempt once. |
| `WorkflowStore.Store.AcceptExecutionReview` | src/sweforge/github_store.py:3931-4000 | Moves to AWAITING_PUBLICATION exactly for the current ACCEPT review of the latest attempt. |
| `WorkflowStore.Store.BlockExecutionReview` | src/sweforge/github_store.py:4002-4058 | Moves to REVIEW_BLOCKED and withdraws the plan's repair permits. |
| `WorkflowStore.Store.RecordReviewInfrastructureFailure` | src/sweforge/github_store.py:4538-4568 | Counts one failure and blocks when the budget is spent. |
| `WorkflowStore.Store.CreateRepairPermit` | src/sweforge/github_store.py:4060-4146 | Issues the next repair round for the NEEDS_FIXES review of the latest attempt, or blocks after five. |
| `WorkflowStore.Store.BindRepairExecution` | src/sweforge/github_store.py:4195-4365 | Sweeps inputs; blocks and withdraws the permit on steering; otherwise runs the repair attempt; `WorkflowSteering.RepairBindExactly` says when. |
| `WorkflowStore.Store.FinishRepairAttemptSuccess` | src/sweforge/github_store.py:4367-4417 | Closes the latest running repair attempt as succeeded and returns to review. |
| `WorkflowStore.Store.MarkRepairAttemptFailed` | src/sweforge/github_store.py:4419-4434 | Closes a running repair attempt as failed and blocks the review. |
| `WorkflowStore.Store.RecoverOrphanedRepairAttempt` | src/sweforge/github_store.py:4436-4536 | Retries a lost repair while its counter allows, else blocks. |
| `WorkflowStore.Store.InterruptExecutionForClarification` | src/sweforge/github_store.py:3328-3360 | Interrupts the execution row and waits for input. |
| `WorkflowStore.Store.SaveClarification` | src/sweforge/github_store.py:7608-7657 | Opens a clarification for the current cycle once. |
| `WorkflowStore.Store.ResumeClarification` | src/sweforge/github_store.py:3362-3433 | Answers an open clarification, hands back a live permit of the cycle when there is one (any, as the query names no order), reopens its execution row and returns to EXECUTION_READY. |
| `WorkflowStore.AnswerIsUnique` | src/sweforge/github_store.py:3362-3433 | Where the cycle has at most one live permit, as in every reachable state, the answer is the one the runs take. |
| `WorkflowStore.Store.CancelClarificationForReplan` | src/sweforge/github_store.py:3531-3569 | Cancels the clarification, invalidates every permit of its cycle and returns to PLANNING. |
| `WorkflowStore.Store.TargetOfPublication` | src/sweforge/github_store.py:4743-4851 | The lookups of the legacy proof return a target exactly when some attempt and review make the cycle publishable. |
| `WorkflowStore.Store.EnsurePublicationRow` | src/sweforge/github_store.py:5287-5320 | Creates the publication row of the current target once. |
| `WorkflowStore.Store.AdvancePublication` | src/sweforge/github_store.py:5322-5357 | Sets the status of an existing publication row only. |
| `WorkflowStore.Store.FinalizePublication` | src/sweforge/github_store.py:5713-5854 | Closes the cycle and schedules learning exactly for the current target with a publishable outcome. |
| `PublisherSafety.ExactlyOnce` | src/sweforge/github_publisher.py:104-290 | Over any sequence of runs cut before or after any effect, and retries: at most one new commit, one pull request and one own comment; COMPLETED means the recorded ids name exactly those objects; the working tree and foreign comments stay. |
| `PublisherSafety.RecordsOnlyGrow` | src/sweforge/github_store.py:5322-5357 | Recorded ids accumulate and never change, while the status may fall back. |
| `PublisherSafety.OneGoodRunConverges` | src/sweforge/github_publisher.py:74-91 | From every such state one uncut run (after a retry, if FAILED) ends COMPLETED or NO_CHANGES if and only if the world allowed publication, or had nothing to publish, from the start. |
| `PublisherOutcome.EndsBy` | src/sweforge/github_publisher.py:74-174 | From any state that cut runs and retries reach, one run that is let through ends NO_CHANGES if and only if the working tree is that of the base commit (legacy: of the execution's start), COMPLETED if and only if the tree, paths, branch, pull requests, mapping and comments allow it, and FAILED on a caught fault otherwise. |
| `PublisherOutcome.CompletedLeaves` | src/sweforge/github_publisher.py:104-290 | COMPLETED means: the head of the branch and of the remote is the tree the thread left, at most one commit was added, and the recorded pull request and comment are the only ones of their kind and mapped to the thread. |
| `PublisherOutcome.CutAfter` | src/sweforge/github_publisher.py:176-290 | A run of a clean publication cut after n effects leaves exactly the world and the row after the first n of commit, push, pull request, mapping and comment, each id recorded right after the effect that made it. |
| `PublisherOutcome.FaultAfter` | src/sweforge/github_publisher.py:74-92 | A crash there leaves the row as recorded; a caught fault marks it FAILED and keeps its ids. |
| `PublisherRun.GitHubPublisher.Open` | src/sweforge/github_publisher.py:104-174 | Everything decided before the first effect: no changes, unsafe paths, a dirty untouched baseline; `PublisherOutcome.EndsBy` says which tree ends how. |
| `PublisherRun.GitHubPublisher.Commit` | src/sweforge/github_publisher.py:176-200 | Commits a dirty tree unless a commit is recorded, then records HEAD, each as its own effect. |
| `PublisherRun.GitHubPublisher.Push` | src/sweforge/github_publisher.py:292-318 | Pushes unless the remote is there, refuses a diverged remote, records the remote commit. |
| `PublisherRun.GitHubPublisher.EnsurePullRequest` | src/sweforge/github_publisher.py:216-249 | Reuses the one pull request of the branch or opens it; refuses more than one. |
| `PublisherRun.GitHubPublisher.RegisterMapping` | src/sweforge/github_publisher.py:250-252 | Maps the pull request to the thread and refuses one mapped elsewhere. |
| `PublisherRun.GitHubPublisher.EnsureComment` | src/sweforge/github_publisher.py:254-282 | Reuses the one comment with an own marker or posts it; refuses more than one. |
| `PublisherRun.GitHubPublisher.Matching` | src/sweforge/github_publisher.py:31-36 | The comments that carry one of the publication's markers, in order. |
| `PublisherRun.GitHubPublisher.Publish` | src/sweforge/github_publisher.py:104-290 | The run is exactly the composed protocol, cut after the given number of effects; `PublisherOutcome` says what each of them leaves. |
| `PublisherRun.GitHubPublisher.PublishOne` | src/sweforge/github_publisher.py:74-91 | A fault that is caught leaves FAILED and everything done so far; a crash leaves only what was done. |
| `PublisherRun.GitHubPublisher.RetryPublication` | src/sweforge/github_store.py:5359-5370 | Only a FAILED publication returns to PENDING, with its recorded ids. |
| `Acceptance.EligibleIsAccepted` | src/sweforge/github_store.py:4854-5181 | A cycle the strict proof admits has accepted material: one record per declared task, in declaration order, given the row facts the strict proof leaves implicit. |
| `Acceptance.StrictTaskAccepted` | src/sweforge/github_store.py:5373-5550 | A strictly proven task counts as accepted if and only if its result row belongs to the cycle, was posted, and its approving event has a key. |
| `Acceptance.EligibleStaysAccepted` | src/sweforge/github_store.py:5736-5758 | An eligible cycle is accepted before and after it is finalized, with the same material. |
| `Acceptance.FinalizationKeepsMaterial` | src/sweforge/github_store.py:5736-5758 | Finalizing changes the accepted material of no cycle. |
| `Acceptance.AllAccepted` | src/sweforge/github_store.py:5373-5550 | The material of a cycle exists exactly when every task passes, and is one record per task with its index and cycle. |
| `AcceptanceColumns.AcceptedExactly` | src/sweforge/github_store.py:5373-5550 | Material exists if and only if every declared task in turn has a done run, its own approved plan, a succeeded execution under an uninvalidated permit of exactly that version, an ACCEPT validation that ran something, and an uninvalidated approval naming plan, execution and validation; each record carries that plan's text and the two summaries in their own fields. |
| `AcceptanceColumns.EligibleExactly` | src/sweforge/github_store.py:4854-5181 | The strict proof admits a cycle if and only if it is the latest, waits with nothing active or pending, its declaration and initial workflow stand, and every task is proven by its newest permit and latest validation, by humans in the root's conversation or by the automatic policy. |
| `AcceptanceColumns.StrictTaskExactly` | src/sweforge/github_store.py:4957-5151 | What the strict proof demands of one task, column by column, as an if-and-only-if. |
| `AcceptanceColumns.EligibleIsValidated` | src/sweforge/github_store.py:5103-5111 | So every task of a cycle that may be published was executed, and its latest validation said ACCEPT. |
| `Acceptance.AcceptedCycleMaterial` | src/sweforge/github_store.py:5373-5550 | The loop returns the whole material or nothing, by the columns of `AcceptanceColumns.AcceptedExactly`. |
| `Generations.GenerationExists` | src/sweforge/github_store.py:5578-5659 | A finalized cycle has a generation if and only if every cycle since the previous boundary exists and is accepted; it then covers exactly those cycles. |
| `Generations.AllGeneratedExactly` | src/sweforge/github_store.py:5578-5659 | All finalized publications have generations if and only if the whole finalized history is accepted. |
| `Generations.GenerationExactly` | src/sweforge/github_store.py:5578-5659 | A finalized publication has a generation if and only if the cycle rows since the last finalized COMPLETED or NO_CHANGES publication are all there and accepted, or none is there; it covers exactly those cycles, or its own alone. |
| `Generations.GenerationsPartition` | src/sweforge/github_store.py:5552-5659 | In cycle order the generations concatenate to 1..last finalized cycle, with no gap and no overlap. |
| `Generations.HistoryCovered` | src/sweforge/github_store.py:5578-5659 | Up to a finalized cycle that is the whole history. |
| `Generations.InputInOneGeneration` | src/sweforge/github_store.py:5685-5711 | Every consumed revision input of the published history belongs to exactly one generation. |
| `Generations.MaterialPartition` | src/sweforge/github_store.py:5552-5576 | Accepted material read generation by generation is the thread's whole accepted material. |
| `Generations.PreviousBoundary` | src/sweforge/github_store.py:5594-5606 | The latest earlier cycle whose publication is finalized as COMPLETED or NO_CHANGES; none lies between. |
| `Generations.PreviousCommitIsLatest` | src/sweforge/github_store.py:5606-5637 | In a declarative thread the previous commit, whichever query finds it, is that of the latest finalized publication that recorded one. |
| `Generations.PublicationGeneration` | src/sweforge/github_store.py:5578-5659 | The imperative computation returns that generation, or fails on a gap or an unaccepted cycle, as `Generations.GenerationExactly` says. |
| `Generations.AcceptedLifecycleMaterial` | src/sweforge/github_store.py:5552-5576 | The loop concatenates the material of the accepted cycles of the interval. |
| `Queue.QueueKept` | src/sweforge/github_store.py:3095-3250 | Over every run of guarded operations on events that arrive in order, nothing started has an unresolved event before it. |
| `Queue.OrderIsShape` | src/sweforge/github_store.py:8022-8056 | That order is equivalent to a resolved prefix, then one event, then only unclaimed or skipped events. |
| `Queue.OneInProgress` | src/sweforge/github_store.py:7978-8019 | So at most one event of a thread is ever in progress, and it is the first unresolved one. |
| `Queue.OnlyHeadClaimable` | src/sweforge/github_store.py:7978-8019 | A claim succeeds if and only if the event is the first unresolved one and is unclaimed or waiting for a retry. |
| `Queue.LateArrival` | src/sweforge/github_store.py:8022-8056 | An event arriving out of order keeps the queue in order if and only if nothing from its place on has started. |
| `Queue.ReopenedOrder` | src/sweforge/github_store.py:3402-3428 | Reopening the root's row on a clarification answer keeps the order if and only if nothing after it has started. |
| `Queue.BlocksExactly` | src/sweforge/github_store.py:3003-3039 | In SQL's three-valued logic an earlier event blocks if and only if it is unresolved and is not a success without a publication row. |
| `Queue.NextKeepsOrder` | src/sweforge/github_store.py:2985-3093 | What the SQL claim picks keeps the order, and is what the ordering assertion would allow, if and only if no such success stands before it. |
| `Queue.NextOvertakes` | src/sweforge/github_store.py:2985-3093 | A concrete reachable queue on which the SQL claim starts a second event while the first is unresolved. |
| `Queue.ClaimExactly` | src/sweforge/github_store.py:7978-8019 | An event is claimed if and only if it has no row or one waiting for a retry, and every earlier event is skipped, or succeeded under a publication with an outcome. |
| `Queue.NextExactly` | src/sweforge/github_store.py:2985-3093 | The SQL claim picks the first row without a claim before which every row is skipped, or succeeded and not under a publication that is still open. |
| `Queue.RowMoves` | src/sweforge/github_store.py:3095-3250 | Every operation on one row moves that row along one status table and leaves the others and all publications alone; apart from a claim it goes through wherever the table lets it. |
| `Queue.RedundantExactly` | src/sweforge/github_store.py:2938-2983 | Redundant rows are marked all or none: if and only if each has no row and is named once. |
| `Queue.EventTable.AssertEventOrdering` | src/sweforge/github_store.py:8022-8056 | The loop over the earlier rows accepts exactly when all of them are resolved. |
| `Queue.EventTable.ClaimEventForExecution` | src/sweforge/github_store.py:7978-8019 | Claims exactly when allowed, else changes nothing. |
| `Queue.EventTable.ClaimNextEvent` | src/sweforge/github_store.py:2985-3093 | Picks the first selectable row and no other. |
| `Queue.EventTable.UpdateExecution` | src/sweforge/github_store.py:3572-3624 | Only a RUNNING row is closed. |
| `Queue.EventTable.ReleaseExecutionClaim` | src/sweforge/github_store.py:3095-3111 | Only a RUNNING row is released: deleted, or left for a retry. |
| `Queue.EventTable.RetryExecution` | src/sweforge/github_store.py:3164-3231 | Only FAILED and INTERRUPTED rows reopen; a replay changes nothing. |
| `Queue.EventTable.SkipExecution` | src/sweforge/github_store.py:3233-3250 | Only FAILED and INTERRUPTED rows are skipped; a replay changes nothing. |
| `Queue.EventTable.ResolveWorkflowControl` | src/sweforge/github_store.py:7947-7976 | A control input without code execution becomes SKIPPED, any other is refused. |
| `Queue.EventTable.RepairRedundantIssueEvents` | src/sweforge/github_store.py:2938-2983 | Marks the rows its join found, and fails as a whole when one of them is found twice or has an execution already. |
| `InputsTheorems.InputsConserved` | src/sweforge/github_store.py:2619-2632 | Over every run a queued revision input keeps its row, text and origin, only moves PENDING, BATCHED, CONSUMED, and stays in the revision cycle that took it. |
| `InputsTheorems.BatchWhole` | src/sweforge/github_store.py:6429-6479 | A selected batch succeeds if and only if the cycle is an active revision and all its inputs are pending; it then moves those and no others. |
| `InputsTheorems.BatchThenConsume` | src/sweforge/github_store.py:6481-6491 | Batching all and consuming turns every pending input into a consumed one of that cycle and leaves other cycles' inputs alone. |
| `InputsTheorems.FinalizedInbox` | src/sweforge/github_store.py:4858-4863 | A declarative publication finalizes only with nothing pending: every input is bound to a revision cycle of the published history. |
| `InputsTheorems.RouteAgain` | src/sweforge/github_store.py:6105-6126 | Routing again returns nothing and changes nothing. |
| `InputsTheorems.RoutedOnce` | src/sweforge/github_store.py:6105-6126 | An event routed into the inbox once keeps its row and is never routed again, whatever happens in between. |
| `InputsTheorems.RoutedAreQueued` | src/sweforge/github_store.py:2565-2646 | Each routed event had no inbox row and afterwards has one pending row and an acknowledgement. |
| `InputsTheorems.RouteAllDecides` | src/sweforge/github_store.py:6105-6126 | Routing decides every row by the state it started from and gives dispositions to exactly the rows it settles. |
| `InputsTheorems.ApprovalsNeverSteer` | src/sweforge/github_store.py:2565-2646 | Over every run no exact approval and no initial request ever becomes a steering request. |
| `InputsRouting.RoutedExactly` | src/sweforge/github_store.py:6105-6126 | Routing turns exactly the unsolicited steering among the unmatched events into pending requests, each acknowledged and disposed of, disposes of exactly the approvals nobody waits for, and touches nothing else. |
| `InputsRouting.EventRouted` | src/sweforge/github_store.py:2565-2646 | In a thread with a cycle an unmatched event gains a request if and only if it is an unawaited invocation, or an issue with a bare mention; a STALE_APPROVAL disposition if and only if it is an unawaited approval; an awaited invocation gains neither. |
| `InputsRouting.NothingRouted` | src/sweforge/github_store.py:2594-2606 | Before a thread has chosen its workflow, and in a legacy thread without a cycle, neither routing nor arrival writes anything. |
| `InputsOutcomes.BatchExactly` | src/sweforge/github_store.py:6429-6479 | A batch goes through if and only if the cycle is an active revision and the whole selection is pending; it takes exactly the selected pending inputs, or all, into that cycle. |
| `InputsOutcomes.ConsumeExactly` | src/sweforge/github_store.py:6481-6491 | Consuming takes exactly the inputs batched into that cycle. |
| `InputsOutcomes.ClaimExactly` | src/sweforge/github_store.py:7754-7793 | A claim writes a row only for a free event, and holds if and only if the standing row names its occurrence and outcome. |
| `InputsOutcomes.FinishExactly` | src/sweforge/github_store.py:7795-7816 | Finishing settles an unsettled row once, with the outcome when there is one. |
| `InputsOutcomes.FirstClaimExactly` | src/sweforge/github_store.py:7818-7827 | The pending claim is the unsettled row with an occurrence that was claimed first, by key among claims of one moment. |
| `InputsOutcomes.ActivateExactly` | src/sweforge/github_store.py:6058-6085 | The initial workflow is activated once; the same activation may come again, any other is refused. |
| `InputsOutcomes.CompleteExactly` | src/sweforge/github_store.py:6087-6103 | It completes for its own cycle, and after that accepts any completion without change. |
| `InputsOutcomes.FinalizeExactly` | src/sweforge/github_store.py:5713-5854 | A declarative publication finalizes if and only if its cycle is the latest and waits, nothing is pending, and the initial workflow is complete; every waiting cycle is then published. |
| `InputsTheorems.WrittenOnce` | src/sweforge/github_store.py:2691-2714 | Across all writers an event's cycle, purpose, claim time and occurrence never change once written, a row is settled at most once, and only a claim is ever unsettled. |
| `InputsTheorems.ClaimOnce` | src/sweforge/github_store.py:7754-7793 | A claim holds if and only if the event was free or already bound to this occurrence and outcome; a second claim changes nothing. |
| `InputsTheorems.ClaimsDrainInOrder` | src/sweforge/github_store.py:7818-7827 | Settling the pending claim again and again, whatever the clock and the outcomes, settles each claim once, in (claimed_at, event_key) order. |
| `InputsTheorems.ClaimsDrain` | src/sweforge/github_store.py:7795-7816 | The claims can always be drained, in as many rounds as there are unfinished claims. |
| `InputsTheorems.LaterClaimWaits` | src/sweforge/github_store.py:7818-7827 | A later claim never displaces the one a dead worker left. |
| `InputsTheorems.ClaimStays` | src/sweforge/github_store.py:7754-7816 | Over every run, nothing but its own finish changes the row of a claim. |
| `InputsTheorems.ClaimKeepsRunnable` | src/sweforge/github_store.py:8130-8307 | A free event that is claimed stays claimed over every run that does not finish it, and in the active cycle the thread is then runnable if and only if the backoff has passed, at most an hour after the last failure. |
| `InputsTheorems.AwaitingIgnoresClaims` | src/sweforge/github_store.py:8253-8364 | In a cycle that is not active, finishing a claim changes nothing about whether the thread is runnable. |
| `InputsTheorems.InitialRunsOnce` | src/sweforge/github_store.py:6058-6103 | The initial workflow only advances, from the same root, and after activation with the same cycle and digest. |
| `InputsTheorems.LifecycleReplay` | src/sweforge/github_store.py:6058-6103 | Replays with the same identity change nothing; another identity is refused by activation, and by completion only until the workflow is complete. |
| `InputsTheorems.PlayKeeps` | src/sweforge/github_store.py:2565-2646 | The invariant and the growth relation behind these hold over every run of the seventeen steps. |
| `InputStore.InputTables.ClassifyRevisionInput` | src/sweforge/github_store.py:2565-2646 | Branch by branch, returns the kind and writes exactly what that kind writes; `InputsRouting.RoutedExactly` says which event is of which. |
| `InputStore.InputTables.RouteUnmatchedInputs` | src/sweforge/github_store.py:6105-6126 | Reads the unmatched rows first, then classifies them one after the other. |
| `InputStore.InputTables.BatchRevisionInputs` | src/sweforge/github_store.py:6429-6479 | Deduplicates, counts the rows really changed, and rolls a partial batch back. |
| `InputStore.InputTables.ConsumeRevisionInputs` | src/sweforge/github_store.py:6481-6491 | Consumes the cycle's batched inputs and returns their number. |
| `InputStore.InputTables.ClaimInputForResume` | src/sweforge/github_store.py:7754-7793 | Inserts the claim once and reports whether this binding is the one that stands. |
| `InputStore.InputTables.FinishInputResume` | src/sweforge/github_store.py:7795-7816 | Settles only a row not yet settled. |
| `InputStore.InputTables.PendingResumeClaim` | src/sweforge/github_store.py:7818-7827 | The minimum of the unfinished claims, or none exists. |
| `InputStore.InputTables.ActivateInitialWorkflow` | src/sweforge/github_store.py:6058-6085 | Activates once, accepts an identical replay, refuses anything else. |
| `InputStore.InputTables.CompleteInitialWorkflow` | src/sweforge/github_store.py:6087-6103 | Completes the active workflow of this cycle, accepts replays, refuses anything else. |
| `InputStore.InputTables.FinalizePublication` | src/sweforge/github_store.py:5713-5854 | The inbox check, the closing of all waiting cycles and the lifecycle update, all or nothing. |
| `Ingestion.BatchAgain` | src/sweforge/github_store.py:2456-2562 | A recorded page, with one snapshot per issue, is never refused when recorded again, and changes nothing. |
| `Ingestion.PollAgain` | src/sweforge/github_poller.py:66-86 | Polling the same page again, with one snapshot per issue, changes nothing, whether or not its batch went through. |
| `Ingestion.TwoPerIssue` | src/sweforge/github_poller.py:173-182 | With two snapshots of one issue on a page it can: the one without the mention is observed again, over the other. |
| `Ingestion.ChangeDriven` | src/sweforge/github_store.py:2466-2485 | Over any run of polls a snapshot becomes an event if and only if the poll is not blocked, it carries the mention, and its body differs from the last observed snapshot's and from that of every resolved event; a blocked poll changes nothing, except that a snapshot without the mention is observed all the same. |
| `Ingestion.RepairedClean` | src/sweforge/github_store.py:2938-2983 | The repair succeeds if and only if no unclaimed event repeats the body of two earlier resolved ones, and then none repeats any. |
| `Ingestion.BlockedRun` | src/sweforge/github_store.py:2938-2983 | For any two bodies with the mention, a run after which every batch is refused: two events of one body resolved between two polls, with a third unclaimed. The next snapshot changes nothing when it carries the mention, and is only observed when it does not. |
| `Ingestion.BlockedStays` | src/sweforge/github_store.py:2456-2562 | A blocked log stays blocked and gains no event over any number of polls, until an event moves. |
| `Ingestion.ObservedWhileBlocked` | src/sweforge/github_store.py:2785-2803 | What a blocked poll observed counts: a run in which the body of an event that still waits, polled again after the poll that lost the mention, becomes a second event. |
| `Ingestion.BlockedNeedsTwo` | src/sweforge/github_store.py:2938-2983 | From a repaired log, a poll is blocked only after a claim was released or two events of one body were resolved. |
| `Ingestion.OneAtATimeUnblocked` | src/sweforge/github_store.py:2456-2562 | A run that moves one event between two polls and releases no claim never blocks a poll. |
| `Ingestion.SameSecondDropped` | src/sweforge/github_store.py:2472-2476 | A snapshot whose timestamp is already stored never becomes an event; with the mention it changes no observation, without it is observed. |
| `IngestionColumns.IssueRecordedExactly` | src/sweforge/github_store.py:2466-2490 | A new snapshot of an issue becomes an event if and only if it carries the mention, changes the content last observed (or last stored, when never observed), and its body is not that of an event already done with; it is observed in any case. |
| `IngestionColumns.CommentRecorded` | src/sweforge/github_store.py:2472-2490 | A comment becomes an event unless its key is stored, and is never observed. |
| `IngestionColumns.RepairedExactly` | src/sweforge/github_store.py:2938-2983 | The repair goes through if and only if no unclaimed event copies two earlier ones that are done with, and then skips exactly those that copy one. |
| `Ingestion.EventLog.PollPage` | src/sweforge/github_poller.py:147-182 | Observes the snapshots without the mention while it reads the page, then records the others as one batch; a refused batch leaves what was observed. |
| `Ingestion.EventLog.RecordBatch` | src/sweforge/github_store.py:2456-2562 | The repair followed by the events one after the other; a failed repair rolls the whole batch back. |
| `Ingestion.EventLog.IsNewIssueContent` | src/sweforge/github_store.py:2841-2893 | Answers whether the content is new and always records it as observed. |
| `Ingestion.EventLog.HasResolvedIssueSnapshot` | src/sweforge/github_store.py:2896-2935 | Finds a resolved event with the same body exactly when there is one. |
| `Ingestion.EventLog.RepairRedundantIssueEvents` | src/sweforge/github_store.py:2938-2983 | Skips exactly the redundant rows, judged on the rows as they were, and fails when the join meets an event twice. |
| `Config.Reinstall` | src/sweforge/repo_config.py:701-723 | Over every run, materializing any generation and installing it again succeeds and reproduces its files and digest under the next number. |
| `Config.ThreadBinding` | src/sweforge/repo_config.py:647-659 | A thread's generation and that generation's files never change over any run of installs and commands. |
| `ConfigEdits.EditStaysInside` | src/sweforge/repo_admin_cli.py:131-220 | On the files of a real directory a command stays inside its own subtree if and only if its name is one ordinary path component, and then leaves exactly the new content there (for an added tool: unless the very document lies loose there already). |
| `ConfigEdits.NestedNameRemoves` | src/sweforge/repo_admin_cli.py:161-169 | Removing a skill by a nested name removes that part of the skill, or is refused when there is none. |
| `ConfigEdits.ClimbingRemovalExactly` | src/sweforge/repo_admin_cli.py:161-169 | Removing the skill ../tools/mcp passes the guard and deletes the MCP subtree; the result is valid if and only if the workflow names no MCP tool. |
| `ConfigEdits.EmptyNameClears` | src/sweforge/repo_admin_cli.py:172-197 | Adding a tool from the current directory leaves no script file but the copied ones. |
| `ConfigEdits.UndoSkill` | src/sweforge/repo_admin_cli.py:141-169 | Adding a skill that was not installed and removing it again is never refused and ends with the original bundle and digest. |
| `ConfigEdits.UndoTool` | src/sweforge/repo_admin_cli.py:172-208 | For a new tool in a new place, adding and removing it ends with the original bundle and digest if and only if its directory name is one ordinary component. |
| `ConfigEdits.SpilledToolStays` | src/sweforge/repo_admin_cli.py:200-208 | A tool added from the current directory never comes back out: its document stays. |
| `ConfigEdits.AddedSkillUnreferenced` | src/sweforge/repo_admin_cli.py:223-245 | The reference guard never refuses to remove a skill added after the workflow was accepted. |
| `ConfigEdits.RemoveSkillExactly` | src/sweforge/repo_admin_cli.py:223-245 | By its own ordinary name a skill of a valid bundle can be removed if and only if it is installed, no phase names it, and it is not the last one. |
| `ConfigAdds.AddSkillExactly` | src/sweforge/repo_admin_cli.py:141-158 | A skill can be added if and only if its name and source are in order and it is not installed yet, or is to be replaced. |
| `ConfigAdds.AddSkillLeaves` | src/sweforge/repo_admin_cli.py:141-158 | Its directory then holds the source and nothing else, and everything outside stays. |
| `ConfigAdds.AddToolExactly` | src/sweforge/repo_admin_cli.py:172-197 | A tool can be added if and only if its source is in order and neither its name nor its directory is taken, or it is to be replaced. |
| `ConfigAdds.AddToolLeaves` | src/sweforge/repo_admin_cli.py:172-197 | Its directory then holds the source and nothing else; outside it only the directory that registered its name is gone. |
| `ConfigAdds.RemoveToolExactly` | src/sweforge/repo_admin_cli.py:200-208 | By its name a tool is removed if and only if some directory registers it, the guard lets it go if and only if no phase names it, and exactly that directory is gone. |
| `ConfigAdds.SetExactly` | src/sweforge/repo_admin_cli.py:131-138 | A document is replaced if and only if it has between one and a million bytes, and nothing else changes. |
| `ConfigAdds.ReadExactly` | src/sweforge/repo_config.py:209-242 | A directory is read if and only if every entry is a file of one to a million bytes in a place a bundle may hold, ten million in all. |
| `Config.Installed` | src/sweforge/repo_config.py:555-619 | Installing a staged file map adds it under the next number and makes it current, or is refused because it is not valid. |
| `Config.PlayKeeps` | src/sweforge/repo_config.py:555-619 | Generations are numbered 1..n, valid, and never rewritten, over every run. |
| `ConfigStaging.Staging.Materialize` | src/sweforge/repo_config.py:701-723 | Every file of the generation is written, and nothing else, into an empty directory. |
| `ConfigStaging.Staging.ReadBundleFiles` | src/sweforge/repo_config.py:209-242 | The scan with its running total returns the file map exactly when every entry and the whole respect the limits. |
| `ConfigPaths.OrdinaryParts` | src/sweforge/repo_admin_cli.py:163-163 | An ordinary component joined to a directory names the entry of that name. |
| `ConfigStaging.PartsOf` | src/sweforge/repo_admin_cli.py:163-163 | The loop splits a name at its slashes and drops empty pieces and single dots. |
| `ConfigStaging.Staging.Follow` | src/sweforge/repo_admin_cli.py:163-164 | The loop follows a name through existing directories, and notices when it leaves the staging directory. |
| `ConfigStaging.Staging.RemoveTree` | src/sweforge/repo_admin_cli.py:166-166 | Removes exactly what lies below the directory. |
| `ConfigStaging.Staging.CopyTree` | src/sweforge/repo_admin_cli.py:81-91 | Every file of the source ends at its place below the target, and nothing else changes. |
| `ConfigStaging.Staging.AddSkill` | src/sweforge/repo_admin_cli.py:141-158 | The staged directory ends as the edited file map, or the command is refused. |
| `ConfigStaging.Staging.RemoveSkill` | src/sweforge/repo_admin_cli.py:161-169 | Follows the raw name as a path: removes the directory it reaches, refuses a missing one, and reports a path that leaves the staging directory. |
| `ConfigStaging.Staging.SetWorkflow` | src/sweforge/repo_admin_cli.py:131-138 | Replaces the workflow document and nothing else, or is refused. |
| `ConfigStaging.Staging.SetMcp` | src/sweforge/repo_admin_cli.py:211-220 | Replaces the MCP document and nothing else, or is refused. |
| `ConfigStaging.Staging.AddTool` | src/sweforge/repo_admin_cli.py:172-197 | Clears the directory that registers the name and the target directory, then copies the source; refused when present and not replacing. |
| `ConfigStaging.Staging.RemoveTool` | src/sweforge/repo_admin_cli.py:200-208 | Removes the one directory that registers the name, and refuses an unknown name. |
| `ConfigStaging.Staging.InstalledScriptDirectories` | src/sweforge/repo_admin_cli.py:112-128 | The map holds a name and a directory exactly when that directory registers the name. |
| `ConfigStaging.ConfigTables.InstallBundle` | src/sweforge/repo_config.py:555-619 | Installs under MAX + 1 and makes it the current generation, or changes nothing. |
| `ConfigStaging.ConfigTables.BindThread` | src/sweforge/github_store.py:5983-6001 | A new thread is bound to the generation current at its creation, an existing one is left alone. |
| `History.HistoryBound` | src/sweforge/lifecycle_context.py:28-46 | The text never exceeds max_chars; the final slice cuts nothing if and only if another block was kept or the first block leaves room for the marker. |
| `History.OmissionIsForced` | src/sweforge/lifecycle_context.py:28-46 | The first block leads, the marker is second, kept blocks appear in order, and an omitted block did not fit at its newest-first turn. |
| `History.SomethingOmitted` | src/sweforge/lifecycle_context.py:28-46 | An overlong history of more than one block always omits one. |
| `History.KeptFrom` | src/sweforge/lifecycle_context.py:28-46 | What is kept from a block on does not depend on the older blocks. |
| `History.BoundedLength` | src/sweforge/lifecycle_context.py:15-19 | A field is bounded by limit + 6 for limit at least 24, kept when it fits, and keeps its prefix when cut. |
| `History.BoundIsTight` | src/sweforge/lifecycle_context.py:15-19 | The extra 6 characters are reached at every such limit. |
| `History.RenderedBound` | src/sweforge/lifecycle_context.py:49-116 | No accepted history renders past the bound. |
| `HistoryRendering.RenderedAs` | src/sweforge/lifecycle_context.py:49-116 | A history that fits in full is shown in full, else one that fits in compact form so, else a selection of compact blocks cut to the bound. |
| `HistoryRendering.FullBlocksAre` | src/sweforge/lifecycle_context.py:64-82 | One full block per record, in order; it carries the heading of its cycle if and only if the record before is of another cycle. |
| `HistoryRendering.FullBlockReads` | src/sweforge/lifecycle_context.py:71-82 | Plan, execution and validation stand behind their own labels and ids, each within its own limit. |
| `HistoryRendering.CompactBlockReads` | src/sweforge/lifecycle_context.py:87-97 | The compact block likewise, in its own limits. |
| `History.Select` | src/sweforge/lifecycle_context.py:34-45 | The selection loop computes that choice. |
| `History.JoinWithin` | src/sweforge/lifecycle_context.py:28-46 | The whole function, early exits included. |
| `History.RenderAcceptedLifecycle` | src/sweforge/lifecycle_context.py:49-116 | Full blocks if they fit, else compact ones, else a bounded selection of those. |
| `Evidence.ExcerptBound` | src/sweforge/execution_evidence.py:62-71 | An excerpt has exactly the smaller of the two lengths, is the value if and only if that fits, and says when it was cut. |
| `Evidence.ExcerptKeepsEnds` | src/sweforge/execution_evidence.py:62-71 | A cut value keeps both its ends around the marker. |
| `Evidence.StoreKeeps` | src/sweforge/github_store.py:3706-3763 | Whoever records: numbers 1..n, every shortened row flagged, and at most 96,000 characters per attempt as SQL counts them. |
| `Evidence.UsedIsTotal` | src/sweforge/github_store.py:3720-3724 | What SQL sums is the stored total if and only if no stored output contains a NUL. |
| `Evidence.WithinBudgetExactly` | src/sweforge/github_store.py:3706-3763 | An attempt within 96,000 characters stays within them, whatever is recorded next, if and only if no stored output contains a NUL. |
| `Evidence.RecordingsWithin` | src/sweforge/github_store.py:3706-3763 | Over every sequence of NUL-free reports at most 96,000 characters are stored for the attempt. |
| `Evidence.NulIsFree` | src/sweforge/github_store.py:3720-3727 | An output that begins with NUL is stored uncut however often it is recorded. |
| `Evidence.OneRecorder` | src/sweforge/execution_evidence.py:219-236 | The store never cuts again what one recorder produced for a fresh attempt, and the recorder's count is the stored total. |
| `Evidence.RecordedExactly` | src/sweforge/execution_evidence.py:219-236 | The recorder passes on at most 4,000 characters of the command and of the output what 12,000 and the attempt's 96,000 leave, the whole output beside it, flagged if and only if something was cut. |
| `Evidence.StoredExactly` | src/sweforge/github_store.py:3706-3763 | The store keeps the longest prefix the attempt has room for, under the next number, flagged if and only if it or the recorder cut. |
| `Evidence.StoreCutsExactly` | src/sweforge/github_store.py:3706-3763 | The store cuts a report if and only if it exceeds what the attempt still has as SQL counts it, which for NUL-free rows is what it really has. |
| `Evidence.RecordingBackend.Record` | src/sweforge/execution_evidence.py:219-236 | Cuts command and output and adds what it passed on to its running count. |
| `Evidence.EvidenceStore.RecordEvidence` | src/sweforge/github_store.py:3706-3763 | Appends exactly one row to its attempt and touches no other attempt. |
| `Evidence.BoundedExcerpt` | src/sweforge/execution_evidence.py:62-71 | The branches compute that excerpt. |

## Left out

- Operator interventions that reopen work (`retry_execution` and `recover_stale` on the workflow rows): the run theorems are about the machine's own steps; the effect of a retry on the event queue is in `Queue`.
- Several publication rows for one root event: the queue keeps at most one per event, as the id derivation gives one per cycle and input.
- WorkflowProgress.OneVersionEnds: deaths during review are not among its steps, because no bound covers them (see `WorkflowProgress.ReviewDeathsAreFree`).
- WorkflowSteering.TalkHoldsNoBind: for event keys that are unique, as the primary key of the events makes them, and a root that is stored.
- WorkflowStore.Store.SaveThreadWorkspace: keeps only that a workspace is recorded; the refusal of metadata that conflicts with the stored row or the thread is not modelled.
- WorkflowProgress.ProgressUnlessStuck: for threads whose execution rows belong to stored events, as the foreign key demands; `WorkflowProgress.Progress` is the statement without it.
- WorkflowChain.RepairChain: a cycle replanned after its first bind is excluded, as its initial attempts then share the numbering.
- Acceptance.EligibleIsAccepted: takes the row facts the strict proof does not check (stored round is the latest, result row of the cycle with a posted comment, non-empty event keys); `Acceptance.StrictTaskAccepted` shows they are exactly what is missing.
- Generations.GenerationsPartition: for threads whose finalized publications all have generations; `Generations.AllGeneratedExactly` says exactly when that is.
- Ingestion.ChangeDriven: for one issue and polls with increasing timestamps; `Ingestion.SameSecondDropped` says what happens otherwise. Threads, labels, pull-request routing and the poll cursor are left out.
- Queue.EventTable.RetryExecution: the execution row only; the reset of its permit and phase is not part of the queue.
- InputStore.InputTables.FinalizePublication: the rest of the eligibility proof is a parameter; that proof is `Acceptance.EligibleIsAccepted`'s.
- Queue.EventTable.RepairRedundantIssueEvents: takes the rows its self-join found as given; the join itself is `Ingestion.EventLog.RepairRedundantIssueEvents`.
- InputsTheorems.ClaimKeepsRunnable: the comment outbox, the active task row and the learning and publication jobs that the predicate also reads are given facts there.
- ConfigEdits.UndoSkill: document parsers are arbitrary functions, a directory exists exactly when it holds a file, and contents are counted in bytes of the string that models them.
- ConfigEdits.EditStaysInside: a name that is absolute or climbs out of the staging directory on its way; such a command is recognized, and where it leads is not followed.
- ConfigStaging.ConfigTables.InstallBundle: the parsers' verdict is a parameter.
- Deferred follow-ups themselves (`deferred_followups`): only the revision input they create is kept.
- History: ASCII white space in `strip`; the rendered column helpers.
- Schema creation and migrations, agents and model calls, task scheduling, GitHub transport and authentication, secrets, search ranking, tracing and redaction.
