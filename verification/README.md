# scenario_pipeliner: a verified model

scenario_pipeliner runs pipelines for rows of a PostgreSQL `tasks` table, lets a root task wait for its
children, answers broker messages through an outbox table, and applies the SQL migrations of its plugins.
Many workers share the tables and nothing but guarded updates keeps them apart. This project models five parts
of it and proves what they promise together.

| Files | Part |
|---|---|
| `Claims`, `TaskTables`, `TaskStorage`, `PersistEffects` | the `tasks` and `results` tables; every transaction as a function and as a method of a class |
| `TaskMachine`, `TaskInvariants`, `WakeupSafety`, `RollupSafety`, `ExecutionBounds`, `RestTimes`, `BrokenRuns`, `EarlyRestart` | any number of workers interleaving between those transactions |
| `OutboxMachine`, `OutboxSafety`, `OutboxPublisher`, `OutboxRuns` | the broker outbox with fencing tokens, and one publishing pass |
| `IngressRetry`, `BrokerWorld`, `BrokerStorage` | deliveries, the retry cap, and ingress, tasks and outbox as one world |
| `Text`, `SqlLexer`, `LexicalRules`, `SqlTemplates`, `SqlKeywords`, `SqlLaws`, `SqlRender` | placeholder substitution, the statement splitter and its keyword check |
| `SchemaNames`, `PluginRegistry`, `Sorting`, `PluginPlanner`, `PluginLedger` | plugin identities, dry run, migration plan and migration ledger |

**How the concurrent parts are modelled.** A transaction is one atomic step. A worker's coroutine is a job with
a phase that names its next transaction, so steps of other jobs come in between. A theorem about runs
holds for every finite sequence of enabled steps from the empty database. Where a property needs a
restriction on runs, `TaskMachine.Discipline` names it, `BrokenRuns` shows concrete runs that fail without it, and a
lemma ending in `Iff` gives the exact condition, for one step and for a whole run. A `SKIP LOCKED` claim is any set
of at most `limit` eligible rows;
`TaskStorage.ClaimsAreBoundedSubsets` shows that these are exactly the answers the statement can give.

**What is a parameter.** The clock; what pipelines, plugin hooks and the broker answer; which rows others have locked;
where an insert fails and which delivery wins a race; what is on disk, its hashes and the version check; whether the
database accepts a plugin's SQL; and the classification of characters (`Text.Sane`, `SchemaNames.Ascii` state
what is needed of it).

**Findings.** Properties that hold only under a condition, with a counterexample:

- The execution cap of a cyclical root can be passed: a drain reopens a root that waits with its counter at the
  cap (`BrokenRuns.RootCanPassItsCap`). `ExecutionBounds.CapKeptIff` gives the exact step that breaks it; for
  subtasks the cap always holds.
- A `WAITING` root can be left with nothing to wake it. `WakeupSafety.WakeupKeptIff` gives the exact steps: its last open
  child is soft-deleted, or stored `CANCELLED` by its own worker; a handler cancels all that is open under it though
  no handler will settle it; the handler of a non-blocking failure finds neither an open nor a failed live child, for
  instance because the failed child was soft-deleted; or the last handler that would settle it is cut off, by an
  error, a crash or a shutdown. `WakeupSafety.WakeupsKeptIff` says the same of whole runs.
- A verdict becomes untrue exactly when a child is inserted under a root that is, or is about to be, stored as a success,
  or one that contradicts the verdict is undeleted there (`RollupSafety.VerdictKeptIff`).
- A task gets a second live holder exactly when a lock takes its row while it is held (`ExecutionBounds.OneHolderIff`).
  Late heartbeats lead there, and so does a drain alone (`BrokenRuns.DrainGivesTwoHolders`).
- A requeued cyclical root can be taken before its interval is over (`EarlyRestart.RootCanBeTakenEarly`): a stale worker
  makes it wait and a drain reopens it. `RestTimes.RestKeptIff` gives the exact step; for subtasks the interval always
  holds.
- The transaction-keyword check looks for the end of a leading block comment from the comment's first character, the
  splitter from its third. They agree exactly when the comment does not start with `/*/`
  (`SqlLaws.CommentEndsAgreeIff`); `SqlLaws.KeywordCanHide` is an input on which the check misses a `BEGIN`.
- Substitution and cutting need not commute when a placeholder is read where a dollar tag may be open
  (`SqlLaws.SubstitutionCanHideACut`). The substituted text is read in step with the template exactly when none is
  (`SqlLaws.InStepIff`), and then they commute; out of step they may still (`SqlLaws.OutOfStepMayCommute`).
- A raised `migration_order` over an unchanged file is skipped and not recorded, so a later change of the file at
  that order is executed without a bump (`PluginLedger.SkippedOrderIsNotProtected`). Executed orders are protected.
- The documentation of cyclical tasks reads a missing interval as 0. `_row_to_task_state` reads a
  missing or zero interval as 60 seconds; the model follows the code.

## Model

| member | source | states |
|---|---|---|
| TaskTables.CountsAreExistence | scenario_pipeliner/worker/task_repositories/postgres.py:349-401 | each tally of a parent's children is positive exactly when a live child of that kind exists |
| PersistEffects.RootVerdictIff | scenario_pipeliner/worker/task_repositories/postgres.py:279-401 | a root whose own run succeeds for good is stored FAILED exactly if a live blocking child failed, otherwise WAITING exactly if a live one is open, otherwise FINISHED_WITH_ERROR exactly if a live one failed, otherwise FINISHED |
| PersistEffects.OtherOutcomesAreStored | scenario_pipeliner/worker/task_repositories/postgres.py:279-343 | every other outcome of an open row is stored as it is, or as NEW when the task goes round again |
| PersistEffects.PersistedColumns | scenario_pipeliner/worker/task_repositories/postgres.py:305-338 | with the result row go the counter, the next due time and, only when requeued, the payload; every other column stays |
| PersistEffects.PersistedOthers | scenario_pipeliner/worker/task_repositories/postgres.py:320-338 | no other row changes, except that a root failed by its own verdict cancels its live NEW, QUEUED and RUNNING children |
| PersistEffects.EndedRowsTakeNothing | scenario_pipeliner/worker/task_repositories/postgres.py:45-65 | a row that has ended, or is gone, takes neither outcome nor result |
| Claims.FrontIsFrontOf | scenario_pipeliner/worker/task_repositories/postgres.py:131-132 | an ordered, limited claim takes as many eligible rows as the limit allows, and every row left out comes after every row taken |
| Claims.FrontIsUnique | scenario_pipeliner/worker/task_repositories/postgres.py:131-132 | order and limit determine the rows taken |
| Claims.ShortFrontTakesAll | scenario_pipeliner/worker/task_repositories/postgres.py:131-132 | a claim that stays below its limit leaves no eligible row out |
| TaskStorage.RunnableIff | scenario_pipeliner/worker/task_repositories/postgres.py:109-140 | eligible are exactly the live rows of an active scenario under an enabled worker that are NEW and due, or QUEUED or RUNNING and not seen for longer than the timeout |
| TaskStorage.ClaimsAreBoundedSubsets | scenario_pipeliner/worker/task_repositories/postgres.py:79-169 | with rows locked by others skipped, the possible claims are exactly the sets of at most `limit` eligible rows |
| TaskStorage.PostgresTaskStorage.LockRunnableTasks | scenario_pipeliner/worker/task_repositories/postgres.py:79-169 | the rows taken are live, under an active scenario and an enabled worker, and either due and NEW or not seen for too long; with fewer than the limit no such unlocked row is left; they are the first in id order, become QUEUED and seen just now and are returned as they now stand; no other row changes |
| TaskStorage.PostgresTaskStorage.SetTaskRunning | scenario_pipeliner/worker/task_repositories/postgres.py:171-202 | succeeds exactly for a QUEUED row, which becomes RUNNING and seen just now, under the new alias or, without one, its old one; nothing else changes |
| TaskStorage.PostgresTaskStorage.TouchHeartbeatsOf | scenario_pipeliner/worker/task_repositories/postgres.py:217-234 | the given QUEUED and RUNNING rows, and no others, are seen just now; nothing else of them changes |
| TaskStorage.PostgresTaskStorage.FailParent | scenario_pipeliner/worker/task_repositories/postgres.py:236-255 | fails the parent exactly when it is WAITING |
| TaskStorage.PostgresTaskStorage.RequeueIncompleteTasks | scenario_pipeliner/worker/task_repositories/postgres.py:257-277 | the drain puts every given non-terminal row back to NEW, WAITING rows included, and counts them |
| TaskStorage.ClassifyParentChildren | scenario_pipeliner/worker/task_repositories/postgres.py:383-401 | the loop's three tallies are the tallies of the rows |
| TaskStorage.PostgresTaskStorage.SelectLiveChildren | scenario_pipeliner/worker/task_repositories/postgres.py:349-366 | every live child is read exactly once, so the rows tally to the sizes of the three sets |
| TaskStorage.PostgresTaskStorage.CountParentSubtasksState | scenario_pipeliner/worker/task_repositories/postgres.py:345-366 | in whatever order the child rows come, the tallies are the sizes of the three sets of live children |
| TaskStorage.PostgresTaskStorage.InsertResultAndUpdateTask | scenario_pipeliner/worker/task_repositories/postgres.py:279-343 | result insert, guarded update and sibling cancel of a failed root happen together or, on a terminal row, not at all; a root that succeeds for good gets the verdict of its live children |
| TaskStorage.PostgresTaskStorage.CloseParent | scenario_pipeliner/worker/task_repositories/postgres.py:403-426 | refuses a verdict that is no success, otherwise closes the parent exactly when it is WAITING |
| TaskStorage.PostgresTaskStorage.CancelSubtasks | scenario_pipeliner/worker/task_repositories/postgres.py:428-447 | row by row: every live NEW, QUEUED or RUNNING child is CANCELLED, no other row changes, and no such child is left |
| TaskStorage.PostgresTaskRepository.HandleSubtaskFailure | scenario_pipeliner/worker/task_repositories/postgres.py:564-581 | an uninterrupted failure handler leaves what the machine's handler phases leave; without a parent it does nothing |
| TaskStorage.PostgresTaskRepository.HandleSubtaskFinished | scenario_pipeliner/worker/task_repositories/postgres.py:583-597 | the same for the handler of a finished child |
| TaskStorage.PostgresTaskRepository.PersistTaskWithStatus | scenario_pipeliner/worker/task_repositories/postgres.py:515-562 | an uninterrupted persist is the persist step followed by the handler its committed status calls for |
| TaskStorage.SettleIsARun | scenario_pipeliner/worker/task_repositories/postgres.py:564-597 | an uninterrupted handler is one of the machine's runs |
| TaskStorage.CompletionTable | docs/TASK_STATUS.md:97-128 | what a finished, a failed and a blocking failed child do to a parent and to its siblings, for every tally |
| TaskInvariants.AlwaysWellFormed | scenario_pipeliner/worker/execution/db_orchestrator.py:98-169 | jobs, snapshots, rows and handler phases fit together in every reachable state |
| TaskInvariants.TerminalIsAbsorbing | scenario_pipeliner/worker/task_repositories/postgres.py:45-65 | no step of any worker changes the status, payload, alias or counters of a terminal row |
| WakeupSafety.NoWakeupIsLost | scenario_pipeliner/worker/task_repositories/postgres.py:305-338 | in runs that follow the rules a WAITING root has an open live child or a handler in flight that will count, close or fail it; without either no root is WAITING |
| WakeupSafety.WakeupKeptIff | scenario_pipeliner/worker/task_repositories/postgres.py:564-597 | a step takes the last hope from a WAITING root exactly if it is one of six kinds of stranding steps |
| WakeupSafety.WakeupsKeptIff | scenario_pipeliner/worker/task_repositories/postgres.py:564-597 | over any run at all, every WAITING root is awaited at every moment exactly if no step strands one |
| RollupSafety.VerdictsAreFaithful | scenario_pipeliner/worker/task_repositories/postgres.py:368-426 | a FINISHED root has only terminal, unfailed live children; a FINISHED_WITH_ERROR root only terminal ones and no failed blocking one |
| RollupSafety.VerdictKeptIff | scenario_pipeliner/worker/task_repositories/postgres.py:368-426 | a step keeps every stored or pending verdict true exactly if it neither inserts a child under its root nor undeletes one that contradicts it |
| RollupSafety.VerdictsKeptIff | scenario_pipeliner/worker/task_repositories/postgres.py:368-426 | over any run at all, verdicts are true at every moment exactly if no step upsets one |
| RollupSafety.BlockingFailureIsNeverForgotten | scenario_pipeliner/worker/task_repositories/postgres.py:564-576 | under a live failed blocking child a root is never stored as a success, and is WAITING only while a handler that fails it is in flight |
| ExecutionBounds.ResultsMatchCommits | scenario_pipeliner/worker/task_repositories/postgres.py:305-338 | over any run the result rows of a task are its committed outcomes, in order |
| ExecutionBounds.LinearSubtaskHasOneResult | scenario_pipeliner/worker/task_repositories/postgres.py:305-338 | a linear subtask gets at most one result row, and exactly one when it ends FINISHED or FAILED |
| ExecutionBounds.CapKeptIff | scenario_pipeliner/worker/core/utils.py:16-39 | a step keeps the cap of a task exactly when it does not reopen a WAITING row whose counter is at the cap |
| ExecutionBounds.CapHoldsUnderStaleLeases | scenario_pipeliner/worker/core/utils.py:16-39 | whatever is reclaimed or drained, a counter never passes its cap, and open rows and snapshots are below it |
| RestTimes.RequeuedIff | scenario_pipeliner/worker/core/utils.py:29-39 | an outcome requeues exactly a finished cyclical task under its cap, counted once more and due after its interval |
| RestTimes.RequeuedTaskRests | scenario_pipeliner/worker/task_repositories/postgres.py:109-169 | after an outcome that requeues a task, no lock of any later run takes it before its interval is over, whatever stale workers do |
| RestTimes.RestKeptIff | scenario_pipeliner/worker/task_repositories/postgres.py:257-277 | a step shortens the rest exactly if it is a drain that reopens the row while it waits for its children |
| ExecutionBounds.LeasesAreExclusive | scenario_pipeliner/worker/execution/db_orchestrator.py:229-239 | with heartbeats in time and no drain an open task has one live holder, and a cyclical task as many results as executions |
| ExecutionBounds.OneHolderIff | scenario_pipeliner/worker/task_repositories/postgres.py:109-169 | a step gives a task a second live holder exactly if it is a lock that takes its held row |
| ExecutionBounds.OneHolderKeptIff | scenario_pipeliner/worker/task_repositories/postgres.py:109-169 | over any run at all, a task has one live holder at every moment exactly if no lock takes it while it is held |
| ExecutionBounds.HeartbeatRenewsLeases | scenario_pipeliner/worker/execution/db_orchestrator.py:229-239 | a heartbeat makes every QUEUED or RUNNING row of its worker seen just now, and touches rows of its worker only |
| ExecutionBounds.OnlyQueuedRowsStart | scenario_pipeliner/worker/task_repositories/postgres.py:468-482 | a coroutine runs its pipeline exactly if it finds its row QUEUED; otherwise it goes on to store an error |
| BrokenRuns.RootCanPassItsCap | scenario_pipeliner/worker/task_repositories/postgres.py:257-277 | a run in which a drained cyclical root passes its cap |
| BrokenRuns.OwnCancelStrandsRoot | scenario_pipeliner/worker/task_repositories/postgres.py:558-562 | a run in which a child cancelled by its own worker leaves its root WAITING with nothing in flight |
| BrokenRuns.CutHandlerStrandsRoot | scenario_pipeliner/worker/task_repositories/postgres.py:583-597 | the same for a handler cut off before it counts |
| BrokenRuns.DeleteStrandsRoot | scenario_pipeliner/worker/task_repositories/postgres.py:349-366 | the same for the soft delete of the last open child |
| BrokenRuns.DeletedFailureStrandsRoot | scenario_pipeliner/worker/task_repositories/postgres.py:572-581 | the same when the deleted child has already failed and its handler has yet to count |
| BrokenRuns.LateChildEscapesVerdict | scenario_pipeliner/worker/task_repositories/postgres.py:586-597 | a run in which a child inserted between count and close is open under a FINISHED root |
| BrokenRuns.UndeletedChildEscapesVerdict | scenario_pipeliner/worker/task_repositories/postgres.py:349-366 | the same for an undeleted child |
| BrokenRuns.LapsedLeaseHasTwoHolders | scenario_pipeliner/worker/task_repositories/postgres.py:109-140 | without heartbeats in time two workers hold one open task |
| BrokenRuns.DrainGivesTwoHolders | scenario_pipeliner/worker/execution/db_orchestrator.py:171-181 | a run with heartbeats in time in which a drain alone gives a task two holders |
| EarlyRestart.RootCanBeTakenEarly | scenario_pipeliner/worker/task_repositories/postgres.py:257-277 | a run in which a requeued root is taken before its interval is over |
| OutboxSafety.OnlyTheLatestClaimantWrites | scenario_pipeliner/worker/broker/storage.py:412-511 | a step changes a row only as a new claim, which raises the token by one, or as the claim holding the current token |
| OutboxSafety.PublishesCarryTheStoredReply | scenario_pipeliner/worker/broker/outbox.py:96-203 | every publish ever made, also under a lost lease, carries the row's one stored body to a queue of its stored list |
| OutboxSafety.SentMeansPublishedByOneClaim | scenario_pipeliner/worker/broker/outbox.py:196-203 | a SENT row has a non-empty routing list, and the claim that marked it published to exactly that list in order |
| OutboxSafety.RowOverARun | scenario_pipeliner/worker/broker/storage.py:243-300 | over any run a stored reply is final, a settled row is final, the token counts claims and the attempts count recorded failures |
| OutboxSafety.AttemptsAreBounded | scenario_pipeliner/worker/broker/storage.py:477-511 | with a limit of at least one, a row that is not FAILED has attempts left and a FAILED row has used exactly the limit |
| OutboxPublisher.RoutingIsNeverBlank | scenario_pipeliner/worker/broker/outbox.py:42-53 | no blank queue is routed to; a draft's own list shuts out both fallbacks, a reply address the outputs |
| OutboxPublisher.ResolvedQueuesAre | scenario_pipeliner/worker/broker/outbox.py:42-53 | a reply goes to exactly the non-blank queues of its draft; without a draft list to the stripped reply address; without either to exactly the non-blank outputs |
| OutboxPublisher.RoutesNowhereIff | scenario_pipeliner/worker/broker/outbox.py:42-53 | a reply has no queue exactly if every queue of the source that decides is blank |
| OutboxPublisher.OutcomeEndsClaim | scenario_pipeliner/worker/broker/outbox.py:104-219 | an undisturbed turn ends its claim, keeps a stored reply, routes a new one to no blank queue, and is SENT exactly when the whole list was published |
| OutboxPublisher.LostLeaseWritesNothing | scenario_pipeliner/worker/broker/outbox.py:165-203 | a turn that lost its lease writes no row and is not counted; with no reply stored at its claim it publishes nothing |
| OutboxPublisher.UndisturbedTurn | scenario_pipeliner/worker/broker/outbox.py:104-219 | with its lease held throughout, a turn changes its own row and the log as its outcome says, and nothing else |
| OutboxPublisher.UndisturbedTurnVerdict | scenario_pipeliner/worker/broker/outbox.py:104-219 | an owned, undisturbed turn, by plugin answer and stored body: SKIPPED exactly without a plugin, or with nothing stored and no reply or one that has no queue; one more attempt, and FAILED or PENDING by the limit, exactly if loading, a hook that is needed or a publish fails; otherwise SENT, with one publish to each queue |
| OutboxPublisher.UndisturbedPass | scenario_pipeliner/worker/broker/outbox.py:86-219 | a pass alone gives every claimed row its own outcome, touches no other row, and counts the rows that became SENT |
| OutboxPublisher.UnattendedAreClaimed | scenario_pipeliner/worker/broker/storage.py:262-276 | only unlocked PENDING rows and PROCESSING rows last seen before the timeout are claimed, and all of them when the claim stays below its limit |
| OutboxPublisher.MessagesArePublished | scenario_pipeliner/worker/broker/outbox.py:69-84 | a fan-out shows up as exactly its queues, in order, under its own claim |
| OutboxPublisher.BrokerOutbox.ClaimPendingOutbox | scenario_pipeliner/worker/broker/storage.py:243-300 | the oldest unlocked PENDING or stale PROCESSING rows become PROCESSING under a new token that is the only one to own them; no other row changes |
| OutboxPublisher.BrokerOutbox.StoreOutboxReply | scenario_pipeliner/worker/broker/storage.py:433-457 | stores body and routing exactly for the owner of a PROCESSING row |
| OutboxPublisher.BrokerOutbox.MarkOutboxSkipped | scenario_pipeliner/worker/broker/storage.py:420-430 | the owner of a PROCESSING row, and nobody else, makes it SKIPPED |
| OutboxPublisher.BrokerOutbox.MarkOutboxSent | scenario_pipeliner/worker/broker/storage.py:460-474 | the owner of a PROCESSING row, and nobody else, makes it SENT |
| OutboxPublisher.BrokerOutbox.MarkOutboxPublishFailure | scenario_pipeliner/worker/broker/storage.py:477-511 | counts one attempt for the owner and ends as FAILED exactly at the limit, otherwise PENDING |
| OutboxPublisher.BrokerOutbox.PublishAllQueues | scenario_pipeliner/worker/broker/outbox.py:69-84 | fail-fast fan-out: the queues before the failing one are published, and no others |
| OutboxPublisher.BrokerOutbox.ProcessClaimed | scenario_pipeliner/worker/broker/outbox.py:104-219 | one turn, its lease held or lost before it or inside it, does what the turn of the specification does; `UndisturbedTurnVerdict` says what that is for an undisturbed one |
| OutboxPublisher.BrokerOutbox.PublishPendingOutbox | scenario_pipeliner/worker/broker/outbox.py:86-219 | a pass claims the oldest rows and gives each exactly one turn on the copy it claimed, with any transactions of others before and inside each turn, and returns how many it marked SENT |
| OutboxRuns.TurnIsARun | scenario_pipeliner/worker/broker/outbox.py:104-219 | a turn, failing anywhere and with its lease held or lost, is a run of the outbox machine around any run of the others |
| IngressRetry.CountedDeliveryAttempt | scenario_pipeliner/worker/broker/ingress.py:32-56 | the attempt read from the delivery count, else the sum of readable death counts, else none |
| IngressRetry.DeathsAddUp | scenario_pipeliner/worker/broker/ingress.py:41-56 | the deaths are summed: every readable count once, anything else not at all |
| IngressRetry.AttemptIs | scenario_pipeliner/worker/broker/ingress.py:59-77 | the attempt is the delivery count plus one, else the sum of deaths, else 2 or 1 by the redelivery flag; the nack requeues exactly below the cap, unless nothing was counted of a repeated delivery |
| IngressRetry.DeliveriesAreCapped | scenario_pipeliner/worker/broker/ingress.py:59-102 | a message that always fails is delivered at most `max` times by a counting broker and min(2, `max`) times by a classic one, and requeued exactly until then |
| IngressRetry.GrowingAttemptsEnd | scenario_pipeliner/worker/broker/ingress.py:73-77 | whatever the headers, growing attempts end within the cap |
| BrokerWorld.IngressIsExactlyOnce | scenario_pipeliner/worker/broker/storage.py:61-142 | over any trace of deliveries, races and rollbacks the tasks of messages and ingress rows are in bijection, each message has at most one task, each task at most one outbox row, only tasks of messages have one, and an acked message is recorded |
| BrokerWorld.EgressInputsAreFrozen | scenario_pipeliner/worker/broker/storage.py:175-219 | once a task has an outbox row, no step of anybody changes what the reply hook is given |
| BrokerWorld.LatestIsNewest | scenario_pipeliner/worker/broker/storage.py:330-341 | the result given to the hook is the newest of the task |
| BrokerWorld.EveryRetrySeesTheSame | scenario_pipeliner/worker/broker/storage.py:303-409 | from the empty database: any two retries of a row see the same task, latest result and ingress row |
| BrokerStorage.BrokerTables.FindExisting | scenario_pipeliner/worker/broker/storage.py:43-58 | finds the task of a message exactly when the message is recorded |
| BrokerStorage.BrokerTables.InsertRows | scenario_pipeliner/worker/broker/storage.py:93-140 | both rows go in, or the unique index keeps both out |
| BrokerStorage.BrokerTables.InsertLinearTaskWithIngress | scenario_pipeliner/worker/broker/storage.py:61-142 | creates task and ingress row exactly for an unrecorded message, reports the recorder's task otherwise, leaves no rows of its own after a fault |
| BrokerStorage.MessageBecomes | scenario_pipeliner/worker/broker/storage.py:73-140 | the columns of the task and of the ingress row a message becomes; no other row changes |
| BrokerStorage.BrokerTables.InsertOutboxRow | scenario_pipeliner/worker/broker/storage.py:208-218 | inserts exactly when the task has no outbox row yet |
| BrokerStorage.AwaitingAreClaimed | scenario_pipeliner/worker/broker/storage.py:189-203 | only live terminal tasks of messages without an outbox row are claimed, and all that are not locked when the claim stays below its limit |
| BrokerStorage.BrokerTables.InsertOutboxForTerminalTasks | scenario_pipeliner/worker/broker/storage.py:175-219 | the candidates with the oldest update are claimed, as many as the limit allows; every claimed terminal broker task gets exactly one fresh PENDING row, and the count leaves out those another reconciler got to first |
| BrokerStorage.BrokerTables.ProcessIngressMessage | scenario_pipeliner/worker/broker/ingress.py:105-238 | acks exactly when the message is recorded under the returned task, requeues exactly the retryable failures within the cap |
| BrokerStorage.CommitIsAStep | scenario_pipeliner/worker/broker/storage.py:78-140 | the insert transaction is one step of the world, race lost or won |
| BrokerStorage.CoverIsAStep | scenario_pipeliner/worker/broker/storage.py:204-219 | covering one task is one reconcile step of the world |
| SqlLexer.SegmentsJoinBack | scenario_pipeliner/db/sql_templates.py:42-91 | the text is exactly its segments joined by the cutting semicolons |
| SqlLexer.EveryCodeSemicolonCuts | scenario_pipeliner/db/sql_templates.py:77-84 | every semicolon outside quotes, comments and dollar bodies cuts |
| SqlLexer.NothingElseCuts | scenario_pipeliner/db/sql_templates.py:45-76 | nothing else cuts |
| SqlLexer.SegmentsHoldNoCut | scenario_pipeliner/db/sql_templates.py:42-91 | no segment holds a cutting semicolon, and every segment but the last ends in code |
| LexicalRules.QuotesHold | scenario_pipeliner/db/sql_templates.py:94-105 | quotes hold everything up to the same mark, and text that ends before it is unterminated |
| LexicalRules.LineCommentsHold | scenario_pipeliner/db/sql_templates.py:45-52 | a line comment holds everything up to the end of its line and may end the text |
| LexicalRules.BlockCommentsHold | scenario_pipeliner/db/sql_templates.py:53-59 | a block comment holds everything up to its first end mark, and is unterminated without one |
| LexicalRules.DollarTagsHold | scenario_pipeliner/db/sql_templates.py:65-76 | a dollar tag holds everything up to its first repetition, and is unterminated without one |
| SqlTemplates.ScanQuoted | scenario_pipeliner/db/sql_templates.py:94-105 | finds the end of the quoted text, doubled quotes inside, or reports that there is none |
| SqlTemplates.DollarTag | scenario_pipeliner/db/sql_templates.py:108-116 | finds the dollar tag that opens at a position exactly when there is one |
| SqlTemplates.ScanToken | scenario_pipeliner/db/sql_templates.py:45-86 | moves past one token that is no cut, or reports that the rest of the text never closes |
| SqlTemplates.EndSegment | scenario_pipeliner/db/sql_templates.py:77-91 | adds the stripped segment unless it is blank, or rejects it |
| SqlTemplates.RejectTransactionControl | scenario_pipeliner/db/sql_templates.py:119-142 | rejects by the first word after the leading comments as the check reads them |
| SqlKeywords.RejectedIff | scenario_pipeliner/db/sql_templates.py:119-142 | rejected exactly if the first word after the leading comments spells BEGIN, COMMIT, ROLLBACK or START in any case |
| SqlKeywords.PlainKeywordsAreRejected | scenario_pipeliner/db/sql_templates.py:132-142 | a statement that starts with a word is rejected exactly if the word is one of the four |
| SqlKeywords.CheckStartsInCode | scenario_pipeliner/db/sql_templates.py:119-131 | with ordinary comments the check goes past comments and white space only, past all of them, and starts where the splitter is in code |
| SqlTemplates.SplitSqlStatements | scenario_pipeliner/db/sql_templates.py:32-91 | the index scanner returns the stripped non-blank segments of the declarative reading, or its error |
| SqlLaws.SplitRoundTrip | scenario_pipeliner/db/sql_templates.py:32-116 | joining any result with newline, semicolon, newline and splitting again gives the same list |
| SqlRender.RenderFills | scenario_pipeliner/db/sql_templates.py:22-24 | a template of words and placeholders renders to the same words with each schema name in its own place |
| SqlRender.RenderAcceptsIff | scenario_pipeliner/db/sql_templates.py:11-29 | a template is accepted exactly if both placeholders occur and no double brace is left; the errors come in that order |
| SqlRender.TemplateRendersIff | scenario_pipeliner/db/sql_templates.py:11-29 | a template of words and placeholders is accepted exactly if both placeholders are among its pieces, and renders to the pieces around the two names |
| SqlLaws.CuttingCommutesWithSubstitution | scenario_pipeliner/db/sql_templates.py:22-91 | substituting then cutting equals cutting then substituting in each segment, when no replaced placeholder is read where a dollar tag may be open |
| SqlLaws.SameReadingIff | scenario_pipeliner/db/sql_templates.py:65-76 | a schema name leaves the reader where its placeholder does exactly if no dollar tag may be open |
| SqlLaws.InStepIff | scenario_pipeliner/db/sql_templates.py:22-76 | a substitution is read in step with its template exactly if it replaces nothing where a dollar tag may be open |
| SqlLaws.ClearTemplatesRenderInStep | scenario_pipeliner/db/sql_templates.py:22-29 | a template with no brace where a tag may be open is read in step through both substitutions |
| SqlLaws.OutOfStepMayCommute | scenario_pipeliner/db/sql_templates.py:22-76 | a template that is read out of step and on which the two orders still agree |
| SqlLaws.NoDollarIsClear | scenario_pipeliner/db/sql_templates.py:22-29 | in particular for every template without a dollar sign |
| SqlLaws.SubstitutionCanHideACut | scenario_pipeliner/db/sql_templates.py:22-76 | a template on which the two orders differ |
| SqlLaws.CommentEndsAgreeIff | scenario_pipeliner/db/sql_templates.py:128-131 | the check and the splitter see the same end of a leading block comment exactly when it does not start with slash, star, slash |
| SqlLaws.KeywordCheckSeesPastComments | scenario_pipeliner/db/sql_templates.py:119-131 | with only such comments the check reads the word after the comments the splitter sees |
| SqlLaws.KeywordCanHide | scenario_pipeliner/db/sql_templates.py:128-138 | a statement whose BEGIN the check does not see |
| SchemaNames.DerivedNamesAreValid | scenario_pipeliner/db/schemes_names.py:32-43 | a derived schema name is always valid, and derivation fails only on emptiness, length and reserved words |
| SchemaNames.SanitizedIs | scenario_pipeliner/db/schemes_names.py:32-43 | a derived name is the slug of the stripped, lower-cased plugin name without its outer underscores, prefixed if it starts with a digit, and then validated |
| SchemaNames.SlugGrows | scenario_pipeliner/db/schemes_names.py:34-36 | read from the left, a letter or digit stays, anything else becomes an underscore, and an underscore after an underscore is dropped |
| SchemaNames.DigitsArePrefixed | scenario_pipeliner/db/schemes_names.py:41-42 | a tidy name that starts with a digit gets the prefix p_ |
| SchemaNames.NameLimits | scenario_pipeliner/db/schemes_names.py:14-29 | of well-formed names exactly those over 63 characters, the reserved words and the pg_ names are invalid |
| SchemaNames.FixedPointsAreTidyNames | scenario_pipeliner/db/schemes_names.py:32-43 | a name is its own schema name exactly when it is valid with single inner underscores |
| SchemaNames.DerivationIsIdempotent | scenario_pipeliner/db/schemes_names.py:32-43 | deriving twice is deriving once |
| SchemaNames.ValidationAcceptsIff | scenario_pipeliner/db/schemes_names.py:14-29 | validation accepts exactly padded valid names and returns them without the padding |
| SchemaNames.SeparatorsCollide | scenario_pipeliner/db/schemes_names.py:35-36 | derivation is not injective: two plugin names with one schema |
| PluginRegistry.IdentityBook.ClaimPluginIdentity | scenario_pipeliner/core/plugin_identity.py:10-31 | records name and schema, or changes nothing and says why |
| PluginRegistry.Registry.ValidateChecksum | scenario_pipeliner/core/registry.py:85-146 | refuses exactly in production what is found and not genuine, naming the scope before the hash, and otherwise reports a match or one warning |
| PluginRegistry.ChecksumRefusedIff | scenario_pipeliner/core/registry.py:85-146 | only production refuses, and exactly what is found and is not of the right kind with the right hash; development warns once instead |
| PluginRegistry.Registry.Register | scenario_pipeliner/core/registry.py:31-63 | the books change as the specification says, and a failed registration changes nothing |
| PluginRegistry.Registry.ValidateScenarioCollisions | scenario_pipeliner/core/registry.py:148-155 | passes exactly when no scenario of the manifest is owned |
| PluginRegistry.RegisteredIff | scenario_pipeliner/core/registry.py:31-63 | a call is accepted exactly for a compatible, nameable manifest with an acceptable checksum that clashes with no registered one |
| PluginRegistry.RefusalReason | scenario_pipeliner/core/registry.py:31-63 | each reason for a refusal is given exactly if its check is the first that fails |
| PluginRegistry.RegistryIsSound | scenario_pipeliner/core/registry.py:20-63 | after any sequence of calls names and schemas are in bijection, scenario ownership is the disjoint union of the manifests, and no two registered manifests clash |
| PluginRegistry.RegisteredSchemasAreValid | scenario_pipeliner/db/schemes_names.py:32-43 | every schema the registry holds is a valid name and is derived from its owner, a registered plugin |
| Sorting.SortSorts | scenario_pipeliner/core/plugin_migrate.py:49 | the sort by key gives an ordered permutation |
| Sorting.SortIsStable | scenario_pipeliner/core/dry_run.py:123-126 | elements with the same key keep their order |
| Sorting.StableSortIsUnique | scenario_pipeliner/core/plugin_migrate.py:49 | order and stability determine the result, so any stable sort gives it |
| Sorting.DigitsCompareAsNumbers | scenario_pipeliner/core/plugin_migrate.py:49 | orders written with the same number of digits are compared as the numbers they write |
| PluginPlanner.CollectPluginMigrationPlans | scenario_pipeliner/core/plugin_migrate.py:26-50 | the collecting loop gives the specified plan or the first problem |
| PluginPlanner.ExamineManifest | scenario_pipeliner/core/dry_run.py:39-121 | one manifest is examined and registered, or the registry stays as it was |
| PluginPlanner.BuildDryRunReport | scenario_pipeliner/core/dry_run.py:29-154 | the examining loop gives the specified report |
| PluginPlanner.CleanReportIsThePlan | scenario_pipeliner/core/dry_run.py:36-144 | if the report has no errors, collecting succeeds with exactly the report's plan items in the report's order |
| PluginPlanner.ReportAddsUp | scenario_pipeliner/core/dry_run.py:123-144 | discovered = loaded + skipped + errors, planned = loaded = number of plan items |
| PluginPlanner.PlanIsOrdered | scenario_pipeliner/core/plugin_migrate.py:33-50 | a plan is ordered by migration order and name, names each plugin once, and each has a schema |
| PluginPlanner.PlanIsWhatIsAsked | scenario_pipeliner/core/plugin_migrate.py:26-50 | a collected plan holds exactly the migrations that manifests ask for |
| PluginPlanner.ExaminedIs | scenario_pipeliner/core/dry_run.py:36-121 | a folder is reported by the first of its problems, or with its plan and its warnings |
| PluginPlanner.ReportStatusIff | scenario_pipeliner/core/dry_run.py:138-144 | error exactly with errors, warning exactly with a warned plugin and no error, otherwise ok |
| PluginPlanner.ReportIsOrdered | scenario_pipeliner/core/dry_run.py:123-126 | plugins with a migration come first, by order and name, then the others by name |
| PluginLedger.MigrationDatabase.PersistPluginSchema | scenario_pipeliner/db/schema_utils.py:141-157 | writes a first mapping, accepts an equal one, and leaves a different one alone |
| PluginLedger.MigrationDatabase.RecordPluginMigration | scenario_pipeliner/db/schema_utils.py:210-235 | from then on this file counts as applied, another file is executed only with a later order, and no other plugin is affected |
| PluginLedger.NeedsLaterOrder | scenario_pipeliner/db/schema_utils.py:191-207 | over a recorded file exactly another file with a later order is executed |
| PluginLedger.ReplayIff | scenario_pipeliner/db/schema_utils.py:183-207 | each answer of the replay check exactly: executed without a ledger row or with another file under a later order, skipped with the same file under no earlier order, refused otherwise |
| PluginLedger.TransactIs | scenario_pipeliner/core/plugin_migrate.py:82-107 | one transaction by the tables before it: each answer exactly, and the mapping, ledger row and execution it adds |
| PluginLedger.PreparedIs | scenario_pipeliner/core/plugin_migrate.py:62-80 | what is prepared for a plugin: its file's hash, its own schema, and the statements of its file rendered for both schemas |
| PluginLedger.MigrationDatabase.ApplyOne | scenario_pipeliner/core/plugin_migrate.py:82-107 | one plugin's transaction: executed exactly if mapped, due and accepted, and then mapping, one execution and ledger row are added; skipped exactly if mapped and applied; otherwise nothing changes |
| PluginLedger.MigrationDatabase.ApplyPluginMigrations | scenario_pipeliner/core/plugin_migrate.py:53-108 | a run applies the collected plan up to its first failure and reports the executed plugins |
| PluginLedger.LedgerIsMonotone | scenario_pipeliner/db/schema_utils.py:183-235 | over any runs the orders executed for a plugin strictly increase, so none executes twice or with two hashes; the ledger row is the last execution; a plugin stays in one schema |
| PluginLedger.ExecutedOrdersAreProtected | scenario_pipeliner/db/schema_utils.py:193-207 | an executed order is only ever accepted again as a skip of the last execution with the same hash |
| PluginLedger.SkippedOrderIsNotProtected | scenario_pipeliner/db/schema_utils.py:199-207 | a raised order over the same file is skipped unrecorded, and changed SQL at that order then executes |
| PluginLedger.AppliedIsWhatRan | scenario_pipeliner/core/plugin_migrate.py:60-108 | executions are only appended, and a successful run returns exactly the plugins it executed, in order |
| PluginLedger.SuccessAppliesAll | scenario_pipeliner/core/plugin_migrate.py:60-108 | after a successful plan every plugin has a ledger row with its file's hash, and was executed exactly if it had no row or one of an earlier order and another file |
| PluginLedger.SuccessfulRunAppliesAll | scenario_pipeliner/core/plugin_migrate.py:53-108 | the same of a whole run; in particular every planned plugin without a ledger row is executed |
| PluginLedger.ExecutionsArePlanned | scenario_pipeliner/core/plugin_migrate.py:60-108 | whatever a plan executes is one of its items with what was prepared for it |
| PluginLedger.FailureKeepsPrefix | scenario_pipeliner/core/plugin_migrate.py:62-107 | a failing run has committed exactly what the plugins before the failing one commit |
| PluginLedger.RunIsIdempotent | scenario_pipeliner/core/plugin_migrate.py:53-108 | after a successful run, a run on the same tree succeeds, executes nothing and changes nothing |
| PluginLedger.CleanReportLeavesOnlySql | scenario_pipeliner/core/dry_run.py:29-154 | after a clean dry run, applying the tree can fail only on SQL text, ledger or database |

## Left out

- Isolation below a transaction: under READ COMMITTED a statement sees rows committed after the transaction began; every transaction is one atomic step here.
- A run that does not end: all theorems about runs are safety properties of finite runs; fairness and scheduling are not modelled.
- BrokerWorld.IngressIsExactlyOnce: reconcile covers one task per step, in any order, which is finer than the source's one transaction for many; the method `InsertOutboxForTerminalTasks` states the order.
- The oldest-first order of the outbox claim in `OutboxMachine`, where any bounded set of claimable rows may be claimed; the method `ClaimPendingOutbox` states the order.
- PluginLedger.CleanReportLeavesOnlySql: the database creating the plugin's schema counts as the database accepting its SQL.
- Two clocks: the worker's clock for `next_run_at` and the database clock are one clock; tasks and outbox tick separately.
- Publish headers and content type of a reply, the error text of a failed publish, and the wording of all errors and warnings.
- `steps_names`, titles and other columns no guarded update reads.
- `ensure_outbox_pending`, the healing of identity sequences and the one retry after it.
- How a message id is derived from headers or body, and the connection runner: reconnects, pings, requeues on stop and on handler timeout.
- Plugin code: a pipeline is an arbitrary outcome plus inserts of tasks; it is taken not to change the parent or blocking flag of its own state.
- Error back-off, batching and asyncio mechanics; loss of the database connection inside a transaction is a crash of the worker.
- HTTP, command line, settings and environment, logging, Alembic and table definitions, the checksum's file walk.
- A core version that is no valid version; file-system changes between planning and applying.
- PostgreSQL's own lexical rules: nested comments and escape strings are read as the splitter reads them.
