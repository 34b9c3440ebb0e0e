/**
 The `tasks` and `results` tables, and one function per database transaction of
 `PostgresTaskStorage`. A transaction is atomic; the clock of the database is `now`.
 */
module TaskTables {
  import opened Common

  type Id = nat

  datatype Status =
    | Draft | New | Queued | Running | Waiting
    | Finished | FinishedWithError | Cancelled | Failed

  datatype Source = Inner | Broker

  datatype Kind = Linear | Cyclical

  datatype Task = Task(
    scenario: string,
    status: Status,
    source: Source,
    kind: Kind,
    interval: int,
    maxExecutions: Option<int>,
    currentExecutions: int,
    nextRunAt: Option<int>,
    heartbeat: Option<int>,
    updatedAt: int,
    isBlock: bool,
    parent: Option<Id>,
    payload: Option<string>,
    alias: Option<string>,
    deleted: bool)

  datatype ResultRow = ResultRow(task: Id, body: string)

  datatype Tables = Tables(now: int, tasks: map<Id, Task>, results: seq<ResultRow>)

  /** The rows of `settings` that the lock statement looks at. */
  datatype Flags = Flags(workerEnabled: bool, activeScenarios: set<string>)

  predicate Terminal(status: Status) {
    status in {Finished, FinishedWithError, Cancelled, Failed}
  }

  predicate FailedChild(status: Status) {
    status in {Failed, FinishedWithError}
  }

  predicate Cancellable(status: Status) {
    status in {New, Queued, Running}
  }

  predicate InFlight(status: Status) {
    status in {Queued, Running}
  }

  // ---- lock_runnable_tasks -------------------------------------------------

  predicate Blank(s: string) {
    forall c | c in s :: c == ' '
  }

  function LastSeen(task: Task): int {
    if task.heartbeat.Some? then task.heartbeat.value else task.updatedAt
  }

  predicate Runnable(now: int, zombie: int, flags: Flags, task: Task) {
    && !task.deleted
    && flags.workerEnabled
    && task.scenario in flags.activeScenarios
    && (|| (&& task.status == New
            && (task.nextRunAt.None? || task.nextRunAt.value <= now)
            && !Blank(task.scenario))
        || (InFlight(task.status) && LastSeen(task) < now - zombie))
  }

  function RunnableIds(t: Tables, zombie: int, flags: Flags): set<Id> {
    set id | id in t.tasks && Runnable(t.now, zombie, flags, t.tasks[id])
  }

  function LockTasks(t: Tables, claimed: set<Id>): Tables {
    t.(tasks := map id | id in t.tasks ::
                  if id in claimed
                  then t.tasks[id].(status := Queued, updatedAt := t.now, heartbeat := Some(t.now))
                  else t.tasks[id])
  }

  // ---- single-row and set updates ------------------------------------------

  function SetRunning(t: Tables, id: Id, alias: Option<string>): Tables {
    if id in t.tasks && t.tasks[id].status == Queued then
      var row := t.tasks[id];
      t.(tasks := t.tasks[id := row.(status := Running, updatedAt := t.now, heartbeat := Some(t.now),
           alias := if alias.Some? && alias.value != "" then alias else row.alias)])
    else t
  }

  function TouchHeartbeats(t: Tables, ids: set<Id>): Tables {
    t.(tasks := map id | id in t.tasks ::
                  if id in ids && InFlight(t.tasks[id].status)
                  then t.tasks[id].(heartbeat := Some(t.now), updatedAt := t.now)
                  else t.tasks[id])
  }

  function FailWaitingParent(t: Tables, parent: Id): Tables {
    if parent in t.tasks && t.tasks[parent].status == Waiting
    then t.(tasks := t.tasks[parent := t.tasks[parent].(status := Failed, updatedAt := t.now)])
    else t
  }

  function CloseWaitingParent(t: Tables, parent: Id, verdict: Status): Tables {
    if parent in t.tasks && t.tasks[parent].status == Waiting
    then t.(tasks := t.tasks[parent := t.tasks[parent].(status := verdict, updatedAt := t.now)])
    else t
  }

  function RequeueIncomplete(t: Tables, ids: set<Id>): Tables {
    t.(tasks := map id | id in t.tasks ::
                  if id in ids && !Terminal(t.tasks[id].status)
                  then t.tasks[id].(status := New, updatedAt := t.now, heartbeat := None)
                  else t.tasks[id])
  }

  predicate LiveChild(t: Tables, parent: Id, child: Id) {
    child in t.tasks && t.tasks[child].parent == Some(parent) && !t.tasks[child].deleted
  }

  function CancelOpenSubtasks(t: Tables, parent: Id): Tables {
    t.(tasks := map id | id in t.tasks ::
                  if LiveChild(t, parent, id) && Cancellable(t.tasks[id].status)
                  then t.tasks[id].(status := Cancelled, updatedAt := t.now)
                  else t.tasks[id])
  }

  // ---- child tallies and the verdict they lead to --------------------------

  predicate PendingChild(t: Tables, parent: Id, child: Id) {
    LiveChild(t, parent, child) && !Terminal(t.tasks[child].status)
  }

  predicate FailedLiveChild(t: Tables, parent: Id, child: Id, blocking: bool) {
    LiveChild(t, parent, child) && FailedChild(t.tasks[child].status) && t.tasks[child].isBlock == blocking
  }

  function PendingChildren(t: Tables, parent: Id): set<Id> {
    set c | c in t.tasks && PendingChild(t, parent, c)
  }

  function FailedChildren(t: Tables, parent: Id, blocking: bool): set<Id> {
    set c | c in t.tasks && FailedLiveChild(t, parent, c, blocking)
  }

  datatype Counts = Counts(pendingOpen: nat, failedNonBlocking: nat, failedBlocking: nat)

  function CountSubtasks(t: Tables, parent: Id): Counts {
    Counts(|PendingChildren(t, parent)|, |FailedChildren(t, parent, false)|, |FailedChildren(t, parent, true)|)
  }

  /** A tally is positive exactly when such a child exists. */
  lemma CountsAreExistence(t: Tables, parent: Id)
    ensures CountSubtasks(t, parent).pendingOpen > 0 <==> exists c :: PendingChild(t, parent, c)
    ensures CountSubtasks(t, parent).failedNonBlocking > 0 <==> exists c :: FailedLiveChild(t, parent, c, false)
    ensures CountSubtasks(t, parent).failedBlocking > 0 <==> exists c :: FailedLiveChild(t, parent, c, true)
  {
    assert forall c :: PendingChild(t, parent, c) <==> c in PendingChildren(t, parent);
    assert forall c :: FailedLiveChild(t, parent, c, false) <==> c in FailedChildren(t, parent, false);
    assert forall c :: FailedLiveChild(t, parent, c, true) <==> c in FailedChildren(t, parent, true);
    NonEmpty(PendingChildren(t, parent));
    NonEmpty(FailedChildren(t, parent, false));
    NonEmpty(FailedChildren(t, parent, true));
  }

  lemma NonEmpty(s: set<Id>)
    ensures |s| > 0 <==> exists c :: c in s
  {
    if |s| > 0 {
      var c :| c in s;
    }
  }

  function StatusForSuccessfulRoot(counts: Counts): Status {
    if counts.failedBlocking > 0 then Failed
    else if counts.pendingOpen > 0 then Waiting
    else if counts.failedNonBlocking > 0 then FinishedWithError
    else Finished
  }

  // ---- persisting an outcome -----------------------------------------------

  /** `_row_to_task_state` reads a zero interval as 60. */
  function Delay(task: Task): int {
    if task.interval == 0 then 60 else task.interval
  }

  /** Status, execution counter and next run for an outcome of the pipeline. */
  function CyclicalParams(candidate: Status, snap: Task, now: int): (Status, int, Option<int>) {
    if snap.kind == Cyclical then
      var executions := snap.currentExecutions + 1;
      var underCap := snap.maxExecutions.None? || executions < snap.maxExecutions.value;
      if candidate == Finished && underCap
      then (New, executions, Some(now + Delay(snap)))
      else (candidate, executions, None)
    else (candidate, snap.currentExecutions, None)
  }

  predicate RollsUp(snap: Task, status: Status) {
    snap.parent.None? && status == Finished
  }

  /** The status `insert_result_and_update_task` writes for row `id`. */
  function WriteStatus(t: Tables, id: Id, snap: Task, candidate: Status): Status {
    var status := CyclicalParams(candidate, snap, t.now).0;
    if RollsUp(snap, status) then StatusForSuccessfulRoot(CountSubtasks(t, id)) else status
  }

  predicate Persists(t: Tables, id: Id) {
    id in t.tasks && !Terminal(t.tasks[id].status)
  }

  /** The result insert, the guarded status update and the sibling cancel of a failed root. */
  function PersistOutcome(t: Tables, id: Id, snap: Task, candidate: Status,
                          payload: Option<string>, body: string): Tables {
    if Persists(t, id) then
      var (status, executions, nextRunAt) := CyclicalParams(candidate, snap, t.now);
      var write := WriteStatus(t, id, snap, candidate);
      var row := t.tasks[id];
      var retry := snap.kind == Cyclical && status == New && payload.Some?;
      var updated := t.(
        tasks := t.tasks[id := row.(status := write, updatedAt := t.now, currentExecutions := executions,
          nextRunAt := nextRunAt, payload := if retry then payload else row.payload)],
        results := t.results + [ResultRow(id, body)]);
      if RollsUp(snap, status) && write == Failed then CancelOpenSubtasks(updated, id) else updated
    else t
  }

  // ---- rows of one task ----------------------------------------------------

  function ResultsOf(results: seq<ResultRow>, id: Id): seq<string> {
    if results == [] then []
    else
      var rest := ResultsOf(results[..|results| - 1], id);
      if results[|results| - 1].task == id then rest + [results[|results| - 1].body] else rest
  }

  predicate SameStatics(a: Task, b: Task) {
    && a.scenario == b.scenario && a.source == b.source && a.kind == b.kind
    && a.interval == b.interval && a.maxExecutions == b.maxExecutions && a.isBlock == b.isBlock && a.parent == b.parent
  }
}
