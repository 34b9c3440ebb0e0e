/**
 `PostgresTaskStorage` and `PostgresTaskRepository` as objects. Every storage method is one
 transaction on the tables; every repository method is a coroutine run without interruption.
 */
module TaskStorage {
  import opened Common
  import opened TaskTables
  import opened TaskMachine
  import opened PersistEffects
  import opened Claims

  // ---- the rows a lock statement takes --------------------------------------

  /** `ORDER BY id`. */
  function ById(): Claims.Order {
    (a: nat, b: nat) => a < b
  }

  lemma IdsLine(ids: set<Id>)
    ensures Lines(ById(), ids)
  {
  }

  /** `ORDER BY id LIMIT limit`. */
  function Lowest(ids: set<Id>, limit: nat): set<Id> {
    IdsLine(ids);
    Front(ById(), ids, limit)
  }

  /**
   With SKIP LOCKED, the claims a lock statement can return are exactly the sets of at most
   `limit` eligible rows: each one is the answer for some set of rows locked by others.
   */
  lemma ClaimsAreBoundedSubsets(eligible: set<Id>, limit: nat, claimed: set<Id>)
    ensures claimed <= eligible && |claimed| <= limit
            <==> exists locked: set<Id> :: Lowest(eligible - locked, limit) == claimed
  {
    forall locked: set<Id> ensures Lowest(eligible - locked, limit) <= eligible
                                && |Lowest(eligible - locked, limit)| <= limit {
      FrontIsFrontOf(ById(), eligible - locked, limit);
    }
    if claimed <= eligible && |claimed| <= limit {
      var locked := eligible - claimed;
      assert eligible - locked == claimed;
      FrontIsFrontOf(ById(), claimed, limit);
      SubsetOfSameSize(Lowest(claimed, limit), claimed);
      assert Lowest(eligible - locked, limit) == claimed;
    }
  }

  // ---- tallying child rows ---------------------------------------------------

  datatype ChildRow = ChildRow(status: Status, isBlock: bool)

  function CountRow(c: Counts, row: ChildRow): Counts {
    if !Terminal(row.status) then c.(pendingOpen := c.pendingOpen + 1)
    else if FailedChild(row.status) && row.isBlock then c.(failedBlocking := c.failedBlocking + 1)
    else if FailedChild(row.status) then c.(failedNonBlocking := c.failedNonBlocking + 1)
    else c
  }

  function CountRows(rows: seq<ChildRow>): Counts {
    if rows == [] then Counts(0, 0, 0)
    else CountRow(CountRows(rows[..|rows| - 1]), rows[|rows| - 1])
  }

  lemma CountOneMore(rows: seq<ChildRow>, row: ChildRow)
    ensures CountRows(rows + [row]) == CountRow(CountRows(rows), row)
  {
    assert (rows + [row])[..|rows|] == rows;
  }

  method ClassifyParentChildren(rows: seq<ChildRow>) returns (counts: Counts)
    ensures counts == CountRows(rows)
  {
    var pendingOpen, failedNonBlocking, failedBlocking := 0, 0, 0;
    for i := 0 to |rows|
      invariant Counts(pendingOpen, failedNonBlocking, failedBlocking) == CountRows(rows[..i])
    {
      assert rows[..i + 1][..i] == rows[..i];
      if !Terminal(rows[i].status) {
        pendingOpen := pendingOpen + 1;
      } else if FailedChild(rows[i].status) && rows[i].isBlock {
        failedBlocking := failedBlocking + 1;
      } else if FailedChild(rows[i].status) {
        failedNonBlocking := failedNonBlocking + 1;
      }
    }
    assert rows[..|rows|] == rows;
    counts := Counts(pendingOpen, failedNonBlocking, failedBlocking);
  }

  /**
   Whom the lock statement is meant to take, in the columns' own terms: a row that is not deleted, of an active
   scenario, under an enabled worker, and either NEW, due and with a name, or in flight and unseen for longer than
   the timeout.
   */
  predicate Takes(now: int, zombie: int, flags: Flags, row: Task) {
    && !row.deleted && flags.workerEnabled && row.scenario in flags.activeScenarios
    && match row.status
       case New => (row.nextRunAt == None || row.nextRunAt.value <= now) && exists c :: c in row.scenario && c != ' '
       case Queued | Running => now - (if row.heartbeat == None then row.updatedAt else row.heartbeat.value) > zombie
       case _ => false
  }

  lemma RunnableIff(now: int, zombie: int, flags: Flags, row: Task)
    ensures Runnable(now, zombie, flags, row) <==> Takes(now, zombie, flags, row)
  {
  }

  lemma TakesExactly(t: Tables, zombie: int, flags: Flags, locked: set<Id>, limit: nat, claimed: set<Id>)
    requires FrontOf(ById(), RunnableIds(t, zombie, flags) - locked, limit, claimed)
    ensures forall id :: id in claimed ==> id in t.tasks && id !in locked && Takes(t.now, zombie, flags, t.tasks[id])
    ensures |claimed| < limit ==>
              forall id :: id in t.tasks && id !in locked && Takes(t.now, zombie, flags, t.tasks[id]) ==> id in claimed
  {
    var eligible := RunnableIds(t, zombie, flags) - locked;
    forall id | id in t.tasks
      ensures Runnable(t.now, zombie, flags, t.tasks[id]) <==> Takes(t.now, zombie, flags, t.tasks[id])
    {
      RunnableIff(t.now, zombie, flags, t.tasks[id]);
    }
    if |claimed| < limit {
      ShortFrontTakesAll(ById(), eligible, limit, claimed);
    }
  }

  /** The returned rows are the claimed ones as they now stand, QUEUED and seen just now; no other row changed. */
  predicate LockedRows(t: Tables, t': Tables, rows: map<Id, Task>) {
    && t'.now == t.now && t'.results == t.results && t'.tasks.Keys == t.tasks.Keys && rows.Keys <= t.tasks.Keys
    && (forall id :: id in rows ==>
          && t'.tasks[id] == rows[id]
          && rows[id] == t.tasks[id].(status := Queued, updatedAt := t.now, heartbeat := Some(t.now)))
    && (forall id :: id in t.tasks && id !in rows ==> t'.tasks[id] == t.tasks[id])
  }

  lemma LockedRowsAre(t: Tables, t': Tables, rows: map<Id, Task>)
    requires LockedRows(t, t', rows)
    ensures t' == LockTasks(t, rows.Keys)
  {
    assert t'.tasks == LockTasks(t, rows.Keys).tasks;
  }

  /** Exactly the live NEW, QUEUED and RUNNING children of `parent` became CANCELLED, and none is left. */
  predicate OpenCancelled(t: Tables, t': Tables, parent: Id) {
    && t'.now == t.now && t'.results == t.results && t'.tasks.Keys == t.tasks.Keys
    && (forall id :: id in t.tasks && LiveChild(t, parent, id) && t.tasks[id].status in {New, Queued, Running} ==>
          t'.tasks[id] == t.tasks[id].(status := Cancelled, updatedAt := t.now))
    && (forall id :: id in t.tasks && !(LiveChild(t, parent, id) && t.tasks[id].status in {New, Queued, Running}) ==>
          t'.tasks[id] == t.tasks[id])
  }

  lemma OpenCancelledIs(t: Tables, t': Tables, parent: Id)
    requires OpenCancelled(t, t', parent)
    ensures t' == CancelOpenSubtasks(t, parent)
    ensures forall id :: LiveChild(t', parent, id) ==> t'.tasks[id].status !in {New, Queued, Running}
  {
    assert t'.tasks == CancelOpenSubtasks(t, parent).tasks;
  }

  class PostgresTaskStorage {
    var now: int
    var tasks: map<Id, Task>
    var results: seq<ResultRow>

    function View(): Tables
      reads this
    {
      Tables(now, tasks, results)
    }

    constructor ()
      ensures View() == Tables(0, map[], [])
    {
      now, tasks, results := 0, map[], [];
    }

    /** `locked` are the rows other transactions hold at this moment. */
    method LockRunnableTasks(limit: nat, zombie: int, flags: Flags, locked: set<Id>) returns (rows: map<Id, Task>)
      modifies this
      ensures FrontOf(ById(), RunnableIds(old(View()), zombie, flags) - locked, limit, rows.Keys)
      ensures LockedRows(old(View()), View(), rows)
      ensures View() == LockTasks(old(View()), rows.Keys)
      ensures forall id :: id in rows ==>
                id in old(tasks) && id !in locked && Takes(old(now), zombie, flags, old(tasks)[id])
      ensures |rows| < limit ==>
                forall id :: id in old(tasks) && id !in locked && Takes(old(now), zombie, flags, old(tasks)[id]) ==>
                  id in rows
    {
      var eligible := RunnableIds(View(), zombie, flags) - locked;
      var claimed := Lowest(eligible, limit);
      IdsLine(eligible);
      FrontIsFrontOf(ById(), eligible, limit);
      TakesExactly(View(), zombie, flags, locked, limit, claimed);
      rows := UpdateClaimed(claimed);
    }

    /** `UPDATE ... WHERE id IN (claimed) RETURNING *`. */
    method UpdateClaimed(claimed: set<Id>) returns (rows: map<Id, Task>)
      requires claimed <= tasks.Keys
      modifies this
      ensures rows.Keys == claimed && LockedRows(old(View()), View(), rows)
      ensures View() == LockTasks(old(View()), claimed)
    {
      rows := map id | id in claimed :: tasks[id].(status := Queued, updatedAt := now, heartbeat := Some(now));
      tasks := tasks + rows;
      LockedRowsAre(old(View()), View(), rows);
    }

    method SetTaskRunning(id: Id, alias: Option<string>) returns (started: bool)
      modifies this
      ensures started <==> id in old(tasks) && old(tasks)[id].status == Queued
      ensures View() == SetRunning(old(View()), id, alias)
      ensures now == old(now) && results == old(results)
      ensures !started ==> tasks == old(tasks)
      ensures started ==>
                var kept := alias == None || alias == Some("");
                tasks == old(tasks)[id := old(tasks)[id].(
                  status := Running, updatedAt := now, heartbeat := Some(now),
                  alias := if kept then old(tasks)[id].alias else alias)]
    {
      started := id in tasks && tasks[id].status == Queued;
      if started {
        var row := tasks[id].(status := Running, updatedAt := now, heartbeat := Some(now));
        if alias.Some? && alias.value != "" {
          row := row.(alias := alias);
        }
        tasks := tasks[id := row];
      }
    }

    method TouchHeartbeatsOf(ids: set<Id>)
      modifies this
      ensures View() == TouchHeartbeats(old(View()), ids)
      ensures now == old(now) && results == old(results) && tasks.Keys == old(tasks).Keys
      ensures forall id :: id in tasks ==>
                tasks[id] == if id in ids && old(tasks)[id].status in {Queued, Running}
                             then old(tasks)[id].(heartbeat := Some(now), updatedAt := now)
                             else old(tasks)[id]
    {
      if ids == {} {
        assert tasks == TouchHeartbeats(View(), {}).tasks;
        return;
      }
      tasks := map id | id in tasks ::
        if id in ids && InFlight(tasks[id].status)
        then tasks[id].(heartbeat := Some(now), updatedAt := now)
        else tasks[id];
    }

    method FailParent(parent: Id) returns (updated: bool)
      modifies this
      ensures updated <==> parent in old(tasks) && old(tasks)[parent].status == Waiting
      ensures View() == FailWaitingParent(old(View()), parent)
      ensures now == old(now) && results == old(results)
      ensures tasks == if updated then old(tasks)[parent := old(tasks)[parent].(status := Failed, updatedAt := now)]
                       else old(tasks)
    {
      updated := parent in tasks && tasks[parent].status == Waiting;
      if updated {
        tasks := tasks[parent := tasks[parent].(status := Failed, updatedAt := now)];
      }
    }

    /** A verdict that is no success is the source's `ValueError`. */
    method CloseParent(parent: Id, verdict: Status) returns (r: Result<bool, string>)
      modifies this
      ensures r.Err? <==> verdict !in {Finished, FinishedWithError}
      ensures r.Err? ==> View() == old(View())
      ensures r.Ok? ==> (r.value <==> parent in old(tasks) && old(tasks)[parent].status == Waiting)
      ensures r.Ok? ==> View() == CloseWaitingParent(old(View()), parent, verdict)
      ensures now == old(now) && results == old(results)
      ensures r == Ok(true) ==> tasks == old(tasks)[parent := old(tasks)[parent].(status := verdict, updatedAt := now)]
      ensures r == Ok(false) ==> tasks == old(tasks)
    {
      if verdict !in {Finished, FinishedWithError} {
        return Err("close_waiting_parent status must be FINISHED or FINISHED_WITH_ERROR");
      }
      var updated := parent in tasks && tasks[parent].status == Waiting;
      if updated {
        tasks := tasks[parent := tasks[parent].(status := verdict, updatedAt := now)];
      }
      r := Ok(updated);
    }

    method RequeueIncompleteTasks(ids: set<Id>) returns (updated: nat)
      modifies this
      ensures updated == |set id | id in ids && id in old(tasks) && !Terminal(old(tasks)[id].status)|
      ensures View() == RequeueIncomplete(old(View()), ids)
      ensures now == old(now) && results == old(results) && tasks.Keys == old(tasks).Keys
      ensures forall id :: id in tasks ==>
                tasks[id] == if id in ids && old(tasks)[id].status !in {Finished, FinishedWithError, Cancelled, Failed}
                             then old(tasks)[id].(status := New, updatedAt := now, heartbeat := None)
                             else old(tasks)[id]
    {
      var hit := set id | id in ids && id in tasks && !Terminal(tasks[id].status);
      tasks := map id | id in tasks ::
        if id in hit then tasks[id].(status := New, updatedAt := now, heartbeat := None) else tasks[id];
      updated := |hit|;
    }

    method CancelSubtasks(parent: Id)
      modifies this
      ensures OpenCancelled(old(View()), View(), parent)
      ensures View() == CancelOpenSubtasks(old(View()), parent)
    {
      var open := set id | id in tasks && tasks[id].parent == Some(parent) && !tasks[id].deleted
                           && tasks[id].status in {New, Queued, Running};
      tasks := tasks + map id | id in open :: tasks[id].(status := Cancelled, updatedAt := now);
      OpenCancelledIs(old(View()), View(), parent);
    }

    /** The child rows, in whatever order the database returns them. */
    method SelectLiveChildren(parent: Id) returns (rows: seq<ChildRow>)
      ensures CountRows(rows) == CountSubtasks(View(), parent)
    {
      var left := LiveChildren(View(), parent);
      rows := [];
      TallyBounds(View(), parent);
      while left != {}
        invariant left <= LiveChildren(View(), parent)
        invariant CountRows(rows) == TallyWithout(View(), parent, left)
      {
        var c :| c in left;
        TallyGrows(View(), parent, left, c);
        CountOneMore(rows, ChildRow(tasks[c].status, tasks[c].isBlock));
        rows, left := rows + [ChildRow(tasks[c].status, tasks[c].isBlock)], left - {c};
      }
    }

    method CountParentSubtasksState(parent: Id) returns (counts: Counts)
      ensures counts == CountSubtasks(View(), parent)
    {
      var rows := SelectLiveChildren(parent);
      counts := ClassifyParentChildren(rows);
    }

    /** `status`, `executions` and `nextRunAt` come from the cyclical rewrite of the caller. */
    method InsertResultAndUpdateTask(id: Id, body: string, status: Status, executions: int, nextRunAt: Option<int>,
                                     payload: Option<string>, rollupParent: bool) returns (updated: bool)
      modifies this
      ensures updated <==> Persists(old(View()), id)
      ensures forall snap, candidate, draft ::
                && CyclicalParams(candidate, snap, old(now)) == (status, executions, nextRunAt)
                && rollupParent == RollsUp(snap, status)
                && payload == RetryPayload(snap, status, draft)
                ==> View() == PersistOutcome(old(View()), id, snap, candidate, draft, body)
      ensures updated <==>
                id in old(tasks) && old(tasks)[id].status !in {Finished, FinishedWithError, Cancelled, Failed}
      ensures !updated ==> View() == old(View())
      ensures updated ==> id in tasks && results == old(results) + [ResultRow(id, body)]
      ensures updated && !(rollupParent && status == Finished) ==> tasks[id].status == status
      ensures updated && rollupParent && status == Finished ==> VerdictByChildren(old(View()), id, tasks[id].status)
    {
      TalliesGiveVerdict(View(), id);
      var write, cancelChildren := status, false;
      if rollupParent && status == Finished {
        var counts := CountParentSubtasksState(id);
        write := StatusForSuccessfulRoot(counts);
        cancelChildren := write == Failed;
      }
      updated := id in tasks && !Terminal(tasks[id].status);
      if !updated { return; }
      var row := tasks[id].(status := write, updatedAt := now, currentExecutions := executions, nextRunAt := nextRunAt);
      if payload.Some? {
        row := row.(payload := payload);
      }
      tasks := tasks[id := row];
      results := results + [ResultRow(id, body)];
      if cancelChildren {
        CancelSubtasks(id);
      }
    }
  }

  function LiveChildren(t: Tables, parent: Id): set<Id> {
    set c | c in t.tasks && LiveChild(t, parent, c)
  }

  /** The tallies over the children that are not in `left`. */
  function TallyWithout(t: Tables, parent: Id, left: set<Id>): Counts {
    Counts(|PendingChildren(t, parent) - left|, |FailedChildren(t, parent, false) - left|,
           |FailedChildren(t, parent, true) - left|)
  }

  lemma TallyBounds(t: Tables, parent: Id)
    ensures TallyWithout(t, parent, {}) == CountSubtasks(t, parent)
    ensures TallyWithout(t, parent, LiveChildren(t, parent)) == Counts(0, 0, 0)
  {
    var all := LiveChildren(t, parent);
    var pending, other, blocking :=
      PendingChildren(t, parent), FailedChildren(t, parent, false), FailedChildren(t, parent, true);
    assert pending - {} == pending && other - {} == other && blocking - {} == blocking;
    assert pending - all == {} && other - all == {} && blocking - all == {};
  }

  lemma TallyGrows(t: Tables, parent: Id, left: set<Id>, c: Id)
    requires c in left && left <= LiveChildren(t, parent)
    ensures TallyWithout(t, parent, left - {c})
         == CountRow(TallyWithout(t, parent, left), ChildRow(t.tasks[c].status, t.tasks[c].isBlock))
  {
    RestGrows(PendingChildren(t, parent), left, c);
    RestGrows(FailedChildren(t, parent, false), left, c);
    RestGrows(FailedChildren(t, parent, true), left, c);
  }

  lemma RestGrows(s: set<Id>, left: set<Id>, c: Id)
    requires c in left
    ensures |s - (left - {c})| == |s - left| + (if c in s then 1 else 0)
  {
    if c in s {
      assert s - (left - {c}) == (s - left) + {c};
    } else {
      assert s - (left - {c}) == s - left;
    }
  }

  /** `_payload_for_retry`. */
  function RetryPayload(snap: Task, status: Status, payload: Option<string>): Option<string> {
    if snap.kind == Cyclical && status == New then payload else None
  }

  // ---- coroutines, uninterrupted ---------------------------------------------

  function StepsLeft(phase: Option<Phase>): nat {
    match phase
    case None => 0
    case Some(Counting(_)) => 3
    case Some(FailingParent(_)) => 2
    case Some(_) => 1
  }

  /** A parent handler run to its end with no other transaction in between. */
  function Settle(t: Tables, parent: Id, phase: Option<Phase>): Tables
    decreases StepsLeft(phase)
  {
    if phase.None? then t
    else Settle(HandlerTransaction(t, parent, phase.value), parent, AfterHandler(t, parent, phase.value))
  }

  /** A persist and, for a child, the handler that follows it. */
  function PersistAndSettle(t: Tables, id: Id, snap: Task, candidate: Status, payload: Option<string>, body: string)
    : Tables
  {
    var t' := PersistOutcome(t, id, snap, candidate, payload, body);
    if Persists(t, id) && snap.parent.Some?
    then Settle(t', snap.parent.value, AfterPersist(snap, CyclicalParams(candidate, snap, t.now).0))
    else t'
  }

  class PostgresTaskRepository {
    const storage: PostgresTaskStorage

    constructor (storage: PostgresTaskStorage)
      ensures this.storage == storage
    {
      this.storage := storage;
    }

    method HandleSubtaskFailure(snap: Task)
      modifies storage
      ensures snap.parent.None? ==> storage.View() == old(storage.View())
      ensures snap.parent.Some? ==>
                storage.View() == Settle(old(storage.View()), snap.parent.value, AfterPersist(snap, Failed))
    {
      if snap.parent.None? {
        return;
      }
      var parent := snap.parent.value;
      if snap.isBlock {
        var _ := storage.FailParent(parent);
        storage.CancelSubtasks(parent);
        return;
      }
      var counts := storage.CountParentSubtasksState(parent);
      if counts.pendingOpen > 0 {
        return;
      }
      if counts.failedBlocking > 0 {
        var _ := storage.FailParent(parent);
        return;
      }
      if counts.failedNonBlocking > 0 {
        var _ := storage.CloseParent(parent, FinishedWithError);
      }
    }

    method HandleSubtaskFinished(snap: Task)
      modifies storage
      ensures snap.parent.None? ==> storage.View() == old(storage.View())
      ensures snap.parent.Some? ==>
                storage.View() == Settle(old(storage.View()), snap.parent.value, AfterPersist(snap, Finished))
    {
      if snap.parent.None? {
        return;
      }
      var parent := snap.parent.value;
      var counts := storage.CountParentSubtasksState(parent);
      if counts.pendingOpen > 0 {
        return;
      }
      if counts.failedBlocking > 0 {
        var _ := storage.FailParent(parent);
        return;
      }
      var _ := storage.CloseParent(parent, if counts.failedNonBlocking > 0 then FinishedWithError else Finished);
    }

    method PersistTaskWithStatus(id: Id, snap: Task, candidate: Status, payload: Option<string>, body: string)
      modifies storage
      ensures storage.View() == PersistAndSettle(old(storage.View()), id, snap, candidate, payload, body)
    {
      var (status, executions, nextRunAt) := CyclicalParams(candidate, snap, storage.now);
      var rollupParent := snap.parent.None? && status == Finished;
      var retry := RetryPayload(snap, status, payload);
      var updated := storage.InsertResultAndUpdateTask(id, body, status, executions, nextRunAt, retry, rollupParent);
      assert storage.View() == PersistOutcome(old(storage.View()), id, snap, candidate, payload, body);
      if updated && snap.parent.Some? {
        if status == Failed {
          HandleSubtaskFailure(snap);
        } else if status == Finished {
          HandleSubtaskFinished(snap);
        }
      }
    }
  }

  /** The uninterrupted handler is one of the machine's runs: its own transactions, one after the other. */
  lemma {:induction false} SettleIsARun(s: State, key: Key) returns (steps: seq<Step>)
    requires key in s.jobs && InHandler(s.jobs[key].phase) && s.jobs[key].snap.parent.Some?
    ensures IsRun(UNRESTRICTED, s, steps)
    ensures var s' := Exec(UNRESTRICTED, s, steps);
            && s'.t == Settle(s.t, s.jobs[key].snap.parent.value, Some(s.jobs[key].phase))
            && s'.jobs == s.jobs - {key} && s'.batches == s.batches
    decreases StepsLeft(Some(s.jobs[key].phase))
  {
    var parent, phase := s.jobs[key].snap.parent.value, s.jobs[key].phase;
    var s1 := Apply(s, Handle(key));
    var rest: seq<Step> := [];
    if AfterHandler(s.t, parent, phase).Some? {
      rest := SettleIsARun(s1, key);
      assert s1.jobs - {key} == s.jobs - {key};
    }
    steps := [Handle(key)] + rest;
    assert steps[1..] == rest;
  }

  /** What an uninterrupted completion of a child leaves its WAITING parent as; `ok`: the child finished. */
  function CompletionVerdict(counts: Counts, ok: bool): Status {
    if counts.pendingOpen > 0 then Waiting
    else if counts.failedBlocking > 0 then Failed
    else if counts.failedNonBlocking > 0 then FinishedWithError
    else if ok then Finished
    else Waiting
  }

  /**
   The table of child completions: only a WAITING parent moves, a finished or non-blocking failed
   child moves it by the tallies, a blocking failure fails it and cancels every open sibling.
   */
  lemma CompletionTable(t: Tables, parent: Id, phase: Phase)
    requires parent in t.tasks && (phase == FailingParent(true) || phase.Counting?)
    requires t.tasks[parent].parent != Some(parent)
    ensures var t' := Settle(t, parent, Some(phase));
            && t'.tasks.Keys == t.tasks.Keys
            && (t.tasks[parent].status != Waiting ==> t'.tasks[parent].status == t.tasks[parent].status)
            && (t.tasks[parent].status == Waiting && phase.Counting? ==>
                  t'.tasks[parent].status == CompletionVerdict(CountSubtasks(t, parent), phase.ok))
            && (t.tasks[parent].status == Waiting && phase == FailingParent(true) ==> t'.tasks[parent].status == Failed)
            && (phase == FailingParent(true) ==>
                  forall c :: LiveChild(t, parent, c) ==>
                    t'.tasks[c].status == if Cancellable(t.tasks[c].status) then Cancelled else t.tasks[c].status)
            && (phase.Counting? ==> forall c :: c in t.tasks && c != parent ==> t'.tasks[c] == t.tasks[c])
  {
    if phase == FailingParent(true) {
      var t1 := FailWaitingParent(t, parent);
      assert Settle(t, parent, Some(phase)) == CancelOpenSubtasks(t1, parent);
      forall c | LiveChild(t, parent, c) ensures LiveChild(t1, parent, c) && t1.tasks[c] == t.tasks[c] {}
    } else {
      CountingSettles(t, parent, phase);
    }
  }

  function CountedOutcome(t: Tables, parent: Id, counts: Counts, ok: bool): Tables {
    if counts.pendingOpen > 0 then t
    else if counts.failedBlocking > 0 then FailWaitingParent(t, parent)
    else if counts.failedNonBlocking > 0 then CloseWaitingParent(t, parent, FinishedWithError)
    else if ok then CloseWaitingParent(t, parent, Finished)
    else t
  }

  lemma CountingSettles(t: Tables, parent: Id, phase: Phase)
    requires phase.Counting?
    ensures Settle(t, parent, Some(phase)) == CountedOutcome(t, parent, CountSubtasks(t, parent), phase.ok)
  {
    var next := AfterHandler(t, parent, phase);
    assert Settle(t, parent, Some(phase)) == Settle(t, parent, next);
    if next.Some? {
      assert AfterHandler(t, parent, next.value) == None;
      assert Settle(t, parent, next) == Settle(HandlerTransaction(t, parent, next.value), parent, None);
    }
  }
}
