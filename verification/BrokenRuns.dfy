/** Concrete runs showing that the restrictions on runs cannot be dropped. */
module BrokenRuns {
  import opened Common
  import opened TaskTables
  import opened TaskMachine
  import opened WakeupSafety
  import opened RollupSafety
  import opened ExecutionBounds

  lemma {:induction false} AppendStep(d: Discipline, s: State, steps: seq<Step>, step: Step)
    requires IsRun(d, s, steps) && Enabled(Exec(d, s, steps), step) && Obeys(d, Exec(d, s, steps), step)
    ensures IsRun(d, s, steps + [step])
    ensures Exec(d, s, steps + [step]) == Apply(Exec(d, s, steps), step)
    decreases |steps|
  {
    if steps == [] {
      assert [step][1..] == [];
    } else {
      assert (steps + [step])[0] == steps[0] && (steps + [step])[1..] == steps[1..] + [step];
      AppendStep(d, Apply(s, steps[0]), steps[1..], step);
    }
  }

  ghost predicate Reaches(d: Discipline, s: State) {
    exists steps :: IsRun(d, INIT, steps) && Exec(d, INIT, steps) == s
  }

  lemma ReachesInit(d: Discipline)
    ensures Reaches(d, INIT)
  {
    assert IsRun(d, INIT, []) && Exec(d, INIT, []) == INIT;
  }

  lemma ReachesNext(d: Discipline, s: State, step: Step)
    requires Reaches(d, s) && Enabled(s, step) && Obeys(d, s, step)
    ensures Reaches(d, Apply(s, step))
  {
    var steps :| IsRun(d, INIT, steps) && Exec(d, INIT, steps) == s;
    AppendStep(d, INIT, steps, step);
  }

  const ON := Flags(true, {"demo"})

  function Row(kind: Kind, cap: Option<int>, parent: Option<Id>, block: bool): Task {
    Task("demo", New, Inner, kind, 1, cap, 0, None, None, 0, block, parent, None, None, false)
  }

  function QueuedAt(row: Task, now: int): Task {
    row.(status := Queued, updatedAt := now, heartbeat := Some(now))
  }

  lemma DemoIsRunnable()
    ensures !Blank("demo")
  {
    assert "demo"[0] in "demo";
  }

  /** Root 0 with child 1 and an unrelated task 2; worker 0 has locked 0 and 2. */
  function Family(kind: Kind, cap: Option<int>): State {
    var root, child := Row(kind, cap, None, false), Row(Linear, None, Some(0), false);
    var other := Row(Linear, None, None, false);
    State(Tables(0, map[0 := QueuedAt(root, 0), 1 := child, 2 := QueuedAt(other, 0)], []),
          map[Key(0, 0) := Job(QueuedAt(root, 0), Locked), Key(0, 2) := Job(QueuedAt(other, 0), Locked)],
          map[0 := Batch({0, 2}, false)])
  }

  lemma LockSome(d: Discipline, s: State, batch: nat, ids: set<Id>, zombie: int) returns (s': State)
    requires Reaches(d, s) && batch !in s.batches && ids <= RunnableIds(s.t, zombie, ON)
    requires d.lease.Some? ==> zombie >= d.lease.value
    ensures Reaches(d, s')
    ensures var t := LockTasks(s.t, ids);
            s' == State(t, s.jobs + NewJobs(batch, ids, t), s.batches[batch := Batch(ids, false)])
  {
    var lock := Lock(batch, ids, |ids|, zombie, ON);
    ReachesNext(d, s, lock);
    s' := Apply(s, lock);
  }

  lemma IdleIsRunnable(t: Tables, ids: set<Id>)
    requires ids <= t.tasks.Keys && forall id :: id in ids ==> Idle(t.tasks[id])
    ensures ids <= RunnableIds(t, 0, ON)
  {
    DemoIsRunnable();
    forall id | id in ids ensures id in RunnableIds(t, 0, ON) {
      assert Idle(t.tasks[id]);
    }
  }

  lemma LockedRowIs(t: Tables, ids: set<Id>, id: Id)
    requires id in t.tasks && id in ids
    ensures LockTasks(t, ids).tasks[id] == QueuedAt(t.tasks[id], t.now)
  {
  }

  lemma NewJobsAre(batch: nat, ids: set<Id>, t: Tables)
    requires ids <= t.tasks.Keys
    ensures forall k :: k in NewJobs(batch, ids, t) <==> k.batch == batch && k.task in ids
    ensures forall k :: k in NewJobs(batch, ids, t) ==> NewJobs(batch, ids, t)[k] == Job(t.tasks[k.task], Locked)
  {
    forall k: Key | k.batch == batch && k.task in ids ensures k in NewJobs(batch, ids, t) {
      assert k == Key(batch, k.task);
    }
  }

  lemma LockedTasks(t: Tables, id: Id)
    requires id in t.tasks
    ensures LockTasks(t, {id}).tasks == t.tasks[id := QueuedAt(t.tasks[id], t.now)]
  {
  }

  lemma LockedOne(s: State, batch: nat, id: Id)
    requires id in s.t.tasks
    ensures LockTasks(s.t, {id}).tasks == s.t.tasks[id := QueuedAt(s.t.tasks[id], s.t.now)]
    ensures s.jobs + NewJobs(batch, {id}, LockTasks(s.t, {id}))
         == s.jobs[Key(batch, id) := Job(QueuedAt(s.t.tasks[id], s.t.now), Locked)]
  {
    LockedTasks(s.t, id);
    LockedRowIs(s.t, {id}, id);
    NewJobsAre(batch, {id}, LockTasks(s.t, {id}));
  }

  lemma LockedTwo(s: State, batch: nat, a: Id, b: Id)
    requires a in s.t.tasks && b in s.t.tasks
    ensures LockTasks(s.t, {a, b}).tasks
         == s.t.tasks[a := QueuedAt(s.t.tasks[a], s.t.now)][b := QueuedAt(s.t.tasks[b], s.t.now)]
    ensures s.jobs + NewJobs(batch, {a, b}, LockTasks(s.t, {a, b}))
         == s.jobs[Key(batch, a) := Job(QueuedAt(s.t.tasks[a], s.t.now), Locked)]
                  [Key(batch, b) := Job(QueuedAt(s.t.tasks[b], s.t.now), Locked)]
  {
    LockedRowIs(s.t, {a, b}, a);
    LockedRowIs(s.t, {a, b}, b);
    NewJobsAre(batch, {a, b}, LockTasks(s.t, {a, b}));
  }

  lemma LockOne(d: Discipline, s: State, batch: nat, id: Id) returns (s': State)
    requires Reaches(d, s) && d.lease.None? && batch !in s.batches && id in s.t.tasks && Idle(s.t.tasks[id])
    ensures Reaches(d, s')
    ensures s' == State(s.t.(tasks := s.t.tasks[id := QueuedAt(s.t.tasks[id], s.t.now)]),
                        s.jobs[Key(batch, id) := Job(QueuedAt(s.t.tasks[id], s.t.now), Locked)],
                        s.batches[batch := Batch({id}, false)])
  {
    IdleIsRunnable(s.t, {id});
    s' := LockSome(d, s, batch, {id}, 0);
    LockedOne(s, batch, id);
  }

  lemma LockTwo(d: Discipline, s: State, batch: nat, a: Id, b: Id) returns (s': State)
    requires Reaches(d, s) && d.lease.None? && batch !in s.batches
    requires a in s.t.tasks && Idle(s.t.tasks[a]) && b in s.t.tasks && Idle(s.t.tasks[b])
    ensures Reaches(d, s')
    ensures s' == State(s.t.(tasks := s.t.tasks[a := QueuedAt(s.t.tasks[a], s.t.now)]
                                               [b := QueuedAt(s.t.tasks[b], s.t.now)]),
                        s.jobs[Key(batch, a) := Job(QueuedAt(s.t.tasks[a], s.t.now), Locked)]
                              [Key(batch, b) := Job(QueuedAt(s.t.tasks[b], s.t.now), Locked)],
                        s.batches[batch := Batch({a, b}, false)])
  {
    IdleIsRunnable(s.t, {a, b});
    s' := LockSome(d, s, batch, {a, b}, 0);
    LockedTwo(s, batch, a, b);
  }

  lemma PersistOne(d: Discipline, s: State, key: Key, candidate: Status) returns (s': State)
    requires Reaches(d, s) && key in s.jobs && Persists(s.t, key.task)
    requires if s.jobs[key].phase.Started? then candidate in {Finished, Failed}
             else s.jobs[key].phase.Erroring? && candidate == Cancelled && !d.noOwnCancel
    ensures Reaches(d, s')
    ensures var snap := s.jobs[key].snap;
            s' == State(PersistOutcome(s.t, key.task, snap, candidate, None, "ok"),
                        Proceed(s.jobs, key, AfterPersist(snap, CyclicalParams(candidate, snap, s.t.now).0)), s.batches)
  {
    var persist := Persist(key, candidate, None, "ok");
    ReachesNext(d, s, persist);
    s' := Apply(s, persist);
  }

  lemma StopThenDrain(d: Discipline, s: State, batch: nat) returns (s': State)
    requires Reaches(d, s) && d == UNRESTRICTED && batch in s.batches && Alive(s, batch)
    ensures Reaches(d, s')
    ensures s'.t == RequeueIncomplete(s.t, s.batches[batch].ids) && s'.jobs == WithoutBatch(s.jobs, batch)
    ensures s'.batches.Keys == s.batches.Keys
  {
    ReachesNext(d, s, Stop(batch));
    var s1 := Apply(s, Stop(batch));
    assert !Alive(s1, batch);
    ReachesNext(d, s1, Drain(batch));
    s' := Apply(s1, Drain(batch));
  }

  predicate Idle(row: Task) {
    row.status == New && row.scenario == "demo" && row.nextRunAt.None? && !row.deleted
  }

  lemma StartOne(d: Discipline, s: State, key: Key) returns (s': State)
    requires Reaches(d, s) && key in s.jobs && s.jobs[key].phase.Locked? && s.jobs[key].snap.alias.None?
    requires key.task in s.t.tasks && s.t.tasks[key.task].status == Queued
    ensures Reaches(d, s')
    ensures s' == s.(t := s.t.(tasks := s.t.tasks[key.task := StartedAt(s.t.tasks[key.task], s.t.now)]),
                     jobs := s.jobs[key := s.jobs[key].(phase := Started)])
  {
    ReachesNext(d, s, Start(key));
    s' := Apply(s, Start(key));
  }

  function StartedAt(row: Task, now: int): Task {
    row.(status := Running, updatedAt := now, heartbeat := Some(now))
  }

  lemma InsertOne(d: Discipline, s: State, id: Id, kind: Kind, cap: Option<int>, parent: Option<Id>) returns (s': State)
    requires Reaches(d, s) && !d.guardedInsert && id !in s.t.tasks && s.t.now == 0
    requires parent.Some? ==> parent.value in s.t.tasks
    ensures Reaches(d, s') && s' == s.(t := s.t.(tasks := s.t.tasks[id := Row(kind, cap, parent, false)]))
  {
    var row := Row(kind, cap, parent, false);
    ReachesNext(d, s, Insert(id, row));
    s' := Apply(s, Insert(id, row));
  }

  lemma FamilyInserted(d: Discipline, kind: Kind, cap: Option<int>) returns (s: State)
    requires !d.guardedInsert
    ensures Reaches(d, s)
    ensures s == State(Tables(0, map[0 := Row(kind, cap, None, false), 1 := Row(Linear, None, Some(0), false),
                                     2 := Row(Linear, None, None, false)], []), map[], map[])
  {
    ReachesInit(d);
    s := InsertOne(d, INIT, 0, kind, cap, None);
    s := InsertOne(d, s, 1, Linear, None, Some(0));
    s := InsertOne(d, s, 2, Linear, None, None);
  }

  lemma FamilyReached(d: Discipline, kind: Kind, cap: Option<int>)
    requires d.lease.None? && !d.guardedInsert
    ensures Reaches(d, Family(kind, cap))
  {
    var s := FamilyInserted(d, kind, cap);
    var s' := LockTwo(d, s, 0, 0, 2);
    FamilyLocked(s, s', kind, cap);
  }

  lemma FamilyLocked(s: State, s': State, kind: Kind, cap: Option<int>)
    requires s.t == Tables(0, map[0 := Row(kind, cap, None, false), 1 := Row(Linear, None, Some(0), false),
                                  2 := Row(Linear, None, None, false)], []) && s.jobs == map[]
    requires s'.t == s.t.(tasks := s.t.tasks[0 := QueuedAt(s.t.tasks[0], 0)][2 := QueuedAt(s.t.tasks[2], 0)])
    requires s'.jobs == s.jobs[Key(0, 0) := Job(QueuedAt(s.t.tasks[0], 0), Locked)]
                              [Key(0, 2) := Job(QueuedAt(s.t.tasks[2], 0), Locked)]
    requires s'.batches == map[0 := Batch({0, 2}, false)]
    ensures s' == Family(kind, cap)
  {
    assert s'.t.tasks == Family(kind, cap).t.tasks;
    assert s'.jobs == Family(kind, cap).jobs;
  }

  /** The same family once the root's own run succeeded and its one child is still open. */
  function WaitingFamily(kind: Kind, cap: Option<int>): State {
    var child, other := Row(Linear, None, Some(0), false), Row(Linear, None, None, false);
    var executions := if kind == Cyclical then 1 else 0;
    var root := QueuedAt(Row(kind, cap, None, false), 0).(status := Waiting, currentExecutions := executions);
    State(Tables(0, map[0 := root, 1 := child, 2 := QueuedAt(other, 0)], [ResultRow(0, "ok")]),
          map[Key(0, 2) := Job(QueuedAt(other, 0), Locked)],
          map[0 := Batch({0, 2}, false)])
  }

  lemma WaitingFamilyReached(d: Discipline, kind: Kind, cap: Option<int>)
    requires d.lease.None? && !d.guardedInsert && (kind == Cyclical ==> cap == Some(1))
    ensures Reaches(d, WaitingFamily(kind, cap))
  {
    var key := Key(0, 0);
    FamilyReached(d, kind, cap);
    var s := StartOne(d, Family(kind, cap), key);
    RootWaits(d, kind, cap, s);
  }

  lemma RootWaits(d: Discipline, kind: Kind, cap: Option<int>, s: State)
    requires Reaches(d, s) && (kind == Cyclical ==> cap == Some(1))
    requires var f := Family(kind, cap);
             s == f.(t := f.t.(tasks := f.t.tasks[0 := StartedAt(f.t.tasks[0], 0)]),
                     jobs := f.jobs[Key(0, 0) := f.jobs[Key(0, 0)].(phase := Started)])
    ensures Reaches(d, WaitingFamily(kind, cap))
  {
    var key := Key(0, 0);
    var s' := PersistOne(d, s, key, Finished);
    RootOutcome(kind, cap, s);
    assert s'.jobs == WaitingFamily(kind, cap).jobs;
  }

  lemma RootOutcome(kind: Kind, cap: Option<int>, s: State)
    requires kind == Cyclical ==> cap == Some(1)
    requires var f := Family(kind, cap);
             s == f.(t := f.t.(tasks := f.t.tasks[0 := StartedAt(f.t.tasks[0], 0)]),
                     jobs := f.jobs[Key(0, 0) := f.jobs[Key(0, 0)].(phase := Started)])
    ensures PersistOutcome(s.t, 0, s.jobs[Key(0, 0)].snap, Finished, None, "ok") == WaitingFamily(kind, cap).t
  {
    RootWrites(s.t, s.jobs[Key(0, 0)].snap);
    var t := PersistOutcome(s.t, 0, s.jobs[Key(0, 0)].snap, Finished, None, "ok");
    assert t.tasks == WaitingFamily(kind, cap).t.tasks;
  }

  lemma RootWrites(t: Tables, snap: Task)
    requires snap.parent.None?
    requires snap.kind == Cyclical ==> snap.maxExecutions == Some(1) && snap.currentExecutions == 0
    requires t.tasks.Keys == {0, 1, 2}
    requires t.tasks[1].parent == Some(0) && t.tasks[1].status == New && !t.tasks[1].deleted
    requires t.tasks[2].parent.None? && t.tasks[0].parent.None?
    ensures WriteStatus(t, 0, snap, Finished) == Waiting
  {
    assert PendingChild(t, 0, 1);
    CountsAreExistence(t, 0);
  }

  /**
   A root whose counter is at its cap while it waits is reopened by a drain and counts past
   the cap: `CapHoldsUnderStaleLeases` needs its restriction on roots.
   */
  lemma RootCanPassItsCap()
    ensures exists s :: Reaches(UNRESTRICTED, s) && 0 in s.t.tasks
                        && s.t.tasks[0].maxExecutions == Some(1) && s.t.tasks[0].currentExecutions == 2
  {
    var d, s := UNRESTRICTED, WaitingFamily(Cyclical, Some(1));
    WaitingFamilyReached(d, Cyclical, Some(1));
    assert Key(0, 2) in s.jobs && Alive(s, 0);
    var s1 := StopThenDrain(d, s, 0);
    assert s1.jobs == map[];
    RelockAndFinish(d, s1);
  }

  lemma RelockAndFinish(d: Discipline, s: State)
    requires Reaches(d, s) && d == UNRESTRICTED && s.jobs == map[] && s.batches.Keys == {0}
    requires 0 in s.t.tasks
    requires s.t.tasks[0] == Row(Cyclical, Some(1), None, false).(currentExecutions := 1)
    ensures exists s' :: Reaches(d, s') && 0 in s'.t.tasks
                         && s'.t.tasks[0].maxExecutions == Some(1) && s'.t.tasks[0].currentExecutions == 2
  {
    var key := Key(1, 0);
    var s1 := LockOne(d, s, 1, 0);
    var s2 := StartOne(d, s1, key);
    var s3 := PersistOne(d, s2, key, Finished);
    assert s3.t.tasks[0].currentExecutions == 2;
  }

  /** Child 1 of the waiting root, locked by worker 1 and started. */
  lemma ChildStarted(d: Discipline) returns (s: State)
    requires d.lease.None? && !d.guardedInsert
    ensures Reaches(d, s) && WaitingRow(s, 0) && Key(1, 1) in s.jobs && s.jobs[Key(1, 1)].phase == Started
    ensures s.jobs[Key(1, 1)].snap.parent == Some(0) && !s.jobs[Key(1, 1)].snap.isBlock
    ensures s.jobs[Key(1, 1)].snap.kind == Linear
    ensures s.t.tasks.Keys == {0, 1, 2} && s.t.tasks[1].status == Running && s.t.tasks[1].parent == Some(0)
    ensures s.t.tasks[2].parent == None && s.t.tasks[0].parent == None && s.jobs.Keys == {Key(0, 2), Key(1, 1)}
    ensures s.jobs[Key(0, 2)].snap.parent == None
    ensures s.batches.Keys == {0, 1} && s.t.now == 0
  {
    var family := WaitingFamily(Linear, None);
    WaitingFamilyReached(d, Linear, None);
    var key := Key(1, 1);
    var s1 := LockOne(d, family, 1, 1);
    s := StartOne(d, s1, key);
  }

  ghost predicate Stranded(s: State, p: Id) {
    WaitingRow(s, p) && !Awaited(s, p)
  }

  /** A child stored CANCELLED by its own worker runs no handler, and its root waits for ever. */
  lemma OwnCancelStrandsRoot()
    ensures exists s :: Reaches(UNRESTRICTED.(handlersComplete := true, noDelete := true), s) && Stranded(s, 0)
  {
    var d := UNRESTRICTED.(handlersComplete := true, noDelete := true);
    var s := ChildStarted(d);
    var key := Key(1, 1);
    ReachesNext(d, s, Raise(key));
    var s1 := Apply(s, Raise(key));
    var s2 := PersistOne(d, s1, key, Cancelled);
    assert forall c :: !PendingChild(s2.t, 0, c);
    assert s2.jobs.Keys == {Key(0, 2)};
    assert Stranded(s2, 0);
  }

  /** A handler cut off before it counts strands the root as well. */
  lemma CutHandlerStrandsRoot()
    ensures exists s :: Reaches(UNRESTRICTED.(noDelete := true, noOwnCancel := true), s) && Stranded(s, 0)
  {
    var d := UNRESTRICTED.(noDelete := true, noOwnCancel := true);
    var s := ChildStarted(d);
    var key := Key(1, 1);
    var s1 := PersistOne(d, s, key, Finished);
    assert s1.jobs[key].phase == Counting(true);
    ReachesNext(d, s1, Abort(key));
    var s2 := Apply(s1, Abort(key));
    assert forall c :: !PendingChild(s2.t, 0, c);
    assert s2.jobs.Keys == {Key(0, 2)};
    assert Stranded(s2, 0);
  }

  /** So does the soft delete of its last open child. */
  lemma DeleteStrandsRoot()
    ensures exists s :: Reaches(UNRESTRICTED.(handlersComplete := true, noOwnCancel := true), s) && Stranded(s, 0)
  {
    var d := UNRESTRICTED.(handlersComplete := true, noOwnCancel := true);
    var s := WaitingFamily(Linear, None);
    WaitingFamilyReached(d, Linear, None);
    ReachesNext(d, s, Delete(1));
    var s1 := Apply(s, Delete(1));
    assert forall c :: !PendingChild(s1.t, 0, c);
    assert Stranded(s1, 0);
  }

  /** A state whose only open handler is about to close root 0 as FINISHED. */
  ghost predicate AboutToClose(s: State) {
    && WaitingRow(s, 0) && s.t.tasks.Keys == {0, 1, 2} && s.t.tasks[0].parent.None? && s.t.now == 0
    && Key(1, 1) in s.jobs && s.jobs[Key(1, 1)].phase == Closing(Finished)
    && s.jobs[Key(1, 1)].snap.parent == Some(0)
  }

  lemma CloserReached(d: Discipline) returns (s: State)
    requires d.lease.None? && !d.guardedInsert
    ensures Reaches(d, s) && AboutToClose(s)
  {
    var s0 := ChildStarted(d);
    var key := Key(1, 1);
    var s1 := PersistOne(d, s0, key, Finished);
    assert s1.jobs[key].phase == Counting(true);
    CountsAreExistence(s1.t, 0);
    assert forall c :: !PendingChild(s1.t, 0, c);
    assert forall c :: !FailedLiveChild(s1.t, 0, c, true) && !FailedLiveChild(s1.t, 0, c, false);
    ReachesNext(d, s1, Handle(key));
    s := Apply(s1, Handle(key));
  }

  /** A child inserted between count and close escapes the verdict. */
  lemma LateChildEscapesVerdict()
    ensures exists s :: Reaches(UNRESTRICTED.(handlersComplete := true, noUndelete := true), s)
                        && SuccessfulRoot(s, 0) && !VerdictHolds(s.t, 0, s.t.tasks[0].status)
  {
    var d := UNRESTRICTED.(handlersComplete := true, noUndelete := true);
    var s := CloserReached(d);
    var key, late := Key(1, 1), Row(Linear, None, Some(0), false);
    ReachesNext(d, s, Insert(3, late));
    var s1 := Apply(s, Insert(3, late));
    ReachesNext(d, s1, Handle(key));
    var s2 := Apply(s1, Handle(key));
    assert PendingChild(s2.t, 0, 3) && s2.t.tasks[0].status == Finished;
  }

  /** So does an open child that is undeleted under a finished root. */
  lemma UndeletedChildEscapesVerdict()
    ensures exists s :: Reaches(UNRESTRICTED.(handlersComplete := true, guardedInsert := true), s)
                        && SuccessfulRoot(s, 0) && !VerdictHolds(s.t, 0, s.t.tasks[0].status)
  {
    var d := UNRESTRICTED.(handlersComplete := true, guardedInsert := true);
    var s := GuardedFamily(d);
    var s1 := DeleteOne(d, s, 1);
    assert s1.t.tasks.Keys == {0, 1};
    var s2 := ChildlessRootFinishes(d, s1);
    var s3 := UndeleteOne(d, s2, 1);
    assert PendingChild(s3.t, 0, 1);
  }

  lemma UndeleteOne(d: Discipline, s: State, id: Id) returns (s': State)
    requires Reaches(d, s) && id in s.t.tasks && !d.noUndelete
    ensures Reaches(d, s') && s' == s.(t := s.t.(tasks := s.t.tasks[id := s.t.tasks[id].(deleted := false)]))
  {
    ReachesNext(d, s, Undelete(id));
    s' := Apply(s, Undelete(id));
  }

  lemma ChildlessRootFinishes(d: Discipline, s: State) returns (s': State)
    requires Reaches(d, s) && d == UNRESTRICTED.(handlersComplete := true, guardedInsert := true)
    requires Key(0, 0) in s.jobs && s.jobs[Key(0, 0)].phase.Started?
    requires s.jobs[Key(0, 0)].snap.kind == Linear && s.jobs[Key(0, 0)].snap.parent == None
    requires s.t.tasks.Keys == {0, 1} && s.t.tasks[1].deleted && s.t.tasks[0].parent == None
    requires s.t.tasks[0].status == Running
    ensures Reaches(d, s') && s'.t.tasks.Keys == {0, 1} && s'.t.tasks[1] == s.t.tasks[1]
    ensures s'.t.tasks[0].status == Finished && s'.t.tasks[0].parent == None
  {
    CountsAreExistence(s.t, 0);
    assert forall c :: !LiveChild(s.t, 0, c);
    assert WriteStatus(s.t, 0, s.jobs[Key(0, 0)].snap, Finished) == Finished;
    s' := PersistOne(d, s, Key(0, 0), Finished);
  }

  /** Root 0 started by worker 0, with open child 1; no insert breaks the rule on inserts. */
  lemma GuardedFamily(d: Discipline) returns (s: State)
    requires d.lease.None? && !d.noDelete
    ensures Reaches(d, s) && s.t.now == 0 && s.t.tasks.Keys == {0, 1} && s.jobs.Keys == {Key(0, 0)}
    ensures s.t.tasks[1] == Row(Linear, None, Some(0), false) && s.batches.Keys == {0}
    ensures s.t.tasks[0] == StartedAt(QueuedAt(Row(Linear, None, None, false), 0), 0)
    ensures s.jobs[Key(0, 0)].phase == Started
    ensures s.jobs[Key(0, 0)].snap.kind == Linear && s.jobs[Key(0, 0)].snap.parent == None
  {
    ReachesInit(d);
    var root, child := Row(Linear, None, None, false), Row(Linear, None, Some(0), false);
    ReachesNext(d, INIT, Insert(0, root));
    var s1 := Apply(INIT, Insert(0, root));
    ReachesNext(d, s1, Insert(1, child));
    var s2 := Apply(s1, Insert(1, child));
    var s3 := LockOne(d, s2, 0, 0);
    s := StartOne(d, s3, Key(0, 0));
  }

  /** Without heartbeats in time two workers hold the same open task. */
  lemma LapsedLeaseHasTwoHolders()
    ensures exists s :: Reaches(UNRESTRICTED.(noDrain := true), s) && 0 in s.t.tasks && !OneHolder(s, 0)
  {
    var d := UNRESTRICTED.(noDrain := true);
    var s := GuardedFamily(d);
    ReachesNext(d, s, Tick(10));
    var s1 := Apply(s, Tick(10));
    Relock(d, s1);
  }

  lemma Relock(d: Discipline, s: State)
    requires Reaches(d, s) && d == UNRESTRICTED.(noDrain := true)
    requires s.jobs.Keys == {Key(0, 0)} && s.jobs[Key(0, 0)].phase == Started
    requires 0 in s.t.tasks && s.t.tasks[0].status == Running
    requires s.t.tasks[0].scenario == "demo" && !s.t.tasks[0].deleted
    requires LastSeen(s.t.tasks[0]) < s.t.now && 1 !in s.batches
    ensures exists s' :: Reaches(d, s') && 0 in s'.t.tasks && !OneHolder(s', 0)
  {
    DemoIsRunnable();
    assert 0 in RunnableIds(s.t, 0, ON);
    var s' := LockSome(d, s, 1, {0}, 0);
    LockedOne(s, 1, 0);
    assert Holds(s', Key(0, 0)) && Holds(s', Key(1, 0));
  }

  /**
   A failed child that is deleted before its handler counts strands the root too, though that
   child was no longer open.
   */
  lemma DeletedFailureStrandsRoot()
    ensures exists s :: Reaches(UNRESTRICTED.(handlersComplete := true, noOwnCancel := true), s) && Stranded(s, 0)
  {
    var d := UNRESTRICTED.(handlersComplete := true, noOwnCancel := true);
    var s := ChildStarted(d);
    var key := Key(1, 1);
    var s1 := ChildFails(d, s);
    var s2 := DeleteOne(d, s1, 1);
    CountFindsNothing(d, s2, key);
  }

  lemma ChildFails(d: Discipline, s: State) returns (s': State)
    requires Reaches(d, s) && Key(1, 1) in s.jobs && s.jobs[Key(1, 1)].phase == Started && WaitingRow(s, 0)
    requires s.jobs[Key(1, 1)].snap.parent == Some(0) && !s.jobs[Key(1, 1)].snap.isBlock
    requires s.jobs[Key(1, 1)].snap.kind == Linear && s.t.tasks.Keys == {0, 1, 2} && s.t.tasks[1].status == Running
    ensures Reaches(d, s') && s'.jobs == s.jobs[Key(1, 1) := s.jobs[Key(1, 1)].(phase := Counting(false))]
    ensures 1 in s'.t.tasks && s'.t.tasks == s.t.tasks[1 := s'.t.tasks[1]]
  {
    s' := PersistOne(d, s, Key(1, 1), Failed);
  }

  lemma DeleteOne(d: Discipline, s: State, id: Id) returns (s': State)
    requires Reaches(d, s) && id in s.t.tasks && !d.noDelete
    ensures Reaches(d, s') && s' == s.(t := s.t.(tasks := s.t.tasks[id := s.t.tasks[id].(deleted := true)]))
  {
    ReachesNext(d, s, Delete(id));
    s' := Apply(s, Delete(id));
  }

  lemma CountFindsNothing(d: Discipline, s: State, key: Key)
    requires Reaches(d, s) && WaitingRow(s, 0) && s.t.tasks.Keys == {0, 1, 2} && s.t.tasks[1].deleted
    requires s.t.tasks[0].parent == None && s.t.tasks[2].parent == None
    requires s.jobs.Keys == {Key(0, 2), key} && s.jobs[Key(0, 2)].snap.parent == None && key != Key(0, 2)
    requires s.jobs[key].phase == Counting(false) && s.jobs[key].snap.parent == Some(0)
    ensures exists s' :: Reaches(d, s') && Stranded(s', 0)
  {
    CountsAreExistence(s.t, 0);
    assert forall c :: !LiveChild(s.t, 0, c);
    ReachesNext(d, s, Handle(key));
    var s' := Apply(s, Handle(key));
    assert s'.t == s.t && s'.jobs.Keys == {Key(0, 2)};
    assert Stranded(s', 0);
  }

  const LEASED := UNRESTRICTED.(lease := Some(1))

  lemma LockRunnable(d: Discipline, s: State, batch: nat, id: Id) returns (s': State)
    requires d == LEASED && Reaches(d, s) && batch !in s.batches && id in s.t.tasks
    requires Runnable(s.t.now, 1, ON, s.t.tasks[id])
    ensures Reaches(d, s')
    ensures s' == State(s.t.(tasks := s.t.tasks[id := QueuedAt(s.t.tasks[id], s.t.now)]),
                        s.jobs[Key(batch, id) := Job(QueuedAt(s.t.tasks[id], s.t.now), Locked)],
                        s.batches[batch := Batch({id}, false)])
  {
    s' := LockSome(d, s, batch, {id}, 1);
    LockedOne(s, batch, id);
  }

  /**
   With heartbeats in time, a drain alone gives a task two holders: it requeues a row that another
   worker took over.
   */
  lemma DrainGivesTwoHolders()
    ensures exists s :: Reaches(LEASED, s) && 0 in s.t.tasks && !OneHolder(s, 0)
  {
    var d, root := LEASED, Row(Linear, None, None, false);
    ReachesInit(d);
    ReachesNext(d, INIT, Insert(0, root));
    DemoIsRunnable();
    var s := LockRunnable(d, Apply(INIT, Insert(0, root)), 0, 0);
    StoppedThenDrained(d, s);
  }

  /** Worker 0 holds the one task; it stops, and its lease runs out before its drain. */
  lemma StoppedThenDrained(d: Discipline, s: State)
    requires d == LEASED && Reaches(d, s) && s.t.now == 0 && s.batches == map[0 := Batch({0}, false)]
    requires s.jobs.Keys == {Key(0, 0)} && s.t.tasks == map[0 := QueuedAt(Row(Linear, None, None, false), 0)]
    ensures exists s' :: Reaches(d, s') && 0 in s'.t.tasks && !OneHolder(s', 0)
  {
    assert Key(0, 0) in s.jobs && Alive(s, 0);
    ReachesNext(d, s, Stop(0));
    var s1 := Apply(s, Stop(0));
    assert s1.jobs == map[];
    ReachesNext(d, s1, Tick(2));
    TakenOver(d, Apply(s1, Tick(2)));
  }

  lemma TakenOver(d: Discipline, s: State)
    requires d == LEASED && Reaches(d, s) && s.jobs == map[] && s.batches == map[0 := Batch({0}, true)]
    requires s.t.tasks == map[0 := QueuedAt(Row(Linear, None, None, false), 0)] && s.t.now == 2
    ensures exists s' :: Reaches(d, s') && 0 in s'.t.tasks && !OneHolder(s', 0)
  {
    DemoIsRunnable();
    var s1 := LockRunnable(d, s, 1, 0);
    assert s1.jobs.Keys == {Key(1, 0)};
    DrainedUnderHolder(d, s1);
  }

  lemma DrainedUnderHolder(d: Discipline, s: State)
    requires d == LEASED && Reaches(d, s) && s.jobs.Keys == {Key(1, 0)} && s.jobs[Key(1, 0)].phase == Locked
    requires s.batches.Keys == {0, 1} && s.batches[0] == Batch({0}, true)
    requires 0 in s.t.tasks && s.t.tasks[0] == QueuedAt(Row(Linear, None, None, false), 2) && s.t.now == 2
    ensures exists s' :: Reaches(d, s') && 0 in s'.t.tasks && !OneHolder(s', 0)
  {
    DemoIsRunnable();
    ReachesNext(d, s, Drain(0));
    var s1 := Apply(s, Drain(0));
    assert s1.jobs == s.jobs && Idle(s1.t.tasks[0]);
    var s' := LockRunnable(d, s1, 2, 0);
    assert Holds(s', Key(1, 0)) && Holds(s', Key(2, 0));
  }
}
