/** A run in which a requeued cyclical root is taken before its interval is over. */
module EarlyRestart {
  import opened Common
  import opened TaskTables
  import opened TaskMachine
  import opened BrokenRuns
  import opened RestTimes

  /** A cyclical root with cap 2 whose counter stands at `executions`. */
  predicate Root(row: Task, executions: int) {
    && row.kind == Cyclical && row.maxExecutions == Some(2) && row.interval == 1 && row.parent == None
    && row.scenario == "demo" && !row.deleted && row.alias == None && row.currentExecutions == executions
  }

  /** Root 0 with its open child 1 and an unrelated task 2. */
  predicate Scene(s: State) {
    && s.t.tasks.Keys == {0, 1, 2}
    && s.t.tasks[1].parent == Some(0) && s.t.tasks[1].status == New && !s.t.tasks[1].deleted
    && s.t.tasks[2].parent == None
  }

  /** Worker 0 still runs the root; worker 1 took it over, finished it once and left it due at 2. */
  predicate FinishedOnce(s: State) {
    && Scene(s) && s.t.now == 2 && Idle(s.t.tasks[2]) && s.batches.Keys == {0, 1}
    && Root(s.t.tasks[0], 1) && s.t.tasks[0].status == New && s.t.tasks[0].nextRunAt == Some(2)
    && s.jobs.Keys == {Key(0, 0)} && s.jobs[Key(0, 0)].phase == Started && Root(s.jobs[Key(0, 0)].snap, 0)
  }

  /** Worker 2 runs the root again; the stale worker 0 has just requeued it, due at 3. */
  predicate Requeued(s: State) {
    && Scene(s) && s.t.now == 2 && s.batches.Keys == {0, 1, 2} && s.batches[2].ids == {0, 2}
    && Root(s.t.tasks[0], 1) && s.t.tasks[0].status == New && s.t.tasks[0].nextRunAt == Some(3)
    && s.jobs.Keys == {Key(2, 0), Key(2, 2)}
    && s.jobs[Key(2, 0)].phase == Started && Root(s.jobs[Key(2, 0)].snap, 1)
  }

  lemma RequeuesUnderCap(t: Tables, snap: Task)
    requires 0 in t.tasks && !Terminal(t.tasks[0].status) && Root(snap, 0)
    ensures PersistOutcome(t, 0, snap, Finished, None, "ok")
         == Tables(t.now, t.tasks[0 := t.tasks[0].(status := New, updatedAt := t.now, currentExecutions := 1,
                                                   nextRunAt := Some(t.now + 1))],
                   t.results + [ResultRow(0, "ok")])
  {
  }

  lemma TickOnce(d: Discipline, s: State) returns (s': State)
    requires d == UNRESTRICTED && Reaches(d, s)
    ensures Reaches(d, s') && s' == s.(t := s.t.(now := s.t.now + 1))
  {
    ReachesNext(d, s, Tick(1));
    s' := Apply(s, Tick(1));
  }

  /** A worker takes the root over and starts it. */
  lemma TakeAndStart(d: Discipline, s: State, batch: nat) returns (s': State)
    requires d == UNRESTRICTED && Reaches(d, s) && batch !in s.batches && 0 in s.t.tasks && s.t.tasks[0].alias == None
    requires Runnable(s.t.now, 0, ON, s.t.tasks[0])
    ensures Reaches(d, s')
    ensures s' == State(s.t.(tasks := s.t.tasks[0 := StartedAt(QueuedAt(s.t.tasks[0], s.t.now), s.t.now)]),
                        s.jobs[Key(batch, 0) := Job(QueuedAt(s.t.tasks[0], s.t.now), Started)],
                        s.batches[batch := Batch({0}, false)])
  {
    assert 0 in RunnableIds(s.t, 0, ON);
    var s1 := LockSome(d, s, batch, {0}, 0);
    LockedOne(s, batch, 0);
    s' := StartOne(d, s1, Key(batch, 0));
  }

  lemma FinishedOnceReached() returns (s: State)
    ensures Reaches(UNRESTRICTED, s) && FinishedOnce(s)
  {
    var d := UNRESTRICTED;
    DemoIsRunnable();
    var s1 := FamilyInserted(d, Cyclical, Some(2));
    var s2 := TakeAndStart(d, s1, 0);
    var s3 := TickOnce(d, s2);
    var s4 := TakeAndStart(d, s3, 1);
    s := FinishAndTick(d, s4);
  }

  lemma FinishAndTick(d: Discipline, s: State) returns (s': State)
    requires d == UNRESTRICTED && Reaches(d, s) && Scene(s) && s.t.now == 1 && Idle(s.t.tasks[2])
    requires s.batches.Keys == {0, 1} && Root(s.t.tasks[0], 0) && s.t.tasks[0].status == Running
    requires s.jobs.Keys == {Key(0, 0), Key(1, 0)}
    requires s.jobs[Key(0, 0)].phase == Started && Root(s.jobs[Key(0, 0)].snap, 0)
    requires s.jobs[Key(1, 0)].phase == Started && Root(s.jobs[Key(1, 0)].snap, 0)
    ensures Reaches(d, s') && FinishedOnce(s')
  {
    var s1 := PersistOne(d, s, Key(1, 0), Finished);
    RequeuesUnderCap(s.t, s.jobs[Key(1, 0)].snap);
    assert s1.jobs == s.jobs - {Key(1, 0)};
    s' := TickOnce(d, s1);
  }

  lemma RequeuedReached(d: Discipline, s: State) returns (s': State)
    requires d == UNRESTRICTED && Reaches(d, s) && FinishedOnce(s)
    ensures Reaches(d, s') && Requeued(s')
  {
    DemoIsRunnable();
    assert {0, 2} <= RunnableIds(s.t, 0, ON);
    var s1 := LockSome(d, s, 2, {0, 2}, 0);
    LockedTwo(s, 2, 0, 2);
    var s2 := StartOne(d, s1, Key(2, 0));
    s' := StaleRequeue(d, s2);
  }

  lemma StaleRequeue(d: Discipline, s: State) returns (s': State)
    requires d == UNRESTRICTED && Reaches(d, s) && Scene(s) && s.t.now == 2
    requires s.batches.Keys == {0, 1, 2} && s.batches[2].ids == {0, 2}
    requires Root(s.t.tasks[0], 1) && s.t.tasks[0].status == Running
    requires s.jobs.Keys == {Key(0, 0), Key(2, 0), Key(2, 2)}
    requires s.jobs[Key(0, 0)].phase == Started && Root(s.jobs[Key(0, 0)].snap, 0)
    requires s.jobs[Key(2, 0)].phase == Started && Root(s.jobs[Key(2, 0)].snap, 1)
    ensures Reaches(d, s') && Requeued(s')
  {
    s' := PersistOne(d, s, Key(0, 0), Finished);
    RequeuesUnderCap(s.t, s.jobs[Key(0, 0)].snap);
    assert s'.jobs == s.jobs - {Key(0, 0)};
  }

  lemma OneMore(s: State, step: Step, steps: seq<Step>)
    requires Enabled(s, step) && IsRun(UNRESTRICTED, Apply(s, step), steps)
    ensures IsRun(UNRESTRICTED, s, [step] + steps)
    ensures Exec(UNRESTRICTED, s, [step] + steps) == Exec(UNRESTRICTED, Apply(s, step), steps)
  {
    assert ([step] + steps)[0] == step && ([step] + steps)[1..] == steps;
  }

  /** The root reaches its cap under worker 2, waits for its child, and is drained: nothing holds it back any more. */
  lemma DrainFreesRoot(s: State) returns (s': State, steps: seq<Step>)
    requires Requeued(s)
    ensures IsRun(UNRESTRICTED, s, steps) && Exec(UNRESTRICTED, s, steps) == s'
    ensures s'.t.now == 2 && s'.batches.Keys == {0, 1, 2} && 0 in s'.t.tasks && Idle(s'.t.tasks[0])
  {
    var persist := Persist(Key(2, 0), Finished, None, "ok");
    RootWaitsAgain(s);
    var s1 := Apply(s, persist);
    var s2 := StopAndDrain(s1);
    s', steps := RunOf(s, persist, s1, Stop(2), s2, Drain(2));
  }

  lemma RunOf(s: State, a: Step, s1: State, b: Step, s2: State, c: Step) returns (s': State, steps: seq<Step>)
    requires Enabled(s, a) && s1 == Apply(s, a) && Enabled(s1, b) && s2 == Apply(s1, b) && Enabled(s2, c)
    ensures s' == Apply(s2, c) && IsRun(UNRESTRICTED, s, steps) && Exec(UNRESTRICTED, s, steps) == s'
  {
    s' := Apply(s2, c);
    OneMore(s2, c, []);
    OneMore(s1, b, [c] + []);
    OneMore(s, a, [b] + ([c] + []));
    steps := [a] + ([b] + ([c] + []));
  }

  lemma RootWaitsAgain(s: State)
    requires Requeued(s)
    ensures var s1 := Apply(s, Persist(Key(2, 0), Finished, None, "ok"));
            && s1.t.now == 2 && s1.batches == s.batches && s1.jobs.Keys == {Key(2, 2)}
            && 0 in s1.t.tasks && s1.t.tasks[0].status == Waiting && s1.t.tasks[0].nextRunAt == None
            && Root(s1.t.tasks[0], 2)
  {
    assert PendingChild(s.t, 0, 1);
    CountsAreExistence(s.t, 0);
    assert forall c :: !FailedLiveChild(s.t, 0, c, true);
  }

  lemma StopAndDrain(s: State) returns (s': State)
    requires s.t.now == 2 && s.batches.Keys == {0, 1, 2} && s.batches[2].ids == {0, 2} && s.jobs.Keys == {Key(2, 2)}
    requires 0 in s.t.tasks && s.t.tasks[0].status == Waiting && s.t.tasks[0].nextRunAt == None
    requires Root(s.t.tasks[0], 2)
    ensures Enabled(s, Stop(2)) && s' == Apply(s, Stop(2)) && Enabled(s', Drain(2))
    ensures var t := Apply(s', Drain(2));
            t.t.now == 2 && t.batches.Keys == {0, 1, 2} && 0 in t.t.tasks && Idle(t.t.tasks[0])
  {
    assert Key(2, 2) in s.jobs && Alive(s, 2);
    s' := Apply(s, Stop(2));
    assert s'.jobs == map[];
  }

  lemma {:induction false} TakenAtTheEnd(d: Discipline, s: State, steps: seq<Step>, lock: Step, id: Id, due: int)
    requires IsRun(d, s, steps) && Enabled(Exec(d, s, steps), lock) && Obeys(d, Exec(d, s, steps), lock)
    requires lock.Lock? && id in lock.claimed && Exec(d, s, steps).t.now < due
    ensures IsRun(d, s, steps + [lock]) && !NotTakenBefore(d, s, steps + [lock], id, due)
    decreases |steps|
  {
    AppendStep(d, s, steps, lock);
    if steps == [] {
      assert steps + [lock] == [lock];
    } else {
      assert (steps + [lock])[1..] == steps[1..] + [lock];
      TakenAtTheEnd(d, Apply(s, steps[0]), steps[1..], lock, id, due);
    }
  }

  /**
   A requeued root is taken early: a stale worker's outcome put it back to NEW, due at 3, and a later
   lock takes it at 2. `RequeuedTaskRests` needs its restriction on roots.
   */
  lemma RootCanBeTakenEarly()
    ensures exists s :: Reaches(UNRESTRICTED, s) && Requeued(s)
                        && exists steps ::
                             IsRun(UNRESTRICTED, s, steps) && !NotTakenBefore(UNRESTRICTED, s, steps, 0, 3)
  {
    var once := FinishedOnceReached();
    var s := RequeuedReached(UNRESTRICTED, once);
    var s', steps := DrainFreesRoot(s);
    DemoIsRunnable();
    var lock := Lock(3, {0}, 1, 0, ON);
    assert 0 in RunnableIds(s'.t, 0, ON);
    TakenAtTheEnd(UNRESTRICTED, s, steps, lock, 0, 3);
  }
}
