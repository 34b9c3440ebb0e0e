/**
 The workers around the tables. A worker locks a batch of tasks; every task of
 the batch is then processed by its own coroutine, here a `Job`. A job's phase says
 which transaction it runs next, so any number of jobs and workers interleave
 between transactions.
 */
module TaskMachine {
  import opened Common
  import opened TaskTables

  datatype Phase =
    | Locked                               // row locked, `mark_task_running` next
    | Started                              // pipeline runs
    | Erroring                             // an exception is being turned into a result
    | Counting(ok: bool)                   // child stored FINISHED (ok) or non-blocking FAILED
    | FailingParent(cancelSiblings: bool)
    | CancellingSiblings
    | Closing(verdict: Status)

  predicate InHandler(phase: Phase) {
    !phase.Locked? && !phase.Started? && !phase.Erroring?
  }

  datatype Key = Key(batch: nat, task: Id)

  datatype Job = Job(snap: Task, phase: Phase)

  datatype Batch = Batch(ids: set<Id>, stopped: bool)

  datatype State = State(t: Tables, jobs: map<Key, Job>, batches: map<nat, Batch>)

  datatype Step =
    | Tick(elapsed: int)
    | Insert(id: Id, row: Task)                    // a plugin or `create_task` adds a row
    | Promote(id: Id)                              // a plugin turns DRAFT into NEW
    | Delete(id: Id)                               // host SQL sets or clears deleted_at
    | Undelete(id: Id)
    | Lock(batch: nat, claimed: set<Id>, limit: nat, zombie: int, flags: Flags)
    | Heartbeat(batch: nat)
    | Start(key: Key)
    | Raise(key: Key)
    | Persist(key: Key, candidate: Status, payload: Option<string>, body: string)
    | Handle(key: Key)                             // one transaction of the parent handler
    | Abort(key: Key)                              // the handler raised: it stops half-way
    | Crash(batch: nat)                            // the process died
    | Stop(batch: nat)                             // shutdown timeout: coroutines cancelled
    | Drain(batch: nat)                            // then the batch is requeued

  ghost predicate Alive(s: State, batch: nat) {
    exists k :: k in s.jobs && k.batch == batch
  }

  ghost predicate Enabled(s: State, step: Step) {
    match step
    case Tick(elapsed) => elapsed > 0
    case Insert(id, row) =>
      && id !in s.t.tasks && row.status in {New, Draft} && row.currentExecutions == 0
      && row.updatedAt == s.t.now && row.heartbeat.None? && !row.deleted
      && (row.parent.Some? ==> row.parent.value in s.t.tasks)
    case Promote(id) => id in s.t.tasks && s.t.tasks[id].status == Draft
    case Delete(id) => id in s.t.tasks
    case Undelete(id) => id in s.t.tasks
    case Lock(batch, claimed, limit, zombie, flags) =>
      batch !in s.batches && claimed <= RunnableIds(s.t, zombie, flags) && |claimed| <= limit
    case Heartbeat(batch) => batch in s.batches
    case Start(key) => key in s.jobs && s.jobs[key].phase.Locked?
    case Raise(key) => key in s.jobs && (s.jobs[key].phase.Locked? || s.jobs[key].phase.Started?)
    case Persist(key, candidate, _, _) =>
      key in s.jobs
      && (|| (s.jobs[key].phase.Started? && candidate in {Finished, Failed})
          || (s.jobs[key].phase.Erroring? && candidate in {Failed, Cancelled}))
    case Handle(key) => key in s.jobs && InHandler(s.jobs[key].phase) && s.jobs[key].snap.parent.Some?
    case Abort(key) => key in s.jobs && InHandler(s.jobs[key].phase)
    case Crash(batch) => batch in s.batches
    case Stop(batch) => batch in s.batches && Alive(s, batch)
    case Drain(batch) => batch in s.batches && s.batches[batch].stopped && !Alive(s, batch)
  }

  // ---- what a job does after a transaction ----------------------------------

  /** Phase after a committed persist; `None` when the job is done. */
  function AfterPersist(snap: Task, status: Status): Option<Phase> {
    if snap.parent.None? then None
    else if status == Failed then
      if snap.isBlock then Some(FailingParent(true)) else Some(Counting(false))
    else if status == Finished then Some(Counting(true))
    else None
  }

  /** One transaction of `_handle_subtask_failure` / `_handle_subtask_finished`. */
  function HandlerTransaction(t: Tables, parent: Id, phase: Phase): Tables {
    match phase
    case FailingParent(_) => FailWaitingParent(t, parent)
    case CancellingSiblings => CancelOpenSubtasks(t, parent)
    case Closing(verdict) => CloseWaitingParent(t, parent, verdict)
    case _ => t
  }

  function AfterHandler(t: Tables, parent: Id, phase: Phase): Option<Phase> {
    match phase
    case FailingParent(cancelSiblings) => if cancelSiblings then Some(CancellingSiblings) else None
    case Counting(ok) =>
      var counts := CountSubtasks(t, parent);
      if counts.pendingOpen > 0 then None
      else if counts.failedBlocking > 0 then Some(FailingParent(false))
      else if counts.failedNonBlocking > 0 then Some(Closing(FinishedWithError))
      else if ok then Some(Closing(Finished))
      else None
    case _ => None
  }

  function Proceed(jobs: map<Key, Job>, key: Key, next: Option<Phase>): map<Key, Job>
    requires key in jobs
  {
    if next.Some? then jobs[key := jobs[key].(phase := next.value)] else jobs - {key}
  }

  function WithoutBatch(jobs: map<Key, Job>, batch: nat): map<Key, Job> {
    map k | k in jobs && k.batch != batch :: jobs[k]
  }

  function NewJobs(batch: nat, claimed: set<Id>, t: Tables): map<Key, Job>
    requires claimed <= t.tasks.Keys
  {
    map id | id in claimed :: Key(batch, id) := Job(t.tasks[id], Locked)
  }

  function ActiveIds(s: State, batch: nat): set<Id> {
    set k | k in s.jobs && k.batch == batch :: k.task
  }

  ghost function Apply(s: State, step: Step): State
    requires Enabled(s, step)
  {
    match step
    case Tick(elapsed) => s.(t := s.t.(now := s.t.now + elapsed))
    case Insert(id, row) => s.(t := s.t.(tasks := s.t.tasks[id := row]))
    case Promote(id) => s.(t := s.t.(tasks := s.t.tasks[id := s.t.tasks[id].(status := New)]))
    case Delete(id) => s.(t := s.t.(tasks := s.t.tasks[id := s.t.tasks[id].(deleted := true)]))
    case Undelete(id) => s.(t := s.t.(tasks := s.t.tasks[id := s.t.tasks[id].(deleted := false)]))
    case Lock(batch, claimed, _, _, _) =>
      var t := LockTasks(s.t, claimed);
      State(t, s.jobs + NewJobs(batch, claimed, t), s.batches[batch := Batch(claimed, false)])
    case Heartbeat(batch) => s.(t := TouchHeartbeats(s.t, ActiveIds(s, batch)))
    case Start(key) =>
      var started := key.task in s.t.tasks && s.t.tasks[key.task].status == Queued;
      s.(t := SetRunning(s.t, key.task, s.jobs[key].snap.alias),
         jobs := s.jobs[key := s.jobs[key].(phase := if started then Started else Erroring)])
    case Raise(key) => s.(jobs := s.jobs[key := s.jobs[key].(phase := Erroring)])
    case Persist(key, candidate, payload, body) =>
      var snap := s.jobs[key].snap;
      var status := CyclicalParams(candidate, snap, s.t.now).0;
      s.(t := PersistOutcome(s.t, key.task, snap, candidate, payload, body),
         jobs := Proceed(s.jobs, key, if Persists(s.t, key.task) then AfterPersist(snap, status) else None))
    case Handle(key) =>
      var parent := s.jobs[key].snap.parent.value;
      var phase := s.jobs[key].phase;
      s.(t := HandlerTransaction(s.t, parent, phase),
         jobs := Proceed(s.jobs, key, AfterHandler(s.t, parent, phase)))
    case Abort(key) => s.(jobs := s.jobs - {key})
    case Crash(batch) => s.(jobs := WithoutBatch(s.jobs, batch))
    case Stop(batch) =>
      s.(jobs := WithoutBatch(s.jobs, batch),
         batches := s.batches[batch := s.batches[batch].(stopped := true)])
    case Drain(batch) =>
      s.(t := RequeueIncomplete(s.t, s.batches[batch].ids),
         batches := s.batches[batch := s.batches[batch].(stopped := false)])
  }

  // ---- runs -----------------------------------------------------------------

  /**
   Restrictions a run may obey. A theorem names the flags it needs; a run under
   `UNRESTRICTED` is any run at all.
   */
  datatype Discipline = Discipline(
    handlersComplete: bool,     // no parent handler is cut off between its transactions
    noDelete: bool,             // no child is soft-deleted
    noUndelete: bool,
    noOwnCancel: bool,          // no open subtask is stored CANCELLED by its own worker
    guardedInsert: bool,        // no child under a terminal parent or between count and close
    noDrain: bool,
    drainSparesWaiting: bool,   // no drained batch holds a WAITING row
    lease: Option<int>)         // heartbeats keep every held row fresher than this

  const UNRESTRICTED := Discipline(false, false, false, false, false, false, false, None)

  ghost predicate ClosingParent(s: State, parent: Id) {
    exists k :: k in s.jobs && s.jobs[k].phase.Closing? && s.jobs[k].snap.parent == Some(parent)
  }

  ghost predicate CutsHandler(s: State, step: Step) {
    || step.Abort?
    || ((step.Crash? || step.Stop?)
        && exists k :: k in s.jobs && k.batch == step.batch && InHandler(s.jobs[k].phase))
  }

  /** A job still works on its row: nothing of its outcome is stored yet. */
  predicate Holds(s: State, k: Key) {
    k in s.jobs && !InHandler(s.jobs[k].phase)
  }

  /** A row whose lease the zombie rule could not take at time `now`. */
  predicate Fresh(task: Task, now: int, lease: int) {
    now - LastSeen(task) <= lease
  }

  ghost predicate Obeys(d: Discipline, s: State, step: Step)
    requires Enabled(s, step)
  {
    && (d.handlersComplete ==> !CutsHandler(s, step))
    && (d.noDelete && step.Delete? ==> s.t.tasks[step.id].parent.None?)
    && (d.noUndelete ==> !step.Undelete?)
    && (d.noOwnCancel && step.Persist? && s.jobs[step.key].snap.parent.Some? && Persists(s.t, step.key.task) ==>
          step.candidate != Cancelled)
    && (d.guardedInsert && step.Insert? && step.row.parent.Some? ==>
          && !Terminal(s.t.tasks[step.row.parent.value].status)
          && !ClosingParent(s, step.row.parent.value))
    && (d.noDrain ==> !step.Drain?)
    && (d.drainSparesWaiting && step.Drain? ==>
          forall id :: id in s.batches[step.batch].ids && id in s.t.tasks ==> s.t.tasks[id].status != Waiting)
    && (d.lease.Some? && step.Lock? ==> step.zombie >= d.lease.value)
    && (d.lease.Some? && step.Tick? ==>
          forall k :: Holds(s, k) && k.task in s.t.tasks && InFlight(s.t.tasks[k.task].status)
            ==> Fresh(s.t.tasks[k.task], s.t.now + step.elapsed, d.lease.value))
  }

  const INIT := State(Tables(0, map[], []), map[], map[])

  ghost predicate IsRun(d: Discipline, s: State, steps: seq<Step>)
    decreases |steps|
  {
    steps != [] ==>
      && Enabled(s, steps[0]) && Obeys(d, s, steps[0])
      && IsRun(d, Apply(s, steps[0]), steps[1..])
  }

  ghost function Exec(d: Discipline, s: State, steps: seq<Step>): State
    requires IsRun(d, s, steps)
    decreases |steps|
  {
    if steps == [] then s else Exec(d, Apply(s, steps[0]), steps[1..])
  }
}
