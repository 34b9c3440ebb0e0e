/** What every single step does to a row, and the invariants that need no restriction on runs. */
module TaskInvariants {
  import opened Common
  import opened TaskTables
  import opened TaskMachine

  ghost predicate JobFits(s: State, k: Key)
    requires k in s.jobs
  {
    var job := s.jobs[k];
    && k.task in s.t.tasks
    && k.batch in s.batches && k.task in s.batches[k.batch].ids
    && SameStatics(job.snap, s.t.tasks[k.task])
    && (InHandler(job.phase) ==> HandlerFits(s.t.tasks[k.task], job.phase))
  }

  /** A parent handler runs only for a child whose own outcome is stored. */
  predicate HandlerFits(row: Task, phase: Phase) {
    && row.parent.Some?
    && match phase
       case Counting(ok) => if ok then row.status == Finished else row.status == Failed && !row.isBlock
       case FailingParent(cancelSiblings) =>
         Terminal(row.status) && (cancelSiblings ==> row.status == Failed && row.isBlock)
       case CancellingSiblings => row.status == Failed && row.isBlock
       case Closing(verdict) => Terminal(row.status) && verdict in {Finished, FinishedWithError}
       case _ => true
  }

  ghost predicate RowFits(s: State, id: Id)
    requires id in s.t.tasks
  {
    var row := s.t.tasks[id];
    row.parent.Some? ==>
      && row.parent.value in s.t.tasks
      && row.status != Waiting && row.status != FinishedWithError
  }

  ghost predicate Wf(s: State) {
    && (forall k :: k in s.jobs ==> JobFits(s, k))
    && (forall id :: id in s.t.tasks ==> RowFits(s, id))
  }

  // ---- one step, one row ----------------------------------------------------

  /** A terminal row keeps every column except the soft-delete mark. */
  predicate Frozen(a: Task, b: Task) {
    b == a.(deleted := b.deleted)
  }

  ghost predicate StartsWaiting(s: State, step: Step, id: Id)
    requires Enabled(s, step)
  {
    && step.Persist? && step.key.task == id
    && s.jobs[step.key].snap.parent.None?
    && (exists c :: PendingChild(s.t, id, c))
    && (forall c :: !FailedLiveChild(s.t, id, c, true))
  }

  /** `parent` is settled and its open children are cancelled by this step. */
  ghost predicate CancelsChildrenOf(s: State, step: Step, parent: Id)
    requires Enabled(s, step)
  {
    || (&& step.Handle? && s.jobs[step.key].phase.CancellingSiblings?
        && s.jobs[step.key].snap.parent == Some(parent))
    || (&& step.Persist? && step.key.task == parent && parent in Apply(s, step).t.tasks
        && Apply(s, step).t.tasks[parent].status == Failed)
  }

  ghost predicate SettlesWaiting(s: State, step: Step, id: Id)
    requires Enabled(s, step)
  {
    && step.Handle? && s.jobs[step.key].snap.parent == Some(id)
    && (s.jobs[step.key].phase.Closing? || s.jobs[step.key].phase.FailingParent?)
  }

  /** Row `row` under one committed persist of row `id`. */
  lemma PersistRow(t: Tables, id: Id, snap: Task, candidate: Status, payload: Option<string>, body: string, row: Id)
    requires row in t.tasks
    ensures var t' := PersistOutcome(t, id, snap, candidate, payload, body);
            && t'.tasks.Keys == t.tasks.Keys
            && SameStatics(t.tasks[row], t'.tasks[row])
            && t.tasks[row].deleted == t'.tasks[row].deleted
            && (Terminal(t.tasks[row].status) ==> t'.tasks[row] == t.tasks[row])
            && (row != id && t'.tasks[row] != t.tasks[row] ==>
                  && Persists(t, id) && t'.tasks[id].status == Failed
                  && LiveChild(t, id, row) && t'.tasks[row].status == Cancelled)
            && (row == id && Persists(t, id) && WriteStatus(t, id, snap, candidate) != Failed ==>
                  t'.tasks[row].status == WriteStatus(t, id, snap, candidate))
            && (row == id && Persists(t, id) && WriteStatus(t, id, snap, candidate) == Failed ==>
                  t'.tasks[row].status == Failed)
  {
  }

  /** A persist writes WAITING only for a root with an open child and no failed blocking one. */
  lemma WritesWaiting(t: Tables, id: Id, snap: Task, candidate: Status)
    requires candidate in {Finished, Failed, Cancelled}
    ensures WriteStatus(t, id, snap, candidate) == Waiting ==>
              && snap.parent.None?
              && (exists c :: PendingChild(t, id, c))
              && (forall c :: !FailedLiveChild(t, id, c, true))
    ensures snap.parent.Some? ==> WriteStatus(t, id, snap, candidate) !in {Waiting, FinishedWithError}
  {
    CountsAreExistence(t, id);
  }

  lemma HandlerRow(t: Tables, parent: Id, phase: Phase, row: Id)
    requires row in t.tasks
    requires phase.Closing? ==> phase.verdict in {Finished, FinishedWithError}
    ensures var t' := HandlerTransaction(t, parent, phase);
            && t'.tasks.Keys == t.tasks.Keys
            && SameStatics(t.tasks[row], t'.tasks[row])
            && t.tasks[row].deleted == t'.tasks[row].deleted
            && (Terminal(t.tasks[row].status) ==> t'.tasks[row] == t.tasks[row])
            && (t'.tasks[row] != t.tasks[row] ==>
                  || (row == parent && t.tasks[row].status == Waiting && Terminal(t'.tasks[row].status)
                      && (phase.Closing? || phase.FailingParent?))
                  || (phase.CancellingSiblings? && t'.tasks[row].status == Cancelled
                      && t.tasks[row].parent == Some(parent)))
  {
  }

  /** The whole of what one step can do to one existing row. */
  lemma RowStep(s: State, step: Step, id: Id)
    requires Wf(s) && Enabled(s, step) && id in s.t.tasks
    ensures id in Apply(s, step).t.tasks
    ensures RowEffect(s, step, id)
  {
    match step
    case Persist(key, candidate, payload, body) => PersistRowStep(s, key, candidate, payload, body, id);
    case Handle(key) => HandleRowStep(s, key, id);
    case _ => QuietRowStep(s, step, id);
  }

  lemma PersistRowStep(s: State, key: Key, candidate: Status, payload: Option<string>, body: string, id: Id)
    requires Wf(s) && Enabled(s, Persist(key, candidate, payload, body)) && id in s.t.tasks
    ensures id in Apply(s, Persist(key, candidate, payload, body)).t.tasks
    ensures RowEffect(s, Persist(key, candidate, payload, body), id)
  {
    assert JobFits(s, key);
    PersistRow(s.t, key.task, s.jobs[key].snap, candidate, payload, body, id);
    PersistRow(s.t, key.task, s.jobs[key].snap, candidate, payload, body, key.task);
    WritesWaiting(s.t, key.task, s.jobs[key].snap, candidate);
  }

  lemma HandleRowStep(s: State, key: Key, id: Id)
    requires Wf(s) && Enabled(s, Handle(key)) && id in s.t.tasks
    ensures id in Apply(s, Handle(key)).t.tasks && RowEffect(s, Handle(key), id)
  {
    assert JobFits(s, key);
    HandlerRow(s.t, s.jobs[key].snap.parent.value, s.jobs[key].phase, id);
  }

  lemma QuietRowStep(s: State, step: Step, id: Id)
    requires Enabled(s, step) && id in s.t.tasks && !step.Persist? && !step.Handle?
    ensures id in Apply(s, step).t.tasks && RowEffect(s, step, id)
  {
    if step.Lock? {
      LockRowStep(s, step, id);
    } else {
      OtherRowStep(s, step, id);
    }
  }

  lemma LockRowStep(s: State, step: Step, id: Id)
    requires Enabled(s, step) && id in s.t.tasks && step.Lock?
    ensures id in Apply(s, step).t.tasks && RowEffect(s, step, id)
  {
    assert id in step.claimed ==> id in RunnableIds(s.t, step.zombie, step.flags);
  }

  lemma OtherRowStep(s: State, step: Step, id: Id)
    requires Enabled(s, step) && id in s.t.tasks && !step.Persist? && !step.Handle? && !step.Lock?
    ensures id in Apply(s, step).t.tasks && RowEffect(s, step, id)
  {
  }

  ghost predicate RowEffect(s: State, step: Step, id: Id)
    requires Enabled(s, step) && id in s.t.tasks
  {
    id in Apply(s, step).t.tasks &&
    var a, b := s.t.tasks[id], Apply(s, step).t.tasks[id];
    && SameStatics(a, b)
    && (Terminal(a.status) ==> Frozen(a, b))
    && (a.deleted != b.deleted ==> (step.Delete? || step.Undelete?) && step.id == id)
    && (b.status == Waiting && a.status != Waiting ==> StartsWaiting(s, step, id))
    && (!Terminal(a.status) && Terminal(b.status) ==>
          || (step.Persist? && step.key.task == id)
          || (a.status == Waiting && SettlesWaiting(s, step, id))
          || (b.status == Cancelled && a.parent.Some? && CancelsChildrenOf(s, step, a.parent.value)))
  }

  // ---- well-formedness over runs --------------------------------------------

  lemma RowFitsStep(s: State, step: Step, id: Id)
    requires Wf(s) && Enabled(s, step) && id in Apply(s, step).t.tasks
    ensures RowFits(Apply(s, step), id)
  {
    if id in s.t.tasks {
      RowStep(s, step, id);
      var parent := s.t.tasks[id].parent;
      if parent.Some? {
        RowStep(s, step, parent.value);
        if step.Persist? && step.key.task == id {
          WritesWaiting(s.t, id, s.jobs[step.key].snap, step.candidate);
          PersistRow(s.t, id, s.jobs[step.key].snap, step.candidate, step.payload, step.body, id);
        }
      }
    }
  }

  lemma PersistedJobFits(s: State, key: Key, candidate: Status, payload: Option<string>, body: string)
    requires Wf(s) && Enabled(s, Persist(key, candidate, payload, body))
    requires key in Apply(s, Persist(key, candidate, payload, body)).jobs
    ensures JobFits(Apply(s, Persist(key, candidate, payload, body)), key)
  {
    PersistRow(s.t, key.task, s.jobs[key].snap, candidate, payload, body, key.task);
  }

  lemma HandledJobFits(s: State, key: Key)
    requires Wf(s) && Enabled(s, Handle(key)) && key in Apply(s, Handle(key)).jobs
    ensures JobFits(Apply(s, Handle(key)), key)
  {
    RowStep(s, Handle(key), key.task);
  }

  /** A job that a step does not advance is untouched, unless the lock just created it. */
  lemma OtherJobs(s: State, step: Step, k: Key)
    requires Wf(s) && Enabled(s, step) && k in Apply(s, step).jobs
    ensures step.Lock? && k !in s.jobs ==>
              && k.batch == step.batch && k.task in step.claimed
              && Apply(s, step).jobs[k] == Job(Apply(s, step).t.tasks[k.task], Locked)
    ensures k !in s.jobs ==> step.Lock?
    ensures k in s.jobs ==>
              || Apply(s, step).jobs[k] == s.jobs[k]
              || (&& (step.Start? || step.Raise? || step.Persist? || step.Handle?) && step.key == k
                  && Apply(s, step).jobs[k].snap == s.jobs[k].snap)
  {
  }

  /** A job goes on unchanged unless the step is its own or its process stops. */
  lemma JobStays(s: State, step: Step, k: Key)
    requires Wf(s) && Enabled(s, step) && k in s.jobs
    ensures || (k in Apply(s, step).jobs && Apply(s, step).jobs[k] == s.jobs[k])
            || ((step.Start? || step.Raise? || step.Persist? || step.Handle? || step.Abort?) && step.key == k)
            || ((step.Crash? || step.Stop?) && step.batch == k.batch)
  {
    if step.Lock? {
      assert JobFits(s, k);
    } else if step.Start? || step.Raise? || step.Persist? || step.Handle? || step.Abort? {
      if step.key != k { OneJobMoves(s, step, k); }
    } else if !((step.Crash? || step.Stop?) && step.batch == k.batch) {
      BatchStays(s, step, k);
    }
  }

  lemma OneJobMoves(s: State, step: Step, k: Key)
    requires Enabled(s, step) && k in s.jobs
    requires (step.Start? || step.Raise? || step.Persist? || step.Handle? || step.Abort?) && step.key != k
    ensures k in Apply(s, step).jobs && Apply(s, step).jobs[k] == s.jobs[k]
  {
  }

  lemma BatchStays(s: State, step: Step, k: Key)
    requires Enabled(s, step) && k in s.jobs
    requires !step.Lock? && !step.Start? && !step.Raise? && !step.Persist? && !step.Handle? && !step.Abort?
    requires step.Crash? || step.Stop? ==> step.batch != k.batch
    ensures k in Apply(s, step).jobs && Apply(s, step).jobs[k] == s.jobs[k]
  {
  }

  lemma JobFitsStep(s: State, step: Step, k: Key)
    requires Wf(s) && Enabled(s, step) && k in Apply(s, step).jobs
    ensures JobFits(Apply(s, step), k)
  {
    OtherJobs(s, step, k);
    if k in s.jobs {
      RowStep(s, step, k.task);
      if step.Persist? && step.key == k {
        PersistedJobFits(s, k, step.candidate, step.payload, step.body);
      } else if step.Handle? && step.key == k {
        HandledJobFits(s, k);
      } else {
        BatchKept(s, step, k.batch);
      }
    }
  }

  lemma BatchKept(s: State, step: Step, batch: nat)
    requires Enabled(s, step) && batch in s.batches
    ensures batch in Apply(s, step).batches && Apply(s, step).batches[batch].ids == s.batches[batch].ids
  {
  }

  lemma WfStep(s: State, step: Step)
    requires Wf(s) && Enabled(s, step)
    ensures Wf(Apply(s, step))
  {
    forall id | id in Apply(s, step).t.tasks ensures RowFits(Apply(s, step), id) {
      RowFitsStep(s, step, id);
    }
    forall k | k in Apply(s, step).jobs ensures JobFits(Apply(s, step), k) {
      JobFitsStep(s, step, k);
    }
  }

  /** Subtasks never wait and never finish with an error, and a handler's child stays as stored. */
  lemma {:induction false} AlwaysWellFormed(d: Discipline, s: State, steps: seq<Step>)
    requires Wf(s) && IsRun(d, s, steps)
    ensures Wf(Exec(d, s, steps))
    decreases |steps|
  {
    if steps == [] {
    } else {
      WfStep(s, steps[0]);
      AlwaysWellFormed(d, Apply(s, steps[0]), steps[1..]);
    }
  }

  /** Terminal statuses are absorbing: the row is frozen for the rest of any run. */
  lemma {:induction false} TerminalIsAbsorbing(d: Discipline, s: State, steps: seq<Step>, id: Id)
    requires Wf(s) && IsRun(d, s, steps) && id in s.t.tasks && Terminal(s.t.tasks[id].status)
    ensures id in Exec(d, s, steps).t.tasks
    ensures Frozen(s.t.tasks[id], Exec(d, s, steps).t.tasks[id])
    decreases |steps|
  {
    if steps == [] {
    } else {
      WfStep(s, steps[0]);
      RowStep(s, steps[0], id);
      TerminalIsAbsorbing(d, Apply(s, steps[0]), steps[1..], id);
    }
  }
}
