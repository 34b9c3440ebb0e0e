/** A requeued cyclical task rests for its own interval, whatever stale workers and drains do meanwhile. */
module RestTimes {
  import opened Common
  import opened TaskTables
  import opened TaskMachine
  import opened TaskInvariants
  import EB = ExecutionBounds

  /** When an outcome puts a task back to NEW, and for how long. */
  lemma RequeuedIff(t: Tables, id: Id, snap: Task, candidate: Status, payload: Option<string>, body: string)
    requires Persists(t, id) && candidate in {Finished, Failed, Cancelled}
    ensures var row := PersistOutcome(t, id, snap, candidate, payload, body).tasks[id];
            && (row.status == New <==>
                  && snap.kind == Cyclical && candidate == Finished
                  && (snap.maxExecutions.None? || snap.currentExecutions + 1 < snap.maxExecutions.value))
            && (row.status == New ==>
                  && row.currentExecutions == snap.currentExecutions + 1
                  && row.nextRunAt == Some(t.now + if snap.interval == 0 then 60 else snap.interval))
            && (row.status != New ==> row.nextRunAt.None?)
  {
    PersistRow(t, id, snap, candidate, payload, body, id);
    CountsAreExistence(t, id);
  }

  /** Until `due`, the row is NEW and not due before, or it is over, or it waits for its children. */
  predicate Resting(t: Tables, id: Id, due: int)
    requires id in t.tasks
  {
    var row := t.tasks[id];
    || t.now >= due
    || Terminal(row.status)
    || row.status == Waiting
    || (row.status == New && row.nextRunAt.Some? && row.nextRunAt.value >= due)
  }

  /** No lock of the run takes the row before `due`. */
  ghost predicate NotTakenBefore(d: Discipline, s: State, steps: seq<Step>, id: Id, due: int)
    requires IsRun(d, s, steps)
    decreases |steps|
  {
    steps != [] ==>
      && (steps[0].Lock? && id in steps[0].claimed ==> s.t.now >= due)
      && NotTakenBefore(d, Apply(s, steps[0]), steps[1..], id, due)
  }

  lemma NotTakenWhileResting(s: State, step: Step, id: Id, due: int)
    requires Enabled(s, step) && id in s.t.tasks && Resting(s.t, id, due) && step.Lock? && id in step.claimed
    ensures s.t.now >= due
  {
    assert id in RunnableIds(s.t, step.zombie, step.flags);
  }

  /** A stale worker's outcome requeues the row for later still, or ends it, or lets it wait. */
  lemma RestsUnderPersist(s: State, step: Step, id: Id, due: int, delay: int)
    requires Wf(s) && Enabled(s, step) && step.Persist? && id in s.t.tasks && Resting(s.t, id, due)
    requires delay == Delay(s.t.tasks[id]) && due <= s.t.now + delay
    ensures id in Apply(s, step).t.tasks && Resting(Apply(s, step).t, id, due)
  {
    var key := step.key;
    assert JobFits(s, key);
    PersistRow(s.t, key.task, s.jobs[key].snap, step.candidate, step.payload, step.body, id);
    if key.task == id && Persists(s.t, id) {
      RequeuedIff(s.t, id, s.jobs[key].snap, step.candidate, step.payload, step.body);
      CountsAreExistence(s.t, id);
    }
  }

  lemma RestsUnderQuiet(s: State, step: Step, id: Id, due: int)
    requires Enabled(s, step) && !step.Persist? && !step.Handle? && id in s.t.tasks && Resting(s.t, id, due)
    requires !EB.DrainsWaiting(s, step, id)
    ensures id in Apply(s, step).t.tasks && Resting(Apply(s, step).t, id, due)
  {
    if step.Lock? && id in step.claimed {
      NotTakenWhileResting(s, step, id, due);
    }
  }

  lemma RestsStep(s: State, step: Step, id: Id, due: int, delay: int)
    requires Wf(s) && Enabled(s, step) && id in s.t.tasks && Resting(s.t, id, due)
    requires delay == Delay(s.t.tasks[id]) && due <= s.t.now + delay && !EB.DrainsWaiting(s, step, id)
    ensures id in Apply(s, step).t.tasks && Resting(Apply(s, step).t, id, due)
    ensures delay == Delay(Apply(s, step).t.tasks[id]) && due <= Apply(s, step).t.now + delay
  {
    RowStep(s, step, id);
    if step.Persist? {
      RestsUnderPersist(s, step, id, due, delay);
    } else if step.Handle? {
      HandlerRow(s.t, s.jobs[step.key].snap.parent.value, s.jobs[step.key].phase, id);
    } else {
      RestsUnderQuiet(s, step, id, due);
    }
    TimeGoesOn(s, step);
  }

  /** A drain reopens a row that waits for its children, and nothing holds it back until `due`. */
  ghost predicate ReopensEarly(s: State, step: Step, id: Id, due: int)
    requires Enabled(s, step)
  {
    && EB.DrainsWaiting(s, step, id) && s.t.now < due
    && (s.t.tasks[id].nextRunAt.None? || s.t.tasks[id].nextRunAt.value < due)
  }

  /** The exact condition: a step lets a resting row be taken early exactly if it reopens it so. */
  lemma RestKeptIff(s: State, step: Step, id: Id, due: int, delay: int)
    requires Wf(s) && Enabled(s, step) && id in s.t.tasks && Resting(s.t, id, due)
    requires delay == Delay(s.t.tasks[id]) && due <= s.t.now + delay
    ensures id in Apply(s, step).t.tasks
    ensures Resting(Apply(s, step).t, id, due) <==> !ReopensEarly(s, step, id, due)
  {
    if EB.DrainsWaiting(s, step, id) {
      assert Apply(s, step).t.tasks[id].status == New;
    } else {
      RestsStep(s, step, id, due, delay);
    }
  }

  lemma TimeGoesOn(s: State, step: Step)
    requires Enabled(s, step)
    ensures Apply(s, step).t.now >= s.t.now
  {
  }

  lemma {:induction false} RestsOverRun(d: Discipline, s: State, steps: seq<Step>, id: Id, due: int, delay: int)
    requires Wf(s) && IsRun(d, s, steps) && id in s.t.tasks && Resting(s.t, id, due)
    requires delay == Delay(s.t.tasks[id]) && due <= s.t.now + delay
    requires s.t.tasks[id].parent.Some? || d.drainSparesWaiting
    ensures NotTakenBefore(d, s, steps, id, due)
    decreases |steps|
  {
    if steps == [] {
    } else {
      var step := steps[0];
      WfStep(s, step);
      RowStep(s, step, id);
      assert RowFits(s, id);
      assert !EB.DrainsWaiting(s, step, id);
      if step.Lock? && id in step.claimed {
        NotTakenWhileResting(s, step, id, due);
      }
      RestsStep(s, step, id, due, delay);
      RestsOverRun(d, Apply(s, step), steps[1..], id, due, delay);
    }
  }

  /** `id` is NEW again, with its interval ahead of it. */
  ghost predicate JustRequeued(s: State, id: Id, now: int, interval: int) {
    && Wf(s) && id in s.t.tasks && s.t.now == now && s.t.tasks[id].interval == interval
    && Resting(s.t, id, now + Delay(s.t.tasks[id]))
  }

  /**
   No lock of any run from here takes the row before `due`; for a root, of any run whose drains spare
   WAITING rows.
   */
  ghost predicate RestsUntil(s: State, id: Id, due: int)
    requires id in s.t.tasks
  {
    forall d: Discipline, steps: seq<Step> ::
      IsRun(d, s, steps) && (s.t.tasks[id].parent.Some? || d.drainSparesWaiting) ==>
        NotTakenBefore(d, s, steps, id, due)
  }

  lemma RestsFromNow(s: State, id: Id, now: int, interval: int)
    requires JustRequeued(s, id, now, interval)
    ensures RestsUntil(s, id, now + if interval == 0 then 60 else interval)
  {
    forall d: Discipline, steps: seq<Step> |
      IsRun(d, s, steps) && (s.t.tasks[id].parent.Some? || d.drainSparesWaiting)
      ensures NotTakenBefore(d, s, steps, id, now + Delay(s.t.tasks[id]))
    {
      RestsOverRun(d, s, steps, id, now + Delay(s.t.tasks[id]), Delay(s.t.tasks[id]));
    }
  }

  /** What the committed outcome makes of the row. */
  lemma StartsToRest(t: Tables, id: Id, snap: Task, candidate: Status, payload: Option<string>, body: string)
    requires Persists(t, id) && candidate in {Finished, Failed, Cancelled} && SameStatics(snap, t.tasks[id])
    requires PersistOutcome(t, id, snap, candidate, payload, body).tasks[id].status == New
    ensures var t' := PersistOutcome(t, id, snap, candidate, payload, body);
            && id in t'.tasks && t'.now == t.now && t'.tasks[id].interval == t.tasks[id].interval
            && Resting(t', id, t.now + Delay(t.tasks[id]))
  {
    RequeuedIff(t, id, snap, candidate, payload, body);
    PersistRow(t, id, snap, candidate, payload, body, id);
  }

  /**
   After an outcome that requeues a cyclical task, no lock of any later run takes it before its
   interval has passed. A root needs drains that spare WAITING rows, as for its cap.
   */
  lemma RequeuedTaskRests(s: State, key: Key, candidate: Status, payload: Option<string>, body: string, s': State)
    requires Wf(s) && Enabled(s, Persist(key, candidate, payload, body)) && Persists(s.t, key.task)
    requires s' == Apply(s, Persist(key, candidate, payload, body))
    requires key.task in s'.t.tasks && s'.t.tasks[key.task].status == New
    ensures var interval := s.t.tasks[key.task].interval;
            RestsUntil(s', key.task, s.t.now + if interval == 0 then 60 else interval)
  {
    assert JobFits(s, key);
    WfStep(s, Persist(key, candidate, payload, body));
    StartsToRest(s.t, key.task, s.jobs[key].snap, candidate, payload, body);
    RestsFromNow(s', key.task, s.t.now, s.t.tasks[key.task].interval);
  }
}
