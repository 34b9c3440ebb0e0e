/** Result rows, the execution cap of cyclical tasks, and what heartbeats guarantee. */
module ExecutionBounds {
  import opened Common
  import opened TaskTables
  import opened TaskMachine
  import opened TaskInvariants

  // ---- result rows ----------------------------------------------------------

  ghost predicate CommitsResult(s: State, step: Step, id: Id)
    requires Enabled(s, step)
  {
    step.Persist? && step.key.task == id && Persists(s.t, id)
  }

  /** The outcomes of `id` whose status write hit the row, in order. */
  ghost function CommittedOutcomes(d: Discipline, s: State, steps: seq<Step>, id: Id): seq<string>
    requires IsRun(d, s, steps)
    decreases |steps|
  {
    if steps == [] then []
    else (if CommitsResult(s, steps[0], id) then [steps[0].body] else [])
         + CommittedOutcomes(d, Apply(s, steps[0]), steps[1..], id)
  }

  lemma ResultsAppend(results: seq<ResultRow>, row: ResultRow, id: Id)
    ensures ResultsOf(results + [row], id) == ResultsOf(results, id) + (if row.task == id then [row.body] else [])
  {
    assert (results + [row])[..|results|] == results;
  }

  lemma ResultsStep(s: State, step: Step, id: Id)
    requires Enabled(s, step)
    ensures ResultsOf(Apply(s, step).t.results, id)
         == ResultsOf(s.t.results, id) + (if CommitsResult(s, step, id) then [step.body] else [])
  {
    if step.Persist? {
      PersistAddsResult(s.t, step.key.task, s.jobs[step.key].snap, step.candidate, step.payload, step.body, id);
    } else {
      QuietResults(s, step);
    }
  }

  lemma PersistAddsResult(t: Tables, id: Id, snap: Task, candidate: Status, payload: Option<string>, body: string,
                          other: Id)
    ensures ResultsOf(PersistOutcome(t, id, snap, candidate, payload, body).results, other)
         == ResultsOf(t.results, other) + if id == other && Persists(t, id) then [body] else []
  {
    ResultsAppend(t.results, ResultRow(id, body), other);
  }

  lemma QuietResults(s: State, step: Step)
    requires Enabled(s, step) && !step.Persist?
    ensures Apply(s, step).t.results == s.t.results
  {
  }

  /** Result rows are exactly the committed status writes, in order, over any run. */
  lemma {:induction false} ResultsMatchCommits(d: Discipline, s: State, steps: seq<Step>, id: Id)
    requires IsRun(d, s, steps)
    ensures ResultsOf(Exec(d, s, steps).t.results, id)
         == ResultsOf(s.t.results, id) + CommittedOutcomes(d, s, steps, id)
    decreases |steps|
  {
    if steps == [] {
    } else {
      ResultsStep(s, steps[0], id);
      var s' := Apply(s, steps[0]);
      ResultsMatchCommits(d, s', steps[1..], id);
      Regroup(ResultsOf(s.t.results, id), if CommitsResult(s, steps[0], id) then [steps[0].body] else [],
              CommittedOutcomes(d, s', steps[1..], id));
    }
  }

  lemma Regroup(a: seq<string>, b: seq<string>, c: seq<string>)
    ensures (a + b) + c == a + (b + c)
  {
  }

  predicate LinearSubtask(row: Task) {
    row.parent.Some? && row.kind == Linear
  }

  ghost predicate OneResult(s: State, id: Id) {
    var n := |ResultsOf(s.t.results, id)|;
    if id !in s.t.tasks then n == 0
    else
      LinearSubtask(s.t.tasks[id]) ==>
        && n <= 1
        && (!Terminal(s.t.tasks[id].status) ==> n == 0)
        && (s.t.tasks[id].status in {Finished, Failed} ==> n == 1)
  }

  lemma OneResultStep(s: State, step: Step, id: Id)
    requires Wf(s) && Enabled(s, step) && OneResult(s, id)
    ensures OneResult(Apply(s, step), id)
  {
    ResultsStep(s, step, id);
    if id in s.t.tasks {
      RowStep(s, step, id);
      assert RowFits(s, id);
      if CommitsResult(s, step, id) {
        assert JobFits(s, step.key);
        PersistRow(s.t, id, s.jobs[step.key].snap, step.candidate, step.payload, step.body, id);
      }
    } else {
      assert step.Persist? ==> JobFits(s, step.key);
    }
  }

  lemma {:induction false} OneResultRun(d: Discipline, s: State, steps: seq<Step>, id: Id)
    requires Wf(s) && OneResult(s, id) && IsRun(d, s, steps)
    ensures OneResult(Exec(d, s, steps), id)
    decreases |steps|
  {
    if steps == [] {
    } else {
      WfStep(s, steps[0]);
      OneResultStep(s, steps[0], id);
      OneResultRun(d, Apply(s, steps[0]), steps[1..], id);
    }
  }

  /** A linear subtask gets at most one result row, and exactly one when it ends FINISHED or FAILED. */
  lemma LinearSubtaskHasOneResult(d: Discipline, steps: seq<Step>, id: Id)
    requires IsRun(d, INIT, steps)
    ensures OneResult(Exec(d, INIT, steps), id)
  {
    OneResultRun(d, INIT, steps, id);
  }

  // ---- the execution cap ----------------------------------------------------

  predicate HasCap(row: Task) {
    row.kind == Cyclical && row.maxExecutions.Some? && row.maxExecutions.value >= 1
  }

  ghost predicate Capped(s: State, id: Id) {
    id in s.t.tasks && HasCap(s.t.tasks[id]) ==>
      var row := s.t.tasks[id];
      var cap := row.maxExecutions.value;
      && row.currentExecutions <= cap
      && (!Terminal(row.status) && row.status != Waiting ==> row.currentExecutions < cap)
      && (forall k :: k in s.jobs && k.task == id ==> s.jobs[k].snap.currentExecutions < cap)
  }

  /** The one step after which a counter may start from its cap. */
  ghost predicate DrainsWaiting(s: State, step: Step, id: Id)
    requires Enabled(s, step)
  {
    step.Drain? && id in s.batches[step.batch].ids && id in s.t.tasks && s.t.tasks[id].status == Waiting
  }

  lemma CounterStep(s: State, step: Step, id: Id)
    requires Wf(s) && Enabled(s, step) && id in s.t.tasks
    ensures id in Apply(s, step).t.tasks
    ensures Apply(s, step).t.tasks[id].currentExecutions
         == if CommitsResult(s, step, id) && s.t.tasks[id].kind == Cyclical
            then s.jobs[step.key].snap.currentExecutions + 1
            else if CommitsResult(s, step, id) then s.jobs[step.key].snap.currentExecutions
            else s.t.tasks[id].currentExecutions
  {
    if step.Persist? {
      assert JobFits(s, step.key);
      PersistCounts(s.t, step.key.task, s.jobs[step.key].snap, step.candidate, step.payload, step.body, id);
    } else {
      QuietCounter(s, step, id);
    }
  }

  lemma PersistCounts(t: Tables, id: Id, snap: Task, candidate: Status, payload: Option<string>, body: string, row: Id)
    requires row in t.tasks
    ensures row in PersistOutcome(t, id, snap, candidate, payload, body).tasks
    ensures PersistOutcome(t, id, snap, candidate, payload, body).tasks[row].currentExecutions
         == if row != id || !Persists(t, id) then t.tasks[row].currentExecutions
            else if snap.kind == Cyclical then snap.currentExecutions + 1 else snap.currentExecutions
  {
  }

  lemma QuietCounter(s: State, step: Step, id: Id)
    requires Enabled(s, step) && !step.Persist? && id in s.t.tasks
    ensures id in Apply(s, step).t.tasks
    ensures Apply(s, step).t.tasks[id].currentExecutions == s.t.tasks[id].currentExecutions
  {
  }

  lemma CappedStep(s: State, step: Step, id: Id)
    requires Wf(s) && Enabled(s, step) && Capped(s, id) && !DrainsWaiting(s, step, id)
    requires id in s.t.tasks
    ensures Capped(Apply(s, step), id)
  {
    var s' := Apply(s, step);
    RowStep(s, step, id);
    CounterStep(s, step, id);
    var row, row' := s.t.tasks[id], s'.t.tasks[id];
    if HasCap(row) {
      if !Terminal(row'.status) && row'.status != Waiting {
        OpenBelowCap(s, step, id);
      }
      forall k | k in s'.jobs && k.task == id ensures s'.jobs[k].snap.currentExecutions < row.maxExecutions.value {
        OtherJobs(s, step, k);
        if k !in s.jobs { LockedRow(s, step, id); }
      }
    }
  }

  lemma LockedRow(s: State, step: Step, id: Id)
    requires Enabled(s, step) && step.Lock? && id in step.claimed
    ensures id in s.t.tasks && s.t.tasks[id].status in {New, Queued, Running}
    ensures Apply(s, step).t.tasks[id].currentExecutions == s.t.tasks[id].currentExecutions
  {
    assert id in RunnableIds(s.t, step.zombie, step.flags);
  }

  lemma OpenBelowCap(s: State, step: Step, id: Id)
    requires Wf(s) && Enabled(s, step) && Capped(s, id) && !DrainsWaiting(s, step, id)
    requires id in s.t.tasks && id in Apply(s, step).t.tasks && HasCap(s.t.tasks[id])
    requires !Terminal(Apply(s, step).t.tasks[id].status) && Apply(s, step).t.tasks[id].status != Waiting
    ensures Apply(s, step).t.tasks[id].currentExecutions < s.t.tasks[id].maxExecutions.value
  {
    RowStep(s, step, id);
    CounterStep(s, step, id);
    if CommitsResult(s, step, id) {
      assert JobFits(s, step.key);
      PersistRow(s.t, id, s.jobs[step.key].snap, step.candidate, step.payload, step.body, id);
    } else if s.t.tasks[id].status == Waiting {
      LeavesWaiting(s, step, id);
    }
  }

  /** A WAITING row is reopened by a drain or by a stale persist, and by nothing else. */
  lemma LeavesWaiting(s: State, step: Step, id: Id)
    requires Wf(s) && Enabled(s, step) && id in s.t.tasks && s.t.tasks[id].status == Waiting
    requires !DrainsWaiting(s, step, id) && !CommitsResult(s, step, id)
    ensures id in Apply(s, step).t.tasks
    ensures Apply(s, step).t.tasks[id].status == Waiting || Terminal(Apply(s, step).t.tasks[id].status)
  {
    if step.Persist? {
      assert JobFits(s, step.key);
      PersistRow(s.t, step.key.task, s.jobs[step.key].snap, step.candidate, step.payload, step.body, id);
    } else if step.Handle? {
      assert JobFits(s, step.key);
      HandlerRow(s.t, s.jobs[step.key].snap.parent.value, s.jobs[step.key].phase, id);
    } else if step.Lock? && id in step.claimed {
      LockedRow(s, step, id);
    }
  }

  /** A drain reopens a root that waits with its counter already at the cap. */
  ghost predicate ReopensAtCap(s: State, step: Step, id: Id)
    requires Enabled(s, step)
  {
    && DrainsWaiting(s, step, id) && HasCap(s.t.tasks[id])
    && s.t.tasks[id].currentExecutions == s.t.tasks[id].maxExecutions.value
  }

  /** One step keeps the cap exactly when it does not reopen a WAITING row whose counter is at the cap. */
  lemma CapKeptIff(s: State, step: Step, id: Id)
    requires Wf(s) && Enabled(s, step) && Capped(s, id) && id in s.t.tasks
    ensures Capped(Apply(s, step), id) <==> !ReopensAtCap(s, step, id)
  {
    if DrainsWaiting(s, step, id) {
      RowStep(s, step, id);
      assert Apply(s, step).t.tasks[id].status == New;
    } else {
      CappedStep(s, step, id);
    }
  }

  ghost predicate CapInv(d: Discipline, s: State, id: Id) {
    id in s.t.tasks && (s.t.tasks[id].parent.Some? || d.drainSparesWaiting) ==> Capped(s, id)
  }

  lemma {:induction false} CapRun(d: Discipline, s: State, steps: seq<Step>, id: Id)
    requires Wf(s) && CapInv(d, s, id) && IsRun(d, s, steps)
    ensures CapInv(d, Exec(d, s, steps), id)
    decreases |steps|
  {
    if steps == [] {
    } else {
      var step := steps[0];
      WfStep(s, step);
      if id in s.t.tasks {
        RowStep(s, step, id);
        assert RowFits(s, id);
        if s.t.tasks[id].parent.Some? || d.drainSparesWaiting { CapKeptIff(s, step, id); }
      } else {
        FirstSeen(s, step, id);
      }
      CapRun(d, Apply(s, step), steps[1..], id);
    }
  }

  lemma FirstSeen(s: State, step: Step, id: Id)
    requires Wf(s) && Enabled(s, step) && id !in s.t.tasks
    ensures Capped(Apply(s, step), id)
  {
    NobodyHoldsNewRow(s, step, id);
  }

  /**
   Whatever reclaims and drains happen, a capped cyclical subtask never counts past its cap and
   every open row and every worker's copy is below it. For a root the same holds in runs
   whose drains hold no WAITING row.
   */
  lemma CapHoldsUnderStaleLeases(d: Discipline, steps: seq<Step>, id: Id)
    requires IsRun(d, INIT, steps)
    ensures var s := Exec(d, INIT, steps);
            id in s.t.tasks && (s.t.tasks[id].parent.Some? || d.drainSparesWaiting) ==> Capped(s, id)
  {
    CapRun(d, INIT, steps, id);
  }

  // ---- leases ---------------------------------------------------------------

  /** A live job works on an open row that is in flight and seen recently enough. */
  ghost predicate LeaseHeld(s: State, lease: int, k: Key) {
    Holds(s, k) && k.task in s.t.tasks && !Terminal(s.t.tasks[k.task].status) ==>
      && InFlight(s.t.tasks[k.task].status)
      && Fresh(s.t.tasks[k.task], s.t.now, lease)
  }

  ghost predicate OneHolder(s: State, id: Id) {
    id in s.t.tasks && !Terminal(s.t.tasks[id].status) ==>
      forall j, k :: Holds(s, j) && Holds(s, k) && j.task == id && k.task == id ==> j == k
  }

  ghost predicate CountsRuns(s: State, id: Id) {
    id in s.t.tasks && s.t.tasks[id].kind == Cyclical ==>
      && |ResultsOf(s.t.results, id)| == s.t.tasks[id].currentExecutions
      && (forall k :: Holds(s, k) && k.task == id && !Terminal(s.t.tasks[id].status)
            ==> s.jobs[k].snap.currentExecutions == s.t.tasks[id].currentExecutions)
  }

  ghost predicate LeaseInv(s: State, lease: int) {
    && Wf(s)
    && (forall k :: Holds(s, k) ==> LeaseHeld(s, lease, k))
    && (forall id :: id in s.t.tasks ==> OneHolder(s, id) && CountsRuns(s, id))
    && (forall id :: id !in s.t.tasks ==> ResultsOf(s.t.results, id) == [])
  }

  predicate LeaseRules(d: Discipline) {
    d.lease.Some? && d.lease.value >= 0 && d.noDrain
  }

  /** A row that a live job holds is not runnable, so no lock takes it. */
  lemma HeldIsNotRunnable(d: Discipline, s: State, step: Step, k: Key)
    requires LeaseRules(d) && LeaseInv(s, d.lease.value) && Enabled(s, step) && Obeys(d, s, step)
    requires step.Lock? && Holds(s, k)
    ensures k.task !in step.claimed
  {
    assert JobFits(s, k) && LeaseHeld(s, d.lease.value, k);
    assert k.task in step.claimed ==> k.task in RunnableIds(s.t, step.zombie, step.flags);
  }

  /** Only its holder persists or starts an open row. */
  lemma HolderWasHolder(s: State, step: Step, k: Key)
    requires Wf(s) && Enabled(s, step) && Holds(Apply(s, step), k)
    ensures Holds(s, k) || (step.Lock? && k.batch == step.batch && k.task in step.claimed && k !in s.jobs)
  {
    OtherJobs(s, step, k);
  }

  /** Transactions of other jobs leave a held row alone, or end it. */
  lemma OthersSpareHeldRow(d: Discipline, s: State, step: Step, k: Key)
    requires LeaseRules(d) && LeaseInv(s, d.lease.value) && Enabled(s, step)
    requires Holds(s, k) && Holds(Apply(s, step), k) && (step.Persist? || step.Handle?)
    requires k.task in s.t.tasks && !Terminal(s.t.tasks[k.task].status)
    ensures k.task in Apply(s, step).t.tasks
    ensures Apply(s, step).t.tasks[k.task] == s.t.tasks[k.task] || Terminal(Apply(s, step).t.tasks[k.task].status)
  {
    assert LeaseHeld(s, d.lease.value, k) && OneHolder(s, k.task) && JobFits(s, step.key);
    if step.Persist? {
      assert Holds(s, step.key);
      PersistRow(s.t, step.key.task, s.jobs[step.key].snap, step.candidate, step.payload, step.body, k.task);
    } else {
      HandlerRow(s.t, s.jobs[step.key].snap.parent.value, s.jobs[step.key].phase, k.task);
    }
  }

  lemma HeldRowKeepsLease(d: Discipline, s: State, step: Step, k: Key)
    requires LeaseRules(d) && LeaseInv(s, d.lease.value) && Enabled(s, step) && Obeys(d, s, step)
    requires Holds(s, k) && Holds(Apply(s, step), k)
    ensures LeaseHeld(Apply(s, step), d.lease.value, k)
  {
    assert JobFits(s, k) && LeaseHeld(s, d.lease.value, k);
    RowStep(s, step, k.task);
    if !Terminal(s.t.tasks[k.task].status) {
      if step.Persist? || step.Handle? {
        OthersSpareHeldRow(d, s, step, k);
      } else if step.Lock? {
        HeldIsNotRunnable(d, s, step, k);
      } else {
        QuietStepKeepsLease(d, s, step, k);
      }
    }
  }

  lemma QuietStepKeepsLease(d: Discipline, s: State, step: Step, k: Key)
    requires LeaseRules(d) && Enabled(s, step) && Obeys(d, s, step) && !step.Persist? && !step.Handle? && !step.Lock?
    requires Holds(s, k) && k.task in s.t.tasks && !Terminal(s.t.tasks[k.task].status) && LeaseHeld(s, d.lease.value, k)
    ensures LeaseHeld(Apply(s, step), d.lease.value, k)
  {
  }

  lemma LeaseHeldStep(d: Discipline, s: State, step: Step, k: Key)
    requires LeaseRules(d) && LeaseInv(s, d.lease.value) && Enabled(s, step) && Obeys(d, s, step)
    requires Holds(Apply(s, step), k)
    ensures LeaseHeld(Apply(s, step), d.lease.value, k)
  {
    HolderWasHolder(s, step, k);
    if Holds(s, k) {
      HeldRowKeepsLease(d, s, step, k);
    } else {
      assert k.task in RunnableIds(s.t, step.zombie, step.flags);
    }
  }

  /** A lock takes a row that a live job still works on. */
  ghost predicate TakesHeldRow(s: State, step: Step, id: Id) {
    step.Lock? && id in step.claimed && exists k :: Holds(s, k) && k.task == id
  }

  /** The exact condition: a task gets a second live holder exactly when a lock takes its held row. */
  lemma OneHolderIff(s: State, step: Step, id: Id)
    requires Wf(s) && Enabled(s, step) && OneHolder(s, id) && id in s.t.tasks
    ensures OneHolder(Apply(s, step), id) <==> !TakesHeldRow(s, step, id)
  {
    if TakesHeldRow(s, step, id) {
      var k :| Holds(s, k) && k.task == id;
      assert JobFits(s, k);
      TakenTwice(s, step, id, k);
    } else {
      HoldersStay(s, step, id);
    }
  }

  lemma TakenTwice(s: State, step: Step, id: Id, k: Key)
    requires Enabled(s, step) && step.Lock? && id in step.claimed && Holds(s, k) && k.task == id && k.batch in s.batches
    ensures !OneHolder(Apply(s, step), id)
  {
    var s' := Apply(s, step);
    assert id in RunnableIds(s.t, step.zombie, step.flags);
    assert Key(step.batch, id) in NewJobs(step.batch, step.claimed, s'.t);
    assert Holds(s', k) && Holds(s', Key(step.batch, id));
  }

  lemma HoldersStay(s: State, step: Step, id: Id)
    requires Wf(s) && Enabled(s, step) && OneHolder(s, id) && id in s.t.tasks && !TakesHeldRow(s, step, id)
    ensures OneHolder(Apply(s, step), id)
  {
    var s' := Apply(s, step);
    RowStep(s, step, id);
    forall j, k | Holds(s', j) && Holds(s', k) && j.task == id && k.task == id && !Terminal(s'.t.tasks[id].status)
      ensures j == k
    {
      HolderWasHolder(s, step, j);
      HolderWasHolder(s, step, k);
    }
  }

  ghost predicate OneHolderKept(d: Discipline, s: State, steps: seq<Step>, id: Id)
    requires IsRun(d, s, steps)
    decreases |steps|
  {
    OneHolder(s, id) && (steps != [] ==> OneHolderKept(d, Apply(s, steps[0]), steps[1..], id))
  }

  ghost predicate NeverTakenWhileHeld(d: Discipline, s: State, steps: seq<Step>, id: Id)
    requires IsRun(d, s, steps)
    decreases |steps|
  {
    steps != [] ==>
      !TakesHeldRow(s, steps[0], id) && NeverTakenWhileHeld(d, Apply(s, steps[0]), steps[1..], id)
  }

  /** Over any run at all, a task has one live holder at every moment exactly if no lock takes it while it is held. */
  lemma {:induction false} OneHolderKeptIff(d: Discipline, s: State, steps: seq<Step>, id: Id)
    requires Wf(s) && OneHolder(s, id) && id in s.t.tasks && IsRun(d, s, steps)
    ensures OneHolderKept(d, s, steps, id) <==> NeverTakenWhileHeld(d, s, steps, id)
    decreases |steps|
  {
    if steps == [] {
    } else {
      var s' := Apply(s, steps[0]);
      WfStep(s, steps[0]);
      RowStep(s, steps[0], id);
      OneHolderIff(s, steps[0], id);
      if OneHolder(s', id) {
        OneHolderKeptIff(d, s', steps[1..], id);
      } else {
        HolderLostNow(d, s', steps[1..], id);
      }
    }
  }

  lemma HolderLostNow(d: Discipline, s: State, steps: seq<Step>, id: Id)
    requires IsRun(d, s, steps) && !OneHolder(s, id)
    ensures !OneHolderKept(d, s, steps, id)
  {
  }

  lemma OneHolderStep(d: Discipline, s: State, step: Step, id: Id)
    requires LeaseRules(d) && LeaseInv(s, d.lease.value) && Enabled(s, step) && Obeys(d, s, step)
    requires id in Apply(s, step).t.tasks
    ensures OneHolder(Apply(s, step), id)
  {
    if id in s.t.tasks {
      if step.Lock? {
        forall k | Holds(s, k) ensures k.task !in step.claimed {
          HeldIsNotRunnable(d, s, step, k);
        }
      }
      OneHolderIff(s, step, id);
    } else {
      NobodyHoldsNewRow(s, step, id);
    }
  }

  lemma NobodyHoldsNewRow(s: State, step: Step, id: Id)
    requires Wf(s) && Enabled(s, step) && id !in s.t.tasks
    ensures forall k :: k in Apply(s, step).jobs ==> k.task != id
  {
    forall k | k in Apply(s, step).jobs ensures k.task != id {
      OtherJobs(s, step, k);
      if k in s.jobs { assert JobFits(s, k); }
    }
  }

  lemma CountsRunsStep(d: Discipline, s: State, step: Step, id: Id)
    requires LeaseRules(d) && LeaseInv(s, d.lease.value) && Enabled(s, step) && Obeys(d, s, step)
    requires id in Apply(s, step).t.tasks
    ensures CountsRuns(Apply(s, step), id)
  {
    if id in s.t.tasks {
      RowStep(s, step, id);
      if s.t.tasks[id].kind == Cyclical {
        OldRowCounts(s, step, id, d.lease.value);
      }
    } else {
      ResultsStep(s, step, id);
      NobodyHoldsNewRow(s, step, id);
      NewRowCounts(s, step, id);
    }
  }

  lemma OldRowCounts(s: State, step: Step, id: Id, lease: int)
    requires LeaseInv(s, lease) && Enabled(s, step) && id in s.t.tasks && s.t.tasks[id].kind == Cyclical
    ensures CountsRuns(Apply(s, step), id)
  {
    var s' := Apply(s, step);
    CounterMatches(s, step, id, lease);
    forall k | Holds(s', k) && k.task == id && !Terminal(s'.t.tasks[id].status)
      ensures s'.jobs[k].snap.currentExecutions == s'.t.tasks[id].currentExecutions
    {
      HolderCounts(s, step, id, k, lease);
    }
  }

  lemma NewRowCounts(s: State, step: Step, id: Id)
    requires Wf(s) && Enabled(s, step) && id !in s.t.tasks && id in Apply(s, step).t.tasks
    ensures Apply(s, step).t.tasks[id].currentExecutions == 0
    ensures !CommitsResult(s, step, id)
  {
  }

  lemma CounterMatches(s: State, step: Step, id: Id, lease: int)
    requires LeaseInv(s, lease) && Enabled(s, step) && id in s.t.tasks && s.t.tasks[id].kind == Cyclical
    ensures id in Apply(s, step).t.tasks
    ensures |ResultsOf(Apply(s, step).t.results, id)| == Apply(s, step).t.tasks[id].currentExecutions
  {
    ResultsStep(s, step, id);
    CounterStep(s, step, id);
    assert CountsRuns(s, id);
    if CommitsResult(s, step, id) {
      assert Holds(s, step.key);
    }
  }

  lemma HolderCounts(s: State, step: Step, id: Id, k: Key, lease: int)
    requires LeaseInv(s, lease) && Enabled(s, step) && id in s.t.tasks && s.t.tasks[id].kind == Cyclical
    requires id in Apply(s, step).t.tasks
    requires Holds(Apply(s, step), k) && k.task == id && !Terminal(Apply(s, step).t.tasks[id].status)
    ensures Apply(s, step).jobs[k].snap.currentExecutions == Apply(s, step).t.tasks[id].currentExecutions
  {
    HolderWasHolder(s, step, k);
    OtherJobs(s, step, k);
    RowStep(s, step, id);
    CounterStep(s, step, id);
    assert CountsRuns(s, id) && OneHolder(s, id);
    if k !in s.jobs {
      LockedRow(s, step, id);
    } else {
      assert !CommitsResult(s, step, id);
    }
  }

  lemma LeaseStep(d: Discipline, s: State, step: Step)
    requires LeaseRules(d) && LeaseInv(s, d.lease.value) && Enabled(s, step) && Obeys(d, s, step)
    ensures LeaseInv(Apply(s, step), d.lease.value)
  {
    var s' := Apply(s, step);
    WfStep(s, step);
    forall k | Holds(s', k) ensures LeaseHeld(s', d.lease.value, k) {
      LeaseHeldStep(d, s, step, k);
    }
    forall id | id in s'.t.tasks ensures OneHolder(s', id) && CountsRuns(s', id) {
      OneHolderStep(d, s, step, id);
      CountsRunsStep(d, s, step, id);
    }
    forall id | id !in s'.t.tasks ensures ResultsOf(s'.t.results, id) == [] {
      if id in s.t.tasks { RowStep(s, step, id); }
      ResultsStep(s, step, id);
      if step.Persist? { assert JobFits(s, step.key); }
    }
  }

  lemma {:induction false} LeaseRun(d: Discipline, s: State, steps: seq<Step>)
    requires LeaseRules(d) && LeaseInv(s, d.lease.value) && IsRun(d, s, steps)
    ensures LeaseInv(Exec(d, s, steps), d.lease.value)
    decreases |steps|
  {
    if steps == [] {
    } else {
      LeaseStep(d, s, steps[0]);
      LeaseRun(d, Apply(s, steps[0]), steps[1..]);
    }
  }

  /**
   If live holders touch their rows before the lease runs out and nothing is drained, an open
   task has at most one live holder, and every cyclical task has as many result
   rows as counted executions.
   */
  lemma LeasesAreExclusive(d: Discipline, steps: seq<Step>, id: Id)
    requires LeaseRules(d) && IsRun(d, INIT, steps)
    ensures var s := Exec(d, INIT, steps);
            id in s.t.tasks ==>
              && OneHolder(s, id)
              && (s.t.tasks[id].kind == Cyclical ==>
                    |ResultsOf(s.t.results, id)| == s.t.tasks[id].currentExecutions)
  {
    LeaseRun(d, INIT, steps);
  }

  /** A heartbeat renews the lease of every row its worker still runs, and starting one does too. */
  lemma HeartbeatRenewsLeases(s: State, batch: nat, k: Key)
    requires Enabled(s, Heartbeat(batch)) && k in s.jobs && k.batch == batch
    requires k.task in s.t.tasks && s.t.tasks[k.task].status in {Queued, Running}
    ensures var s' := Apply(s, Heartbeat(batch));
            && k.task in s'.t.tasks && LastSeen(s'.t.tasks[k.task]) == s.t.now
            && s'.t.tasks[k.task].status == s.t.tasks[k.task].status
            && forall id :: id in s.t.tasks && s'.t.tasks[id] != s.t.tasks[id] ==> Key(batch, id) in s.jobs
  {
    assert k.task in ActiveIds(s, batch);
    forall id | id in ActiveIds(s, batch) ensures Key(batch, id) in s.jobs {
      var j :| j in s.jobs && j.batch == batch && j.task == id;
      assert j == Key(batch, id);
    }
  }

  /** A coroutine runs its pipeline exactly if it finds its row QUEUED; otherwise it goes on to store an error. */
  lemma OnlyQueuedRowsStart(s: State, key: Key)
    requires Enabled(s, Start(key)) && key.task in s.t.tasks
    ensures var s' := Apply(s, Start(key));
            && key in s'.jobs && s'.jobs[key].snap == s.jobs[key].snap
            && (s.t.tasks[key.task].status == Queued ==>
                  s'.jobs[key].phase == Started && s'.t.tasks[key.task].status == Running)
            && (s.t.tasks[key.task].status != Queued ==> s'.jobs[key].phase == Erroring && s'.t == s.t)
  {
  }
}
