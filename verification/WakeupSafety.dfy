/** Who wakes a WAITING root: no wake-up is lost in runs that keep the rules, and the exact steps that lose one. */
module WakeupSafety {
  import opened Common
  import opened TaskTables
  import opened TaskMachine
  import opened TaskInvariants

  // ---- no lost wake-up ------------------------------------------------------

  /** The handler of one of `parent`'s children has yet to count, close or fail it. */
  predicate WillSettle(job: Job, parent: Id) {
    && job.snap.parent == Some(parent)
    && (job.phase.Counting? || job.phase.Closing? || job.phase.FailingParent?)
  }

  ghost predicate Awaited(s: State, parent: Id) {
    || (exists c :: PendingChild(s.t, parent, c))
    || (exists k :: k in s.jobs && WillSettle(s.jobs[k], parent))
  }

  predicate WaitingRow(s: State, id: Id) {
    id in s.t.tasks && s.t.tasks[id].status == Waiting
  }

  ghost predicate NoChildDeleted(s: State) {
    forall id :: id in s.t.tasks && s.t.tasks[id].parent.Some? ==> !s.t.tasks[id].deleted
  }

  /** Once its parent was offered the failure, a handler cancels siblings of a settled parent only. */
  ghost predicate CancelsUnderSettled(s: State) {
    forall k :: k in s.jobs && s.jobs[k].phase.CancellingSiblings? && s.jobs[k].snap.parent.Some?
      ==> !WaitingRow(s, s.jobs[k].snap.parent.value)
  }

  ghost predicate NoLostWakeup(s: State) {
    forall p :: WaitingRow(s, p) ==> Awaited(s, p)
  }

  ghost predicate WakeupInv(s: State) {
    Wf(s) && NoChildDeleted(s) && CancelsUnderSettled(s) && NoLostWakeup(s)
  }

  predicate WakeupRules(d: Discipline) {
    d.handlersComplete && d.noDelete && d.noOwnCancel
  }

  lemma CancelsUnderSettledStep(s: State, step: Step, k: Key)
    requires Wf(s) && NoChildDeleted(s) && CancelsUnderSettled(s) && Enabled(s, step)
    requires k in Apply(s, step).jobs && Apply(s, step).jobs[k].phase.CancellingSiblings?
    requires Apply(s, step).jobs[k].snap.parent.Some?
    ensures !WaitingRow(Apply(s, step), Apply(s, step).jobs[k].snap.parent.value)
  {
    OtherJobs(s, step, k);
    var p := s.jobs[k].snap.parent.value;
    assert JobFits(s, k) && RowFits(s, k.task);
    if s.jobs[k].phase.CancellingSiblings? {
      assert FailedLiveChild(s.t, p, k.task, true);
      StaysSettled(s, step, p, k.task);
    } else {
      EntersCancelling(s, step, k);
      FailedParentSettles(s, k);
    }
  }

  lemma FailedParentSettles(s: State, k: Key)
    requires Wf(s) && Enabled(s, Handle(k)) && s.jobs[k].phase.FailingParent?
    ensures !WaitingRow(Apply(s, Handle(k)), s.jobs[k].snap.parent.value)
  {
  }

  lemma StaysSettled(s: State, step: Step, p: Id, c: Id)
    requires Wf(s) && Enabled(s, step) && p in s.t.tasks && !WaitingRow(s, p) && FailedLiveChild(s.t, p, c, true)
    ensures !WaitingRow(Apply(s, step), p)
  {
    RowStep(s, step, p);
  }

  lemma EntersCancelling(s: State, step: Step, k: Key)
    requires Enabled(s, step) && k in s.jobs && !s.jobs[k].phase.CancellingSiblings?
    requires k in Apply(s, step).jobs && Apply(s, step).jobs[k].phase.CancellingSiblings?
    requires !step.Lock?
    ensures step == Handle(k) && s.jobs[k].phase == FailingParent(true)
  {
  }

  // ---- the steps that lose a wake-up ------------------------------------------

  predicate Settler(s: State, p: Id, k: Key) {
    k in s.jobs && WillSettle(s.jobs[k], p)
  }

  ghost predicate NothingOpen(s: State, p: Id) {
    forall c :: !PendingChild(s.t, p, c)
  }

  /** `c` is all that is open under `p`, and no handler will settle `p`. */
  ghost predicate LastHope(s: State, p: Id, c: Id) {
    && PendingChild(s.t, p, c)
    && (forall other :: PendingChild(s.t, p, other) ==> other == c)
    && (forall k :: !Settler(s, p, k))
  }

  /**
   The steps after which nothing is left to wake a WAITING `p`: its last open child is soft-deleted or stored
   CANCELLED by its own worker; a handler cancels all that is open under `p` though nobody will settle `p`; a
   non-blocking failure finds no failed child any more; or the last settling handlers are cut off.
   */
  ghost predicate Strands(s: State, step: Step, p: Id)
    requires Enabled(s, step)
  {
    match step
    case Delete(id) => LastHope(s, p, id)
    case Persist(key, candidate, _, _) => candidate == Cancelled && LastHope(s, p, key.task)
    case Handle(key) =>
      s.jobs[key].snap.parent == Some(p) && HandlerStrands(s, key, p)
    case Abort(key) => NothingOpen(s, p) && forall k :: Settler(s, p, k) ==> k == key
    case Crash(batch) => NothingOpen(s, p) && forall k :: Settler(s, p, k) ==> k.batch == batch
    case Stop(batch) => NothingOpen(s, p) && forall k :: Settler(s, p, k) ==> k.batch == batch
    case _ => false
  }

  ghost predicate HandlerStrands(s: State, key: Key, p: Id)
    requires key in s.jobs
  {
    match s.jobs[key].phase
    case CancellingSiblings =>
      && (forall k :: !Settler(s, p, k))
      && (forall c :: PendingChild(s.t, p, c) ==> Cancellable(s.t.tasks[c].status))
    case Counting(ok) =>
      && !ok && NothingOpen(s, p)
      && (forall c, blocking :: !FailedLiveChild(s.t, p, c, blocking))
      && (forall k :: Settler(s, p, k) ==> k == key)
    case _ => false
  }

  /** `p` waits before and after the step, and was awaited before it. */
  ghost predicate GoesOnWaiting(s: State, step: Step, p: Id) {
    Wf(s) && Enabled(s, step) && Awaited(s, p) && WaitingRow(s, p) && WaitingRow(Apply(s, step), p)
  }

  predicate Cuts(step: Step) {
    step.Abort? || step.Crash? || step.Stop?
  }

  lemma ChildrenSurvive(s: State, step: Step, p: Id)
    requires GoesOnWaiting(s, step, p) && !step.Delete? && !step.Persist? && !step.Handle?
    ensures forall c :: PendingChild(s.t, p, c) ==> PendingChild(Apply(s, step).t, p, c)
  {
    forall c | PendingChild(s.t, p, c) ensures PendingChild(Apply(s, step).t, p, c) {
      RowStep(s, step, c);
    }
  }

  lemma SettlersSurvive(s: State, step: Step, p: Id)
    requires GoesOnWaiting(s, step, p) && !step.Handle? && !Cuts(step)
    ensures forall k :: Settler(s, p, k) ==> Settler(Apply(s, step), p, k)
  {
    forall k | Settler(s, p, k) ensures Settler(Apply(s, step), p, k) {
      JobStays(s, step, k);
    }
  }

  /** A job becomes a settler only by persisting, or by going on in its own handler. */
  lemma NewSettler(s: State, step: Step, p: Id, k: Key)
    requires Wf(s) && Enabled(s, step) && Settler(Apply(s, step), p, k) && !Settler(s, p, k)
    ensures step.Persist? && step.key == k && s.jobs[k].snap.parent == Some(p) && Persists(s.t, k.task)
    ensures CyclicalParams(step.candidate, s.jobs[k].snap, s.t.now).0 in {Finished, Failed}
  {
    OtherJobs(s, step, k);
  }

  lemma QuietKeepsAwaited(s: State, step: Step, p: Id)
    requires GoesOnWaiting(s, step, p)
    requires !step.Delete? && !step.Persist? && !step.Handle? && !Cuts(step)
    ensures Awaited(Apply(s, step), p)
  {
    ChildrenSurvive(s, step, p);
    SettlersSurvive(s, step, p);
    AwaitedBySame(s, Apply(s, step), p);
  }

  lemma AwaitedBySame(s: State, s': State, p: Id)
    requires Awaited(s, p)
    requires forall c :: PendingChild(s.t, p, c) ==> PendingChild(s'.t, p, c)
    requires forall k :: Settler(s, p, k) ==> Settler(s', p, k)
    ensures Awaited(s', p)
  {
    if c :| PendingChild(s.t, p, c) {
      assert PendingChild(s'.t, p, c);
    } else {
      var k :| k in s.jobs && WillSettle(s.jobs[k], p);
      assert Settler(s, p, k) && Settler(s', p, k);
    }
  }

  lemma DeleteStrandsIff(s: State, step: Step, p: Id)
    requires GoesOnWaiting(s, step, p) && step.Delete?
    ensures Awaited(Apply(s, step), p) <==> !Strands(s, step, p)
  {
    var s' := Apply(s, step);
    assert forall c :: PendingChild(s'.t, p, c) <==> PendingChild(s.t, p, c) && c != step.id;
    assert forall k :: Settler(s', p, k) <==> Settler(s, p, k);
    if LastHope(s, p, step.id) {
      assert forall k :: k in s'.jobs && WillSettle(s'.jobs[k], p) ==> Settler(s', p, k);
    } else {
      StillHope(s, s', p, step.id);
    }
  }

  /** With one child gone, hope remains exactly if that child was not the last. */
  lemma StillHope(s: State, s': State, p: Id, gone: Id)
    requires Awaited(s, p) && !LastHope(s, p, gone)
    requires forall c :: PendingChild(s.t, p, c) && c != gone ==> PendingChild(s'.t, p, c)
    requires forall k :: Settler(s, p, k) ==> Settler(s', p, k)
    ensures Awaited(s', p)
  {
    if k :| Settler(s, p, k) {
      assert Settler(s', p, k);
    } else {
      assert forall k :: k in s.jobs && WillSettle(s.jobs[k], p) ==> Settler(s, p, k);
      var c :| PendingChild(s.t, p, c) && c != gone;
      assert PendingChild(s'.t, p, c);
    }
  }

  lemma CutStrandsIff(s: State, step: Step, p: Id)
    requires GoesOnWaiting(s, step, p) && Cuts(step)
    ensures Awaited(Apply(s, step), p) <==> !Strands(s, step, p)
  {
    var s' := Apply(s, step);
    ChildrenSurvive(s, step, p);
    assert s'.t == s.t;
    assert forall k :: Settler(s', p, k) <==>
      Settler(s, p, k) && (if step.Abort? then k != step.key else k.batch != step.batch);
    assert forall k :: k in s'.jobs && WillSettle(s'.jobs[k], p) <==> Settler(s', p, k);
  }

  // ---- a persist ----------------------------------------------------------------

  /** The rows of other children of `p`, under a persist that leaves `p` waiting. */
  lemma SiblingsUnderPersist(s: State, step: Step, p: Id, c: Id)
    requires Wf(s) && Enabled(s, step) && step.Persist? && c in s.t.tasks && s.t.tasks[c].parent == Some(p)
    requires c != step.key.task && WaitingRow(Apply(s, step), p)
    ensures c in Apply(s, step).t.tasks && Apply(s, step).t.tasks[c] == s.t.tasks[c]
  {
    PersistRow(s.t, step.key.task, s.jobs[step.key].snap, step.candidate, step.payload, step.body, c);
  }

  lemma OpenUnderPersist(s: State, step: Step, p: Id)
    requires Wf(s) && Enabled(s, step) && step.Persist? && WaitingRow(Apply(s, step), p)
    ensures forall c :: c != step.key.task ==> (PendingChild(Apply(s, step).t, p, c) <==> PendingChild(s.t, p, c))
  {
    var s' := Apply(s, step);
    assert s'.t.tasks.Keys == s.t.tasks.Keys;
    forall c | c != step.key.task ensures PendingChild(s'.t, p, c) <==> PendingChild(s.t, p, c) {
      if c in s.t.tasks {
        RowStep(s, step, c);
        if s.t.tasks[c].parent == Some(p) { SiblingsUnderPersist(s, step, p, c); }
      }
    }
  }

  /** A committed outcome of a child leaves it open, or hands over to its handler, or is CANCELLED. */
  lemma OwnOutcome(s: State, step: Step, p: Id)
    requires Wf(s) && Enabled(s, step) && step.Persist? && PendingChild(s.t, p, step.key.task)
    ensures step.candidate != Cancelled ==>
              PendingChild(Apply(s, step).t, p, step.key.task) || Settler(Apply(s, step), p, step.key)
    ensures step.candidate == Cancelled ==>
              !PendingChild(Apply(s, step).t, p, step.key.task) && !Settler(Apply(s, step), p, step.key)
  {
    assert JobFits(s, step.key);
    PersistRow(s.t, step.key.task, s.jobs[step.key].snap, step.candidate, step.payload, step.body, step.key.task);
  }

  lemma PersistStrandsIff(s: State, step: Step, p: Id)
    requires GoesOnWaiting(s, step, p) && step.Persist?
    ensures Awaited(Apply(s, step), p) <==> !Strands(s, step, p)
  {
    var s' := Apply(s, step);
    var child := step.key.task;
    OpenUnderPersist(s, step, p);
    SettlersSurvive(s, step, p);
    if PendingChild(s.t, p, child) {
      OwnOutcome(s, step, p);
      if Strands(s, step, p) {
        forall k ensures !Settler(s', p, k) {
          if Settler(s', p, k) { NewSettler(s, step, p, k); }
        }
        NotAwaited(s', p);
      } else if step.candidate == Cancelled {
        StillHope(s, s', p, child);
      } else if PendingChild(s'.t, p, child) {
      } else {
        assert Settler(s', p, step.key);
      }
    } else {
      AwaitedBySame(s, s', p);
    }
  }

  lemma NotAwaited(s: State, p: Id)
    requires NothingOpen(s, p) && forall k :: !Settler(s, p, k)
    ensures !Awaited(s, p)
  {
    assert forall k :: k in s.jobs && WillSettle(s.jobs[k], p) ==> Settler(s, p, k);
  }

  // ---- one transaction of a handler ----------------------------------------------

  /** A handler of another root's child changes neither the children of `p` nor its settlers. */
  lemma OtherHandlerKeepsAwaited(s: State, step: Step, p: Id)
    requires GoesOnWaiting(s, step, p) && step.Handle? && s.jobs[step.key].snap.parent != Some(p)
    ensures Awaited(Apply(s, step), p)
  {
    var s' := Apply(s, step);
    var parent := s.jobs[step.key].snap.parent.value;
    assert JobFits(s, step.key);
    forall c | PendingChild(s.t, p, c) ensures PendingChild(s'.t, p, c) {
      HandlerRow(s.t, parent, s.jobs[step.key].phase, c);
      assert RowFits(s, c);
    }
    forall k | Settler(s, p, k) ensures Settler(s', p, k) {
      JobStays(s, step, k);
    }
    AwaitedBySame(s, s', p);
  }

  lemma CancellingLeaves(s: State, step: Step, p: Id)
    requires Enabled(s, step) && step.Handle? && s.jobs[step.key].snap.parent == Some(p)
    requires s.jobs[step.key].phase.CancellingSiblings?
    ensures var s' := Apply(s, step);
            && (forall c :: PendingChild(s'.t, p, c) <==>
                  PendingChild(s.t, p, c) && !Cancellable(s.t.tasks[c].status))
            && (forall k :: Settler(s', p, k) <==> Settler(s, p, k))
  {
    var s' := Apply(s, step);
    assert s'.t == CancelOpenSubtasks(s.t, p) && s'.jobs == s.jobs - {step.key};
  }

  lemma CancellingStrandsIff(s: State, step: Step, p: Id)
    requires GoesOnWaiting(s, step, p) && step.Handle? && s.jobs[step.key].snap.parent == Some(p)
    requires s.jobs[step.key].phase.CancellingSiblings?
    ensures Awaited(Apply(s, step), p) <==> !Strands(s, step, p)
  {
    var s' := Apply(s, step);
    CancellingLeaves(s, step, p);
    if Strands(s, step, p) {
      NotAwaited(s', p);
    } else if k :| Settler(s, p, k) {
      assert Settler(s', p, k);
    } else {
      var c :| PendingChild(s.t, p, c) && !Cancellable(s.t.tasks[c].status);
      assert PendingChild(s'.t, p, c);
    }
  }

  lemma CountingLeaves(s: State, step: Step, p: Id)
    requires Enabled(s, step) && step.Handle? && s.jobs[step.key].snap.parent == Some(p)
    requires s.jobs[step.key].phase.Counting?
    ensures var s' := Apply(s, step);
            && s'.t == s.t
            && (forall k :: k != step.key ==> (Settler(s', p, k) <==> Settler(s, p, k)))
            && (Settler(s', p, step.key) <==> AfterHandler(s.t, p, s.jobs[step.key].phase).Some?)
  {
  }

  lemma CountingStrandsIff(s: State, step: Step, p: Id)
    requires GoesOnWaiting(s, step, p) && step.Handle? && s.jobs[step.key].snap.parent == Some(p)
    requires s.jobs[step.key].phase.Counting?
    ensures Awaited(Apply(s, step), p) <==> !Strands(s, step, p)
  {
    var s' := Apply(s, step);
    var next := AfterHandler(s.t, p, s.jobs[step.key].phase);
    CountsAreExistence(s.t, p);
    CountingLeaves(s, step, p);
    if c :| PendingChild(s.t, p, c) {
      assert PendingChild(s'.t, p, c);
    } else if next.Some? {
      assert Settler(s', p, step.key);
    } else if Strands(s, step, p) {
      NotAwaited(s', p);
    } else {
      assert forall c :: !FailedLiveChild(s.t, p, c, true) && !FailedLiveChild(s.t, p, c, false);
      var k :| Settler(s, p, k) && k != step.key;
      assert Settler(s', p, k);
    }
  }

  lemma HandleStrandsIff(s: State, step: Step, p: Id)
    requires GoesOnWaiting(s, step, p) && step.Handle?
    ensures Awaited(Apply(s, step), p) <==> !Strands(s, step, p)
  {
    if s.jobs[step.key].snap.parent != Some(p) {
      OtherHandlerKeepsAwaited(s, step, p);
    } else {
      match s.jobs[step.key].phase
      case CancellingSiblings => CancellingStrandsIff(s, step, p);
      case Counting(_) => CountingStrandsIff(s, step, p);
      case _ => assert false;
    }
  }

  /** The exact condition: a step takes the last hope from a WAITING root exactly if it strands it. */
  lemma WakeupKeptIff(s: State, step: Step, p: Id)
    requires Wf(s) && Enabled(s, step) && Awaited(s, p) && WaitingRow(s, p) && WaitingRow(Apply(s, step), p)
    ensures Awaited(Apply(s, step), p) <==> !Strands(s, step, p)
  {
    if step.Delete? {
      DeleteStrandsIff(s, step, p);
    } else if step.Persist? {
      PersistStrandsIff(s, step, p);
    } else if step.Handle? {
      HandleStrandsIff(s, step, p);
    } else if Cuts(step) {
      CutStrandsIff(s, step, p);
    } else {
      QuietKeepsAwaited(s, step, p);
    }
  }

  /** A root that starts to wait has an open child. */
  lemma StartsAwaited(s: State, step: Step, p: Id)
    requires Wf(s) && Enabled(s, step) && !WaitingRow(s, p) && WaitingRow(Apply(s, step), p)
    ensures Awaited(Apply(s, step), p)
  {
    RowStep(s, step, p);
    var c :| PendingChild(s.t, p, c);
    PersistRow(s.t, p, s.jobs[step.key].snap, step.candidate, step.payload, step.body, c);
    assert c != p by { assert JobFits(s, step.key); }
    assert PendingChild(Apply(s, step).t, p, c);
  }

  // ---- whole runs ------------------------------------------------------------------

  ghost predicate WakeupsKept(d: Discipline, s: State, steps: seq<Step>)
    requires IsRun(d, s, steps)
    decreases |steps|
  {
    NoLostWakeup(s) && (steps != [] ==> WakeupsKept(d, Apply(s, steps[0]), steps[1..]))
  }

  ghost predicate StrandsNobody(s: State, step: Step)
    requires Enabled(s, step)
  {
    forall p :: WaitingRow(s, p) && WaitingRow(Apply(s, step), p) ==> !Strands(s, step, p)
  }

  ghost predicate NobodyStranded(d: Discipline, s: State, steps: seq<Step>)
    requires IsRun(d, s, steps)
    decreases |steps|
  {
    steps != [] ==> StrandsNobody(s, steps[0]) && NobodyStranded(d, Apply(s, steps[0]), steps[1..])
  }

  lemma NoLostWakeupStepIff(s: State, step: Step)
    requires Wf(s) && NoLostWakeup(s) && Enabled(s, step)
    ensures NoLostWakeup(Apply(s, step)) <==> StrandsNobody(s, step)
  {
    var s' := Apply(s, step);
    forall p | WaitingRow(s', p) && !WaitingRow(s, p) ensures Awaited(s', p) {
      StartsAwaited(s, step, p);
    }
    forall p | WaitingRow(s, p) && WaitingRow(s', p) ensures Awaited(s', p) <==> !Strands(s, step, p) {
      WakeupKeptIff(s, step, p);
    }
  }

  /** Over any run at all, wake-ups are kept at every moment exactly if no step of the run strands a waiting root. */
  lemma {:induction false} WakeupsKeptIff(d: Discipline, s: State, steps: seq<Step>)
    requires Wf(s) && NoLostWakeup(s) && IsRun(d, s, steps)
    ensures WakeupsKept(d, s, steps) <==> NobodyStranded(d, s, steps)
    decreases |steps|
  {
    if steps == [] {
    } else {
      var s' := Apply(s, steps[0]);
      WfStep(s, steps[0]);
      NoLostWakeupStepIff(s, steps[0]);
      if NoLostWakeup(s') {
        WakeupsKeptIff(d, s', steps[1..]);
      } else {
        LostNow(d, s', steps[1..]);
      }
    }
  }

  lemma LostNow(d: Discipline, s: State, steps: seq<Step>)
    requires IsRun(d, s, steps) && !NoLostWakeup(s)
    ensures !WakeupsKept(d, s, steps)
  {
  }

  /** Rules a run can follow to strand nobody. */
  lemma RulesStrandNobody(d: Discipline, s: State, step: Step, p: Id)
    requires WakeupInv(s) && WakeupRules(d) && Enabled(s, step) && Obeys(d, s, step)
    requires WaitingRow(s, p)
    ensures !Strands(s, step, p)
  {
    if step.Handle? && s.jobs[step.key].phase == Counting(false) {
      assert JobFits(s, step.key);
      assert s.jobs[step.key].snap.parent == Some(p) ==> FailedLiveChild(s.t, p, step.key.task, false);
    } else if step.Persist? {
      assert JobFits(s, step.key);
    } else if Cuts(step) {
      assert Awaited(s, p);
      if NothingOpen(s, p) {
        var k :| k in s.jobs && WillSettle(s.jobs[k], p);
        assert Settler(s, p, k);
      }
    }
  }

  lemma ChildrenStayUndeleted(d: Discipline, s: State, step: Step)
    requires Wf(s) && NoChildDeleted(s) && d.noDelete && Enabled(s, step) && Obeys(d, s, step)
    ensures NoChildDeleted(Apply(s, step))
  {
    forall id | id in Apply(s, step).t.tasks && Apply(s, step).t.tasks[id].parent.Some?
      ensures !Apply(s, step).t.tasks[id].deleted
    {
      if id in s.t.tasks { RowStep(s, step, id); }
    }
  }

  lemma WakeupStep(d: Discipline, s: State, step: Step)
    requires WakeupInv(s) && WakeupRules(d) && Enabled(s, step) && Obeys(d, s, step)
    ensures WakeupInv(Apply(s, step))
  {
    var s' := Apply(s, step);
    WfStep(s, step);
    ChildrenStayUndeleted(d, s, step);
    forall k | k in s'.jobs && s'.jobs[k].phase.CancellingSiblings? && s'.jobs[k].snap.parent.Some?
      ensures !WaitingRow(s', s'.jobs[k].snap.parent.value)
    {
      CancelsUnderSettledStep(s, step, k);
    }
    forall p | WaitingRow(s, p) ensures !Strands(s, step, p) {
      RulesStrandNobody(d, s, step, p);
    }
    NoLostWakeupStepIff(s, step);
  }

  lemma {:induction false} WakeupRun(d: Discipline, s: State, steps: seq<Step>)
    requires WakeupInv(s) && WakeupRules(d) && IsRun(d, s, steps)
    ensures WakeupInv(Exec(d, s, steps))
    decreases |steps|
  {
    if steps == [] {
    } else {
      WakeupStep(d, s, steps[0]);
      WakeupRun(d, Apply(s, steps[0]), steps[1..]);
    }
  }

  /** No handler of a child of `parent` is between its transactions. */
  ghost predicate NoHandlerFor(s: State, parent: Id) {
    forall k :: k in s.jobs && s.jobs[k].snap.parent == Some(parent) ==> !InHandler(s.jobs[k].phase)
  }

  /**
   In every reachable state a WAITING root has a live open child or a handler that will
   still settle it. So a quiet root with no open child is not WAITING.
   */
  lemma NoWakeupIsLost(d: Discipline, steps: seq<Step>, p: Id)
    requires WakeupRules(d) && IsRun(d, INIT, steps)
    ensures WaitingRow(Exec(d, INIT, steps), p) ==> Awaited(Exec(d, INIT, steps), p)
    ensures var s := Exec(d, INIT, steps);
            NoHandlerFor(s, p) && CountSubtasks(s.t, p).pendingOpen == 0 ==> !WaitingRow(s, p)
  {
    WakeupRun(d, INIT, steps);
    CountsAreExistence(Exec(d, INIT, steps).t, p);
  }
}
