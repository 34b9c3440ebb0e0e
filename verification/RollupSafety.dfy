/** Parent and child statuses over whole runs: faithful verdicts and no forgotten failure. */
module RollupSafety {
  import opened Common
  import opened TaskTables
  import opened TaskMachine
  import opened TaskInvariants
  import opened WakeupSafety

  // ---- faithful verdicts ----------------------------------------------------

  ghost predicate AllChildrenTerminal(t: Tables, p: Id) {
    forall c :: !PendingChild(t, p, c)
  }

  ghost predicate NoBlockingFailure(t: Tables, p: Id) {
    forall c :: !FailedLiveChild(t, p, c, true)
  }

  ghost predicate NoOtherFailure(t: Tables, p: Id) {
    forall c :: !FailedLiveChild(t, p, c, false)
  }

  /** A failed non-blocking child, soft-deleted since or not. */
  ghost predicate SomeOtherFailure(t: Tables, p: Id) {
    exists c :: c in t.tasks && t.tasks[c].parent == Some(p) && FailedChild(t.tasks[c].status) && !t.tasks[c].isBlock
  }

  /** What a success verdict claims about the children of `p`. */
  ghost predicate VerdictHolds(t: Tables, p: Id, verdict: Status) {
    && AllChildrenTerminal(t, p) && NoBlockingFailure(t, p)
    && (verdict == Finished ==> NoOtherFailure(t, p))
    && (verdict == FinishedWithError ==> SomeOtherFailure(t, p))
  }

  predicate SuccessfulRoot(s: State, p: Id) {
    p in s.t.tasks && s.t.tasks[p].parent.None? && s.t.tasks[p].status in {Finished, FinishedWithError}
  }

  ghost predicate VerdictInv(s: State) {
    && Wf(s)
    && (forall p :: SuccessfulRoot(s, p) ==> VerdictHolds(s.t, p, s.t.tasks[p].status))
    && (forall k :: k in s.jobs && s.jobs[k].phase.Closing? && s.jobs[k].snap.parent.Some?
          ==> VerdictHolds(s.t, s.jobs[k].snap.parent.value, s.jobs[k].phase.verdict))
  }

  predicate VerdictRules(d: Discipline) {
    d.guardedInsert && d.noUndelete
  }

  /** `p` was stored with verdict `v`, or a handler is about to store it. */
  ghost predicate Claimed(s: State, p: Id, v: Status) {
    || (SuccessfulRoot(s, p) && s.t.tasks[p].status == v)
    || (exists k :: k in s.jobs && s.jobs[k].phase == Closing(v) && s.jobs[k].snap.parent == Some(p))
  }

  /** The steps that belie a verdict on `p`: a child is inserted, or one that contradicts the verdict is undeleted. */
  predicate Upsets(s: State, step: Step, p: Id, v: Status) {
    || (step.Insert? && step.row.parent == Some(p))
    || (&& step.Undelete? && step.id in s.t.tasks && s.t.tasks[step.id].deleted
        && s.t.tasks[step.id].parent == Some(p) && Contradicts(s.t.tasks[step.id], v))
  }

  predicate Contradicts(child: Task, v: Status) {
    !Terminal(child.status) || (FailedChild(child.status) && (child.isBlock || v == Finished))
  }

  /** What a verdict says of one child. */
  lemma VerdictByChild(t: Tables, p: Id, v: Status)
    requires v in {Finished, FinishedWithError}
    ensures VerdictHolds(t, p, v) <==>
              && (forall c :: LiveChild(t, p, c) ==> !Contradicts(t.tasks[c], v))
              && (v == FinishedWithError ==> SomeOtherFailure(t, p))
  {
    if forall c :: LiveChild(t, p, c) ==> !Contradicts(t.tasks[c], v) {
      assert forall c, blocking :: FailedLiveChild(t, p, c, blocking) ==> LiveChild(t, p, c);
      assert forall c :: PendingChild(t, p, c) ==> LiveChild(t, p, c);
    }
    if VerdictHolds(t, p, v) {
      forall c | LiveChild(t, p, c) ensures !Contradicts(t.tasks[c], v) {
        assert !PendingChild(t, p, c) && !FailedLiveChild(t, p, c, true);
        assert v == Finished ==> !FailedLiveChild(t, p, c, false);
      }
    }
  }

  /** A child of a settled root stays settled, and comes back to life only by an undelete. */
  lemma SettledChildStays(s: State, step: Step, p: Id, c: Id, v: Status)
    requires Wf(s) && Enabled(s, step) && c in s.t.tasks && !Upsets(s, step, p, v)
    requires s.t.tasks[c].parent == Some(p) && (LiveChild(s.t, p, c) ==> !Contradicts(s.t.tasks[c], v))
    ensures LiveChild(Apply(s, step).t, p, c) ==> !Contradicts(Apply(s, step).t.tasks[c], v)
  {
    RowStep(s, step, c);
  }

  /** A verdict, once true of settled children, stays true unless a step upsets it. */
  lemma VerdictSurvives(s: State, step: Step, p: Id, v: Status)
    requires Wf(s) && Enabled(s, step) && v in {Finished, FinishedWithError}
    requires VerdictHolds(s.t, p, v) && !Upsets(s, step, p, v)
    ensures VerdictHolds(Apply(s, step).t, p, v)
  {
    var t' := Apply(s, step).t;
    VerdictByChild(s.t, p, v);
    VerdictByChild(t', p, v);
    forall c | LiveChild(t', p, c) ensures !Contradicts(t'.tasks[c], v) {
      if c in s.t.tasks {
        RowStep(s, step, c);
        SettledChildStays(s, step, p, c, v);
      }
    }
    if v == FinishedWithError {
      FailureStaysRecorded(s, step, p);
    }
  }

  lemma FailureStaysRecorded(s: State, step: Step, p: Id)
    requires Wf(s) && Enabled(s, step) && SomeOtherFailure(s.t, p)
    ensures SomeOtherFailure(Apply(s, step).t, p)
  {
    var c :| c in s.t.tasks && s.t.tasks[c].parent == Some(p) && FailedChild(s.t.tasks[c].status)
             && !s.t.tasks[c].isBlock;
    RowStep(s, step, c);
  }

  /** An upsetting step leaves a live child that contradicts the verdict. */
  lemma UpsetBreaksVerdict(s: State, step: Step, p: Id, v: Status)
    requires Enabled(s, step) && v in {Finished, FinishedWithError} && Upsets(s, step, p, v)
    ensures !VerdictHolds(Apply(s, step).t, p, v)
  {
    VerdictByChild(Apply(s, step).t, p, v);
    assert LiveChild(Apply(s, step).t, p, step.id);
  }

  /** The tallies say exactly what a verdict claims. */
  lemma CountsGiveVerdict(t: Tables, p: Id)
    ensures var counts := CountSubtasks(t, p);
            && (counts.pendingOpen == 0 <==> AllChildrenTerminal(t, p))
            && (counts.failedBlocking == 0 <==> NoBlockingFailure(t, p))
            && (counts.failedNonBlocking == 0 <==> NoOtherFailure(t, p))
            && (counts.failedNonBlocking > 0 ==> SomeOtherFailure(t, p))
  {
    CountsAreExistence(t, p);
    if c :| FailedLiveChild(t, p, c, false) {
      assert c in t.tasks && t.tasks[c].parent == Some(p) && FailedChild(t.tasks[c].status) && !t.tasks[c].isBlock;
    }
  }

  lemma PersistEarnsVerdict(t: Tables, p: Id, snap: Task, candidate: Status, payload: Option<string>, body: string)
    requires Persists(t, p) && candidate in {Finished, Failed, Cancelled} && snap.parent.None?
    ensures var status := PersistOutcome(t, p, snap, candidate, payload, body).tasks[p].status;
            status in {Finished, FinishedWithError} ==> VerdictHolds(t, p, status)
  {
    PersistRow(t, p, snap, candidate, payload, body, p);
    CountsGiveVerdict(t, p);
  }

  lemma RootEarnsVerdict(s: State, step: Step, p: Id)
    requires VerdictInv(s) && Enabled(s, step)
    requires SuccessfulRoot(Apply(s, step), p) && !SuccessfulRoot(s, p)
    ensures !Upsets(s, step, p, Apply(s, step).t.tasks[p].status)
    ensures VerdictHolds(Apply(s, step).t, p, Apply(s, step).t.tasks[p].status)
  {
    var verdict := Apply(s, step).t.tasks[p].status;
    assert p in s.t.tasks;
    RowStep(s, step, p);
    if step.Persist? {
      assert JobFits(s, step.key);
      assert step.key.task == p;
      PersistEarnsVerdict(s.t, p, s.jobs[step.key].snap, step.candidate, step.payload, step.body);
    } else {
      assert SettlesWaiting(s, step, p);
      assert s.jobs[step.key].phase == Closing(verdict);
    }
    VerdictSurvives(s, step, p, verdict);
  }

  lemma CountingGivesVerdict(s: State, k: Key)
    requires Wf(s) && Enabled(s, Handle(k)) && !s.jobs[k].phase.Closing?
    ensures var next := AfterHandler(s.t, s.jobs[k].snap.parent.value, s.jobs[k].phase);
            next.Some? && next.value.Closing? ==> VerdictHolds(s.t, s.jobs[k].snap.parent.value, next.value.verdict)
  {
    CountsGiveVerdict(s.t, s.jobs[k].snap.parent.value);
  }

  lemma CloserHasVerdict(s: State, step: Step, k: Key)
    requires VerdictInv(s) && Enabled(s, step)
    requires k in Apply(s, step).jobs && Apply(s, step).jobs[k].phase.Closing?
    requires Apply(s, step).jobs[k].snap.parent.Some?
    requires k in s.jobs ==> !Upsets(s, step, s.jobs[k].snap.parent.value, Apply(s, step).jobs[k].phase.verdict)
    ensures VerdictHolds(Apply(s, step).t, Apply(s, step).jobs[k].snap.parent.value,
                         Apply(s, step).jobs[k].phase.verdict)
  {
    EntersClosing(s, step, k);
    HadVerdict(s, k, Apply(s, step).jobs[k]);
    VerdictSurvives(s, step, s.jobs[k].snap.parent.value, Apply(s, step).jobs[k].phase.verdict);
  }

  /** What a handler's count makes of its job. */
  predicate CountedTo(s: State, k: Key, job: Job)
    requires k in s.jobs
  {
    && s.jobs[k].snap.parent.Some? && job.snap == s.jobs[k].snap && !s.jobs[k].phase.Closing?
    && InHandler(s.jobs[k].phase) && AfterHandler(s.t, job.snap.parent.value, s.jobs[k].phase) == Some(job.phase)
  }

  lemma EntersClosing(s: State, step: Step, k: Key)
    requires Wf(s) && Enabled(s, step) && k in Apply(s, step).jobs && Apply(s, step).jobs[k].phase.Closing?
    ensures k in s.jobs && (Apply(s, step).jobs[k] == s.jobs[k] || CountedTo(s, k, Apply(s, step).jobs[k]))
  {
    OtherJobs(s, step, k);
  }

  /** A handler that is to close has its verdict's truth already. */
  lemma HadVerdict(s: State, k: Key, job: Job)
    requires VerdictInv(s) && k in s.jobs && s.jobs[k].snap.parent.Some? && job.phase.Closing?
    requires job == s.jobs[k] || CountedTo(s, k, job)
    ensures VerdictHolds(s.t, job.snap.parent.value, job.phase.verdict)
    ensures job.phase.verdict in {Finished, FinishedWithError}
  {
    assert JobFits(s, k);
    if job != s.jobs[k] {
      CountingGivesVerdict(s, k);
    }
  }

  /** The step upsets no verdict that is stored or about to be stored. */
  ghost predicate UpsetsNone(s: State, step: Step) {
    forall p, v :: Claimed(s, p, v) ==> !Upsets(s, step, p, v)
  }

  lemma NoUpsetKeepsVerdicts(s: State, step: Step)
    requires VerdictInv(s) && Enabled(s, step) && UpsetsNone(s, step)
    ensures VerdictInv(Apply(s, step))
  {
    var s' := Apply(s, step);
    WfStep(s, step);
    forall p | SuccessfulRoot(s', p) ensures VerdictHolds(s'.t, p, s'.t.tasks[p].status) {
      if SuccessfulRoot(s, p) {
        RowStep(s, step, p);
        assert Claimed(s, p, s.t.tasks[p].status);
        VerdictSurvives(s, step, p, s.t.tasks[p].status);
      } else {
        RootEarnsVerdict(s, step, p);
      }
    }
    forall k | k in s'.jobs && s'.jobs[k].phase.Closing? && s'.jobs[k].snap.parent.Some?
      ensures VerdictHolds(s'.t, s'.jobs[k].snap.parent.value, s'.jobs[k].phase.verdict)
    {
      ClosingWasClaimed(s, step, k);
      CloserHasVerdict(s, step, k);
    }
  }

  /** A handler that is about to close either was so before, or has just counted. */
  lemma ClosingWasClaimed(s: State, step: Step, k: Key)
    requires Wf(s) && Enabled(s, step) && k in Apply(s, step).jobs && Apply(s, step).jobs[k].phase.Closing?
    requires Apply(s, step).jobs[k].snap.parent.Some?
    ensures k in s.jobs && s.jobs[k].snap.parent == Apply(s, step).jobs[k].snap.parent
    ensures step == Handle(k) || Claimed(s, s.jobs[k].snap.parent.value, Apply(s, step).jobs[k].phase.verdict)
  {
    OtherJobs(s, step, k);
  }

  /** A claim outlives an insert or an undelete, so an upset shows. */
  lemma UpsetShows(s: State, step: Step, p: Id, v: Status)
    requires VerdictInv(s) && Enabled(s, step) && Claimed(s, p, v) && Upsets(s, step, p, v)
    ensures !VerdictInv(Apply(s, step))
  {
    ClaimIsSuccess(s, p, v);
    InsertTouchesNoJob(s, step, p);
    ClaimCarries(s, Apply(s, step), p, v);
    UpsetBreaksVerdict(s, step, p, v);
    FalseClaim(Apply(s, step), p, v);
  }

  lemma ClaimIsSuccess(s: State, p: Id, v: Status)
    requires Wf(s) && Claimed(s, p, v)
    ensures v in {Finished, FinishedWithError}
  {
    if k :| k in s.jobs && s.jobs[k].phase == Closing(v) && s.jobs[k].snap.parent == Some(p) {
      assert JobFits(s, k);
    }
  }

  lemma ClaimCarries(s: State, s': State, p: Id, v: Status)
    requires Claimed(s, p, v) && s'.jobs == s.jobs
    requires p in s.t.tasks ==>
               && p in s'.t.tasks && s'.t.tasks[p].status == s.t.tasks[p].status
               && s'.t.tasks[p].parent == s.t.tasks[p].parent
    ensures Claimed(s', p, v)
  {
    if SuccessfulRoot(s, p) && s.t.tasks[p].status == v {
      assert SuccessfulRoot(s', p);
    }
  }

  lemma FalseClaim(s: State, p: Id, v: Status)
    requires Claimed(s, p, v) && !VerdictHolds(s.t, p, v)
    ensures !VerdictInv(s)
  {
  }

  lemma InsertTouchesNoJob(s: State, step: Step, p: Id)
    requires Enabled(s, step) && (step.Insert? || step.Undelete?)
    ensures Apply(s, step).jobs == s.jobs
    ensures p in s.t.tasks ==>
              && p in Apply(s, step).t.tasks && Apply(s, step).t.tasks[p].status == s.t.tasks[p].status
              && Apply(s, step).t.tasks[p].parent == s.t.tasks[p].parent
  {
  }

  /** The exact condition: a step keeps every verdict true exactly if it upsets none. */
  lemma VerdictKeptIff(s: State, step: Step)
    requires VerdictInv(s) && Enabled(s, step)
    ensures VerdictInv(Apply(s, step)) <==> UpsetsNone(s, step)
  {
    if UpsetsNone(s, step) {
      NoUpsetKeepsVerdicts(s, step);
    } else {
      var p, v :| Claimed(s, p, v) && Upsets(s, step, p, v);
      UpsetShows(s, step, p, v);
    }
  }

  ghost predicate VerdictsKept(d: Discipline, s: State, steps: seq<Step>)
    requires IsRun(d, s, steps)
    decreases |steps|
  {
    VerdictInv(s) && (steps != [] ==> VerdictsKept(d, Apply(s, steps[0]), steps[1..]))
  }

  ghost predicate NothingUpset(d: Discipline, s: State, steps: seq<Step>)
    requires IsRun(d, s, steps)
    decreases |steps|
  {
    steps != [] ==> UpsetsNone(s, steps[0]) && NothingUpset(d, Apply(s, steps[0]), steps[1..])
  }

  /** Over any run at all, verdicts are true at every moment exactly if no step of the run upsets one. */
  lemma {:induction false} VerdictsKeptIff(d: Discipline, s: State, steps: seq<Step>)
    requires VerdictInv(s) && IsRun(d, s, steps)
    ensures VerdictsKept(d, s, steps) <==> NothingUpset(d, s, steps)
    decreases |steps|
  {
    if steps == [] {
    } else {
      var s' := Apply(s, steps[0]);
      VerdictKeptIff(s, steps[0]);
      if VerdictInv(s') {
        VerdictsKeptIff(d, s', steps[1..]);
      } else {
        VerdictLostNow(d, s', steps[1..]);
      }
    }
  }

  lemma VerdictLostNow(d: Discipline, s: State, steps: seq<Step>)
    requires IsRun(d, s, steps) && !VerdictInv(s)
    ensures !VerdictsKept(d, s, steps)
  {
  }

  /** Rules a run can follow to upset nothing. */
  lemma RulesUpsetNothing(d: Discipline, s: State, step: Step)
    requires Wf(s) && VerdictRules(d) && Enabled(s, step) && Obeys(d, s, step)
    ensures UpsetsNone(s, step)
  {
    forall p: Id, v | Claimed(s, p, v) ensures !Upsets(s, step, p, v) {
      if k :| k in s.jobs && s.jobs[k].phase == Closing(v) && s.jobs[k].snap.parent == Some(p) {
        assert ClosingParent(s, p);
      }
    }
  }

  lemma {:induction false} VerdictRun(d: Discipline, s: State, steps: seq<Step>)
    requires VerdictInv(s) && VerdictRules(d) && IsRun(d, s, steps)
    ensures VerdictInv(Exec(d, s, steps))
    decreases |steps|
  {
    if steps == [] {
    } else {
      RulesUpsetNothing(d, s, steps[0]);
      VerdictKeptIff(s, steps[0]);
      VerdictRun(d, Apply(s, steps[0]), steps[1..]);
    }
  }

  /**
   Whoever stored it, a FINISHED root has only terminal live children and none failed; a
   FINISHED_WITH_ERROR root has only terminal ones, no failed blocking one, and a failed other one.
   */
  lemma VerdictsAreFaithful(d: Discipline, steps: seq<Step>, p: Id)
    requires VerdictRules(d) && IsRun(d, INIT, steps)
    ensures var s := Exec(d, INIT, steps);
            SuccessfulRoot(s, p) ==> VerdictHolds(s.t, p, s.t.tasks[p].status)
  {
    VerdictRun(d, INIT, steps);
  }

  // ---- a blocking failure is never forgotten --------------------------------

  /** The child's own handler has yet to offer the failure to its parent. */
  ghost predicate WillFailParent(s: State, c: Id) {
    exists k :: k in s.jobs && k.task == c && s.jobs[k].phase == FailingParent(true)
  }

  ghost predicate FailureRemembered(s: State) {
    forall p, c :: WaitingRow(s, p) && FailedLiveChild(s.t, p, c, true) ==> WillFailParent(s, c)
  }

  lemma OldFailure(d: Discipline, s: State, step: Step, p: Id, c: Id)
    requires Wf(s) && FailureRemembered(s) && Enabled(s, step) && Obeys(d, s, step)
    requires d.handlersComplete && FailedLiveChild(s.t, p, c, true) && WaitingRow(Apply(s, step), p)
    requires p in s.t.tasks
    ensures WillFailParent(Apply(s, step), c)
  {
    assert WaitingRow(s, p) by { RowStep(s, step, p); }
    var k :| k in s.jobs && k.task == c && s.jobs[k].phase == FailingParent(true);
    assert JobFits(s, k);
    JobStays(s, step, k);
    if step == Handle(k) { FailedParentSettles(s, k); }
  }

  lemma NewFailure(s: State, step: Step, p: Id, c: Id)
    requires Wf(s) && Enabled(s, step) && c in s.t.tasks && !FailedLiveChild(s.t, p, c, true)
    requires FailedLiveChild(Apply(s, step).t, p, c, true) && !step.Undelete?
    ensures WillFailParent(Apply(s, step), c)
  {
    RowStep(s, step, c);
    assert RowFits(s, c);
    assert step.Persist? && step.key.task == c;
    var key, snap := step.key, s.jobs[step.key].snap;
    assert JobFits(s, key);
    PersistRow(s.t, c, snap, step.candidate, step.payload, step.body, c);
    WritesWaiting(s.t, c, snap, step.candidate);
    assert key in Apply(s, step).jobs && Apply(s, step).jobs[key].phase == FailingParent(true);
  }

  /** A row that waits or failed was there before. */
  lemma NotJustInserted(s: State, step: Step, id: Id)
    requires Enabled(s, step) && id in Apply(s, step).t.tasks && Apply(s, step).t.tasks[id].status !in {New, Draft}
    ensures id in s.t.tasks
  {
  }

  lemma FailureStep(d: Discipline, s: State, step: Step, p: Id, c: Id)
    requires Wf(s) && FailureRemembered(s) && Enabled(s, step) && Obeys(d, s, step)
    requires d.handlersComplete && d.noUndelete
    requires WaitingRow(Apply(s, step), p) && FailedLiveChild(Apply(s, step).t, p, c, true)
    ensures WillFailParent(Apply(s, step), c)
  {
    NotJustInserted(s, step, p);
    NotJustInserted(s, step, c);
    if FailedLiveChild(s.t, p, c, true) {
      OldFailure(d, s, step, p, c);
    } else {
      NewFailure(s, step, p, c);
    }
  }

  lemma {:induction false} FailureRun(d: Discipline, s: State, steps: seq<Step>)
    requires Wf(s) && FailureRemembered(s) && IsRun(d, s, steps) && d.handlersComplete && d.noUndelete
    ensures FailureRemembered(Exec(d, s, steps))
    decreases |steps|
  {
    if steps == [] {
    } else {
      var s' := Apply(s, steps[0]);
      WfStep(s, steps[0]);
      forall p, c | WaitingRow(s', p) && FailedLiveChild(s'.t, p, c, true) ensures WillFailParent(s', c) {
        FailureStep(d, s, steps[0], p, c);
      }
      FailureRun(d, s', steps[1..]);
    }
  }

  /**
   While a live blocking child is failed, its root is not stored as a success, and it is
   WAITING only while that child's own handler is about to fail it.
   */
  lemma BlockingFailureIsNeverForgotten(d: Discipline, steps: seq<Step>, p: Id, c: Id)
    requires VerdictRules(d) && d.handlersComplete && IsRun(d, INIT, steps)
    requires FailedLiveChild(Exec(d, INIT, steps).t, p, c, true)
    ensures !SuccessfulRoot(Exec(d, INIT, steps), p)
    ensures WaitingRow(Exec(d, INIT, steps), p) ==> WillFailParent(Exec(d, INIT, steps), c)
  {
    VerdictsAreFaithful(d, steps, p);
    FailureRun(d, INIT, steps);
  }
}
