/** What storing an outcome leaves behind, in terms of the columns of the rows. */
module PersistEffects {
  import opened Common
  import opened TaskTables

  const TERMINAL: set<Status> := {Finished, FinishedWithError, Cancelled, Failed}
  const OPEN: set<Status> := {Draft, New, Queued, Running, Waiting}
  const UNSUCCESSFUL: set<Status> := {Failed, FinishedWithError}

  /** A child of `p` that is not soft-deleted, in one of the given statuses. */
  predicate ChildIn(t: Tables, p: Id, c: Id, statuses: set<Status>) {
    c in t.tasks && t.tasks[c].parent == Some(p) && !t.tasks[c].deleted && t.tasks[c].status in statuses
  }

  ghost predicate HasOpenChild(t: Tables, p: Id) {
    exists c :: ChildIn(t, p, c, OPEN)
  }

  predicate FailedIn(t: Tables, p: Id, c: Id, blocking: bool) {
    ChildIn(t, p, c, UNSUCCESSFUL) && t.tasks[c].isBlock == blocking
  }

  ghost predicate HasFailedChild(t: Tables, p: Id, blocking: bool) {
    exists c :: FailedIn(t, p, c, blocking)
  }

  /** A FINISHED outcome that puts a cyclical task back to NEW. */
  predicate Requeues(snap: Task, candidate: Status) {
    && candidate == Finished && snap.kind == Cyclical
    && (snap.maxExecutions.None? || snap.currentExecutions + 1 < snap.maxExecutions.value)
  }

  lemma TalliesAreExistence(t: Tables, p: Id)
    ensures CountSubtasks(t, p).pendingOpen > 0 <==> HasOpenChild(t, p)
    ensures CountSubtasks(t, p).failedBlocking > 0 <==> HasFailedChild(t, p, true)
    ensures CountSubtasks(t, p).failedNonBlocking > 0 <==> HasFailedChild(t, p, false)
  {
    CountsAreExistence(t, p);
    forall c ensures PendingChild(t, p, c) <==> ChildIn(t, p, c, OPEN) {
      if LiveChild(t, p, c) { OpenOrTerminal(t.tasks[c].status); }
    }
    assert forall c, b :: FailedLiveChild(t, p, c, b) <==> FailedIn(t, p, c, b);
  }

  lemma OpenOrTerminal(status: Status)
    ensures status in OPEN <==> status !in TERMINAL
    ensures Terminal(status) <==> status in TERMINAL
  {
  }

  /**
   The verdict on a root by its live children alone: FAILED exactly if a blocking one failed, otherwise WAITING
   exactly if one is open, otherwise FINISHED_WITH_ERROR exactly if any failed, otherwise FINISHED.
   */
  ghost predicate VerdictByChildren(t: Tables, id: Id, status: Status) {
    && (status == Failed <==> HasFailedChild(t, id, true))
    && (status == Waiting <==> !HasFailedChild(t, id, true) && HasOpenChild(t, id))
    && (status == FinishedWithError <==>
          !HasFailedChild(t, id, true) && !HasOpenChild(t, id) && HasFailedChild(t, id, false))
    && (status == Finished <==>
          !HasFailedChild(t, id, true) && !HasOpenChild(t, id) && !HasFailedChild(t, id, false))
  }

  lemma TalliesGiveVerdict(t: Tables, id: Id)
    ensures VerdictByChildren(t, id, StatusForSuccessfulRoot(CountSubtasks(t, id)))
  {
    TalliesAreExistence(t, id);
  }

  /** A root whose own run succeeds for good is stored with the verdict of its children. */
  lemma RootVerdictIff(t: Tables, id: Id, snap: Task, payload: Option<string>, body: string)
    requires id in t.tasks && t.tasks[id].status !in TERMINAL && snap.parent.None? && !Requeues(snap, Finished)
    ensures VerdictByChildren(t, id, PersistOutcome(t, id, snap, Finished, payload, body).tasks[id].status)
  {
    OpenOrTerminal(t.tasks[id].status);
    TalliesGiveVerdict(t, id);
  }

  /** Anything else is stored as the outcome itself, or as NEW when it requeues. */
  lemma OtherOutcomesAreStored(t: Tables, id: Id, snap: Task, candidate: Status, payload: Option<string>, body: string)
    requires id in t.tasks && t.tasks[id].status !in TERMINAL && candidate in {Finished, Failed, Cancelled}
    requires Requeues(snap, candidate) || candidate != Finished || snap.parent.Some?
    ensures PersistOutcome(t, id, snap, candidate, payload, body).tasks[id].status
         == if Requeues(snap, candidate) then New else candidate
  {
    OpenOrTerminal(t.tasks[id].status);
  }

  /** Every other column of the row, and the result row. */
  lemma PersistedColumns(t: Tables, id: Id, snap: Task, candidate: Status, payload: Option<string>, body: string)
    requires id in t.tasks && t.tasks[id].status !in TERMINAL && candidate in {Finished, Failed, Cancelled}
    ensures var t' := PersistOutcome(t, id, snap, candidate, payload, body);
            var row, row' := t.tasks[id], t'.tasks[id];
            && t'.now == t.now && t'.tasks.Keys == t.tasks.Keys && t'.results == t.results + [ResultRow(id, body)]
            && row'.currentExecutions == snap.currentExecutions + (if snap.kind == Cyclical then 1 else 0)
            && row'.nextRunAt == (if Requeues(snap, candidate)
                                  then Some(t.now + if snap.interval == 0 then 60 else snap.interval) else None)
            && row'.payload == (if Requeues(snap, candidate) && payload.Some? then payload else row.payload)
            && row'.updatedAt == t.now
            && row' == row.(status := row'.status, updatedAt := row'.updatedAt, payload := row'.payload,
                            currentExecutions := row'.currentExecutions, nextRunAt := row'.nextRunAt)
  {
    OpenOrTerminal(t.tasks[id].status);
  }

  /** The other rows: only a root that fails by its children's account cancels those that have not ended. */
  lemma PersistedOthers(t: Tables, id: Id, snap: Task, candidate: Status, payload: Option<string>, body: string,
                        other: Id)
    requires id in t.tasks && t.tasks[id].status !in TERMINAL && candidate in {Finished, Failed, Cancelled}
    requires other in t.tasks && other != id
    ensures PersistOutcome(t, id, snap, candidate, payload, body).tasks[other]
         == if && snap.parent.None? && candidate == Finished && !Requeues(snap, candidate)
               && HasFailedChild(t, id, true) && ChildIn(t, id, other, {New, Queued, Running})
            then t.tasks[other].(status := Cancelled, updatedAt := t.now)
            else t.tasks[other]
  {
    OpenOrTerminal(t.tasks[id].status);
    TalliesAreExistence(t, id);
  }

  /** A row that has ended takes no outcome at all. */
  lemma EndedRowsTakeNothing(t: Tables, id: Id, snap: Task, candidate: Status, payload: Option<string>, body: string)
    requires id in t.tasks ==> t.tasks[id].status in TERMINAL
    ensures PersistOutcome(t, id, snap, candidate, payload, body) == t
  {
    if id in t.tasks { OpenOrTerminal(t.tasks[id].status); }
  }
}
