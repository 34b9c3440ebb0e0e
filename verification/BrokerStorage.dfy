/**
 The ingress side of the broker tables as an object: the insert of a task with its ingress row, the
 reconciler that gives terminal broker tasks their outbox row, and the handling of one delivery.
 */
module BrokerStorage {
  import opened Common
  import opened TaskTables
  import opened IngressRetry
  import opened BrokerWorld
  import opened Claims
  import TM = TaskMachine
  import OM = OutboxMachine

  /** The tables, with the next value of each identity sequence. */
  datatype Store = Store(
    t: Tables,
    ingress: map<nat, IngressRow>,
    outbox: map<OM.RowId, OM.OutboxRow>,
    nextTask: Id,
    nextIngress: nat,
    nextOutbox: OM.RowId)

  predicate Records(s: Store, key: MessageKey, task: Id) {
    exists i :: i in s.ingress && s.ingress[i].key == key && s.ingress[i].task == task
  }

  predicate Knows(s: Store, key: MessageKey) {
    exists i :: i in s.ingress && s.ingress[i].key == key
  }

  function CoveredTasks(s: Store): set<Id> {
    set r | r in s.outbox :: s.outbox[r].task
  }

  /** The unique indexes hold and the identity sequences are ahead of the ids in use. */
  predicate Healthy(s: Store) {
    && (forall id :: id in s.t.tasks ==> id < s.nextTask)
    && (forall i :: i in s.ingress ==> i < s.nextIngress && s.ingress[i].task in s.t.tasks)
    && (forall r :: r in s.outbox ==> r < s.nextOutbox)
    && (forall i, j :: i in s.ingress && j in s.ingress && s.ingress[i].key == s.ingress[j].key ==> i == j)
    && (forall i, j :: i in s.ingress && j in s.ingress && s.ingress[i].task == s.ingress[j].task ==> i == j)
    && (forall r, q :: r in s.outbox && q in s.outbox && s.outbox[r].task == s.outbox[q].task ==> r == q)
  }

  // ---- inserting a task with its ingress row ------------------------------------

  /** The committed transaction of a message that has no ingress row yet. */
  function Committed(s: Store, draft: Draft, key: MessageKey): Store {
    s.(t := s.t.(tasks := s.t.tasks[s.nextTask := TaskRow(draft, s.t.now)]),
       ingress := s.ingress[s.nextIngress := IngressRow(s.nextTask, key, draft.plugin, draft.replyTo)],
       nextTask := s.nextTask + 1,
       nextIngress := s.nextIngress + 1)
  }

  /** Another delivery, whose transaction commits after this one looked for an ingress row. */
  datatype Rival = Rival(draft: Draft, key: MessageKey)

  function AfterRival(s: Store, rival: Option<Rival>): Store {
    if rival.None? || Knows(s, rival.value.key) then s else Committed(s, rival.value.draft, rival.value.key)
  }

  datatype Fault = Nowhere | AtSelect | AtInsert

  datatype Insertion = Created(task: Id) | Duplicate(task: Id) | Broken

  // Apart from the identity sequences: a rolled back insert has used up a number.
  predicate SameRows(a: Store, b: Store) {
    a.t == b.t && a.ingress == b.ingress && a.outbox == b.outbox
  }

  /**
   What a call did: a new row exactly for a message nobody had recorded, otherwise the task of whoever
   recorded it, and after a fault only what the rival committed.
   */
  predicate InsertionDone(s: Store, s': Store, draft: Draft, key: MessageKey,
                          rival: Option<Rival>, fault: Fault, done: Insertion)
  {
    match done
    case Created(task) =>
      && fault.Nowhere? && !Knows(AfterRival(s, rival), key) && task == AfterRival(s, rival).nextTask
      && s' == Committed(AfterRival(s, rival), draft, key)
    case Duplicate(task) =>
      && !fault.AtSelect? && Records(s', key, task)
      && (if Knows(s, key) then s' == s
          else fault.Nowhere? && Knows(AfterRival(s, rival), key) && SameRows(s', AfterRival(s, rival)))
    case Broken =>
      if fault.AtSelect? then s' == s
      else fault.AtInsert? && !Knows(s, key) && SameRows(s', AfterRival(s, rival))
  }

  // ---- one delivery ----

  /** What the plugin's hook makes of a message. */
  datatype Hook = Rejects | AsksRetry | Raises | NotADraft | Drafts(draft: Draft)

  datatype Reply = Acked(task: Id) | Nacked(requeue: bool)

  // ---- reconciling ------------------------------------------------------------------

  /** The select of `insert_outbox_for_terminal_tasks`, by ingress row. */
  predicate NeedsOutbox(s: Store, i: nat) {
    && i in s.ingress && s.ingress[i].task in s.t.tasks
    && Terminal(s.t.tasks[s.ingress[i].task].status) && !s.t.tasks[s.ingress[i].task].deleted
    && forall r :: r in s.outbox ==> s.outbox[r].task != s.ingress[i].task
  }

  function Candidates(s: Store): set<nat> {
    set i | i in s.ingress && NeedsOutbox(s, i)
  }

  /** `ORDER BY updated_at, id` of the task. */
  function ByUpdate(s: Store): Claims.Order {
    (i: nat, j: nat) =>
      && i in s.ingress && s.ingress[i].task in s.t.tasks && j in s.ingress && s.ingress[j].task in s.t.tasks
      && var a, b := s.ingress[i].task, s.ingress[j].task;
         s.t.tasks[a].updatedAt < s.t.tasks[b].updatedAt
         || (s.t.tasks[a].updatedAt == s.t.tasks[b].updatedAt && a < b)
  }

  lemma UpdatesLine(s: Store, eligible: set<nat>)
    requires Healthy(s) && eligible <= Candidates(s)
    ensures Lines(ByUpdate(s), eligible)
  {
  }

  /** A message whose task has ended, is not deleted and has no reply under way. */
  predicate AwaitsReply(s: Store, i: nat) {
    && i in s.ingress && s.ingress[i].task in s.t.tasks
    && var row := s.t.tasks[s.ingress[i].task];
       !row.deleted && row.status in {Finished, FinishedWithError, Failed, Cancelled}
       && s.ingress[i].task !in CoveredTasks(s)
  }

  lemma AwaitingAreClaimed(s: Store, locked: set<nat>, limit: nat, claimed: set<nat>)
    requires FrontOf(ByUpdate(s), Candidates(s) - locked, limit, claimed)
    ensures forall i :: i in claimed ==> i !in locked && AwaitsReply(s, i)
    ensures |claimed| < limit ==> forall i :: i !in locked && AwaitsReply(s, i) ==> i in claimed
  {
    forall i ensures i in Candidates(s) <==> AwaitsReply(s, i) {
      if i in s.ingress && s.ingress[i].task in s.t.tasks {
        CoveredIff(s, s.ingress[i].task);
      }
    }
    if |claimed| < limit {
      ShortFrontTakesAll(ByUpdate(s), Candidates(s) - locked, limit, claimed);
    }
  }

  lemma CoveredIff(s: Store, task: Id)
    ensures task in CoveredTasks(s) <==> exists r :: r in s.outbox && s.outbox[r].task == task
  {
  }

  function WithOutboxRow(s: Store, i: nat): Store
    requires i in s.ingress
  {
    s.(outbox := s.outbox[s.nextOutbox := PendingRow(s.ingress[i].task, i, s.t.now)],
       nextOutbox := s.nextOutbox + 1)
  }

  /** The columns' defaults. */
  function PendingRow(task: Id, source: nat, now: int): OM.OutboxRow {
    OM.OutboxRow(task, source, OM.Pending, None, [], 0, 0, now, now)
  }

  function TasksOf(s: Store, sources: set<nat>): set<Id>
    requires sources <= s.ingress.Keys
  {
    set i | i in sources :: s.ingress[i].task
  }

  /** Only outbox rows were added, one fresh PENDING row for each source. */
  predicate Covered(s: Store, s': Store, sources: set<nat>)
  {
    && s'.t == s.t && s'.ingress == s.ingress && sources <= s.ingress.Keys
    && s'.nextTask == s.nextTask && s'.nextIngress == s.nextIngress
    && (forall r :: r in s.outbox ==> r in s'.outbox && s'.outbox[r] == s.outbox[r])
    && (forall r :: r in s'.outbox && r !in s.outbox ==>
          var row := s'.outbox[r];
          && row.ingress in sources
          && row == PendingRow(s.ingress[row.ingress].task, row.ingress, s.t.now))
    && CoveredTasks(s') == CoveredTasks(s) + TasksOf(s, sources)
  }

  class BrokerTables {
    var t: Tables
    var ingress: map<nat, IngressRow>
    var outbox: map<OM.RowId, OM.OutboxRow>
    var nextTask: Id
    var nextIngress: nat
    var nextOutbox: OM.RowId

    function View(): Store
      reads this
    {
      Store(t, ingress, outbox, nextTask, nextIngress, nextOutbox)
    }

    predicate Valid()
      reads this
    {
      Healthy(View())
    }

    constructor ()
      ensures Valid() && View() == Store(Tables(0, map[], []), map[], map[], 1, 1, 1)
    {
      t, ingress, outbox := Tables(0, map[], []), map[], map[];
      nextTask, nextIngress, nextOutbox := 1, 1, 1;
    }

    method FindExisting(key: MessageKey) returns (task: Option<Id>)
      requires Valid()
      ensures task.Some? <==> Knows(View(), key)
      ensures task.Some? ==> Records(View(), key, task.value)
    {
      if i :| i in ingress && ingress[i].key == key {
        task := Some(ingress[i].task);
      } else {
        task := None;
      }
    }

    /** The two inserts; the unique index on (queue, message id) undoes both. */
    method InsertRows(draft: Draft, key: MessageKey) returns (task: Id, unique: bool)
      requires Valid()
      modifies this
      ensures Valid()
      ensures unique <==> !Knows(old(View()), key)
      ensures unique ==> task == old(nextTask) && View() == Committed(old(View()), draft, key)
      ensures !unique ==> SameRows(View(), old(View()))
    {
      var existing := FindExisting(key);
      task, unique := nextTask, existing.None?;
      nextTask, nextIngress := nextTask + 1, nextIngress + 1;
      if unique {
        t := t.(tasks := t.tasks[task := TaskRow(draft, t.now)]);
        ingress := ingress[nextIngress - 1 := IngressRow(task, key, draft.plugin, draft.replyTo)];
      }
    }

    method InsertLinearTaskWithIngress(draft: Draft, key: MessageKey, rival: Option<Rival>, fault: Fault)
      returns (done: Insertion)
      requires Valid()
      modifies this
      ensures Valid()
      ensures InsertionDone(old(View()), View(), draft, key, rival, fault, done)
    {
      if fault.AtSelect? {
        return Broken;
      }
      var existing := FindExisting(key);
      if existing.Some? {
        return Duplicate(existing.value);
      }
      if rival.Some? {
        var known := FindExisting(rival.value.key);
        if known.None? {
          var _, _ := InsertRows(rival.value.draft, rival.value.key);
        }
      }
      assert View() == AfterRival(old(View()), rival);
      if fault.AtInsert? {
        nextTask := nextTask + 1;
        return Broken;
      }
      var task, unique := InsertRows(draft, key);
      if unique {
        return Created(task);
      }
      var raced := FindExisting(key);
      done := Duplicate(raced.value);
    }

    /** `INSERT ... ON CONFLICT DO NOTHING`. */
    method InsertOutboxRow(i: nat) returns (inserted: bool)
      requires Valid() && i in ingress
      modifies this
      ensures Valid()
      ensures inserted <==> old(ingress)[i].task !in CoveredTasks(old(View()))
      ensures View() == if inserted then WithOutboxRow(old(View()), i) else old(View())
    {
      inserted := ingress[i].task !in CoveredTasks(View());
      if inserted {
        outbox := outbox[nextOutbox := PendingRow(ingress[i].task, i, t.now)];
        nextOutbox := nextOutbox + 1;
      }
    }

    /** A row no reconciler has covered yet; if `beaten`, another one gets there first. */
    method CoverOne(i: nat, beaten: bool) returns (inserted: bool)
      requires Valid() && i in ingress && ingress[i].task !in CoveredTasks(View())
      modifies this
      ensures Valid()
      ensures View() == WithOutboxRow(old(View()), i)
      ensures inserted <==> !beaten
    {
      OneMoreTask(View(), i);
      if beaten {
        var _ := InsertOutboxRow(i);
      }
      inserted := InsertOutboxRow(i);
    }

    /**
     `locked` are the candidates other transactions hold at this moment; `beaten` are those another
     reconciler covers after the select saw them.
     */
    method InsertOutboxForTerminalTasks(limit: nat, locked: set<nat>, beaten: set<nat>)
      returns (created: nat, claimed: set<nat>)
      requires Valid()
      modifies this
      ensures Valid()
      ensures FrontOf(ByUpdate(old(View())), Candidates(old(View())) - locked, limit, claimed)
      ensures forall i :: i in claimed ==> i !in locked && AwaitsReply(old(View()), i)
      ensures |claimed| < limit ==> forall i :: i !in locked && AwaitsReply(old(View()), i) ==> i in claimed
      ensures Covered(old(View()), View(), claimed)
      ensures created == |claimed - beaten|
    {
      var eligible := Candidates(View()) - locked;
      UpdatesLine(View(), eligible);
      claimed := Front(ByUpdate(View()), eligible, limit);
      FrontIsFrontOf(ByUpdate(View()), eligible, limit);
      AwaitingAreClaimed(View(), locked, limit, claimed);
      created := CoverAll(claimed, beaten);
    }

    method CoverAll(claimed: set<nat>, beaten: set<nat>) returns (created: nat)
      requires Valid() && claimed <= Candidates(View())
      modifies this
      ensures Valid() && Covered(old(View()), View(), claimed) && created == |claimed - beaten|
    {
      var left := claimed;
      created := 0;
      ghost var start := View();
      NothingCovered(start, claimed, beaten);
      while left != {}
        invariant Valid() && left <= claimed
        invariant Covered(start, View(), claimed - left)
        invariant created == |claimed - left - beaten|
      {
        var i :| i in left;
        CoverStep(start, View(), claimed, left, beaten, i);
        var inserted := CoverOne(i, i in beaten);
        if inserted {
          created := created + 1;
        }
        left := left - {i};
      }
      assert claimed - left == claimed;
    }

    /** One delivery: the plugin's hook, the inserts, and what the broker is told. */
    method ProcessIngressMessage(key: MessageKey, hook: Hook, meta: Meta, maxRetries: int,
                                 rival: Option<Rival>, fault: Fault) returns (reply: Reply)
      requires Valid()
      modifies this
      ensures Valid()
      ensures reply.Acked? <==> hook.Drafts? && (fault.Nowhere? || (fault.AtInsert? && Knows(old(View()), key)))
      ensures reply.Acked? ==> Records(View(), key, reply.task)
      ensures reply.Nacked? ==>
                (reply.requeue <==> !hook.Rejects? && !hook.NotADraft? && RequeueWithinCap(meta, maxRetries))
      ensures !hook.Drafts? || fault.AtSelect? || Knows(old(View()), key) ==> View() == old(View())
      ensures hook.Drafts? && !fault.AtSelect? && !Knows(old(View()), key) ==>
                var mid := AfterRival(old(View()), rival);
                if fault.Nowhere? && !Knows(mid, key) then View() == Committed(mid, hook.draft, key)
                else SameRows(View(), mid)
    {
      match hook
      case Rejects => return Nacked(false);
      case AsksRetry => return Nacked(RequeueWithinCap(meta, maxRetries));
      case Raises => return Nacked(RequeueWithinCap(meta, maxRetries));
      case NotADraft => return Nacked(false);
      case Drafts(draft) =>
        var done := InsertLinearTaskWithIngress(draft, key, rival, fault);
        match done {
          case Created(task) =>
            assert ingress[nextIngress - 1].key == key;
            if Knows(old(View()), key) { KnownStays(old(View()), rival, key); assert false; }
            return Acked(task);
          case Duplicate(task) => return Acked(task);
          case Broken => return Nacked(RequeueWithinCap(meta, maxRetries));
        }
    }
  }

  lemma NothingCovered(s: Store, claimed: set<nat>, beaten: set<nat>)
    ensures Covered(s, s, claimed - claimed) && |claimed - claimed - beaten| == 0
  {
    assert TasksOf(s, claimed - claimed) == {};
  }

  /** What covering one more candidate does to the loop's state. */
  lemma CoverStep(s: Store, s': Store, claimed: set<nat>, left: set<nat>, beaten: set<nat>, i: nat)
    requires Healthy(s) && Healthy(s') && claimed <= Candidates(s) && left <= claimed && i in left
    requires Covered(s, s', claimed - left)
    ensures i in s'.ingress && s'.ingress[i].task !in CoveredTasks(s')
    ensures Covered(s, WithOutboxRow(s', i), claimed - (left - {i}))
    ensures |claimed - (left - {i}) - beaten| == |claimed - left - beaten| + if i in beaten then 0 else 1
  {
    StillUncovered(s, s', claimed, left, i);
    OneMoreCovered(s, s', claimed - left, i);
    Tally(claimed, left, beaten, i);
  }

  lemma KnownStays(s: Store, rival: Option<Rival>, key: MessageKey)
    requires Healthy(s) && Knows(s, key)
    ensures Knows(AfterRival(s, rival), key)
  {
    var i :| i in s.ingress && s.ingress[i].key == key;
    assert AfterRival(s, rival).ingress[i].key == key;
  }

  lemma Tally(claimed: set<nat>, left: set<nat>, beaten: set<nat>, i: nat)
    requires left <= claimed && i in left
    ensures claimed - (left - {i}) == (claimed - left) + {i}
    ensures |claimed - (left - {i}) - beaten| == |claimed - left - beaten| + if i in beaten then 0 else 1
  {
    var done := claimed - left - beaten;
    if i in beaten {
      assert claimed - (left - {i}) - beaten == done;
    } else {
      assert claimed - (left - {i}) - beaten == done + {i};
    }
  }

  lemma StillUncovered(s: Store, s': Store, claimed: set<nat>, left: set<nat>, i: nat)
    requires Healthy(s) && claimed <= Candidates(s) && left <= claimed && i in left
    requires Covered(s, s', claimed - left)
    ensures i in s'.ingress && s'.ingress[i].task !in CoveredTasks(s')
  {
    assert NeedsOutbox(s, i);
  }

  lemma OneMoreTask(s: Store, i: nat)
    requires Healthy(s) && i in s.ingress
    ensures CoveredTasks(WithOutboxRow(s, i)) == CoveredTasks(s) + {s.ingress[i].task}
  {
    var s' := WithOutboxRow(s, i);
    assert s'.outbox[s.nextOutbox].task == s.ingress[i].task;
    forall id | id in CoveredTasks(s) ensures id in CoveredTasks(s') {
      var r :| r in s.outbox && s.outbox[r].task == id;
      assert s'.outbox[r].task == id;
    }
  }

  lemma OneMoreCovered(s: Store, s': Store, done: set<nat>, i: nat)
    requires Healthy(s') && Covered(s, s', done) && i in s.ingress
    ensures Covered(s, WithOutboxRow(s', i), done + {i})
    ensures s'.ingress[i].task in CoveredTasks(WithOutboxRow(s', i))
  {
    OneMoreTask(s', i);
    assert TasksOf(s, done + {i}) == TasksOf(s, done) + {s.ingress[i].task};
  }

  // ---- the transactions as steps of the world ---------------------------------------

  predicate Agrees(w: World, s: Store) {
    w.core.t == s.t && w.ingress == s.ingress && w.outbox.rows == s.outbox && w.outbox.now == s.t.now
  }

  /** The transaction of one delivery is one `Commit` step, whether or not another delivery won the race. */
  lemma CommitIsAStep(w: World, s: Store, d: nat) returns (raced: Option<nat>)
    requires Agrees(w, s) && Healthy(s) && d in w.deliveries && w.deliveries[d].phase.Inserting?
    ensures raced.Some? <==> Knows(s, w.deliveries[d].key)
    ensures Enabled(w, Commit(d, s.nextTask, s.nextIngress, raced))
    ensures var w' := Apply(w, Commit(d, s.nextTask, s.nextIngress, raced));
            var s' := AfterRival(s, Some(Rival(w.deliveries[d].draft, w.deliveries[d].key)));
            && Agrees(w', s') && w'.deliveries[d].phase.Acking?
            && Records(s', w.deliveries[d].key, w'.deliveries[d].phase.task)
  {
    var key := w.deliveries[d].key;
    if i :| i in s.ingress && s.ingress[i].key == key {
      raced := Some(i);
    } else {
      raced := None;
      assert Committed(s, w.deliveries[d].draft, key).ingress[s.nextIngress].key == key;
    }
  }

  /** Covering one task is one `Reconcile` step. */
  lemma CoverIsAStep(w: World, s: Store, i: nat)
    requires Agrees(w, s) && Healthy(s) && NeedsOutbox(s, i)
    ensures Enabled(w, Reconcile(i, s.nextOutbox))
    ensures Agrees(Apply(w, Reconcile(i, s.nextOutbox)), WithOutboxRow(s, i))
  {
  }

  // ---- what a message becomes ------------------------------------------------------------

  /**
   The task of a message: NEW and due at once under its draft's scenario, payload and cap, without a parent,
   named by the draft or after the scenario; and its ingress row names the message, the plugin and the reply address.
   */
  lemma MessageBecomes(s: Store, draft: Draft, key: MessageKey)
    requires Healthy(s)
    ensures var s' := Committed(s, draft, key);
            var row, entry := s'.t.tasks[s.nextTask], s'.ingress[s.nextIngress];
            && row.status == New && row.nextRunAt == None && row.scenario == draft.scenario
            && row.payload == Some(draft.payload) && row.maxExecutions == draft.maxExecutions
            && row.alias == Some(if draft.alias == "" then "broker-" + draft.scenario else draft.alias)
            && row.kind == Linear && row.parent == None && row.currentExecutions == 0 && !row.deleted
            && row.source == Broker
            && entry == IngressRow(s.nextTask, key, draft.plugin, draft.replyTo)
            && (forall id :: id in s.t.tasks ==> id in s'.t.tasks && s'.t.tasks[id] == s.t.tasks[id])
            && (forall i :: i in s.ingress ==> i in s'.ingress && s'.ingress[i] == s.ingress[i])
            && s'.t.tasks.Keys == s.t.tasks.Keys + {s.nextTask} && s'.ingress.Keys == s.ingress.Keys + {s.nextIngress}
            && s'.outbox == s.outbox && s'.t.results == s.t.results
  {
  }
}
