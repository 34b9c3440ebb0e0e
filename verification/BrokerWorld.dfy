/**
 Ingress, tasks and outbox together. A delivery runs in transactions that interleave with other
 deliveries, with the task workers and with the publishers.
 */
module BrokerWorld {
  import opened Common
  import opened TaskTables
  import TM = TaskMachine
  import TI = TaskInvariants
  import EB = ExecutionBounds
  import OM = OutboxMachine
  import OS = OutboxSafety

  datatype MessageKey = MessageKey(queue: string, id: string)

  datatype IngressRow = IngressRow(task: Id, key: MessageKey, plugin: string, replyTo: Option<string>)

  datatype Draft = Draft(scenario: string, payload: string, alias: string, maxExecutions: Option<int>,
                         plugin: string, replyTo: Option<string>)

  datatype Phase =
    | Checking              // the transaction will look for an ingress row of this message
    | Inserting             // none seen; task and ingress row are still to be inserted
    | Acking(task: Id)      // inserted, or a duplicate of this task

  datatype Delivery = Delivery(key: MessageKey, draft: Draft, phase: Phase)

  datatype World = World(
    core: TM.State,
    ingress: map<nat, IngressRow>,
    delivered: set<Id>,                         // tasks that a delivery inserted
    outbox: OM.Outbox,
    deliveries: map<nat, Delivery>,
    acked: set<MessageKey>)

  datatype Step =
    | Core(step: TM.Step)
    | Outbox(out: OM.Step)
    | Deliver(delivery: nat, key: MessageKey, draft: Draft)
    | Check(delivery: nat, found: Option<nat>)
    | Commit(delivery: nat, task: Id, row: nat, raced: Option<nat>)
    | Rollback(delivery: nat)
    | Ack(delivery: nat)
    | Lose(delivery: nat)                       // the process died; the broker delivers again
    | Reconcile(source: nat, outboxRow: OM.RowId)

  /** The row `insert_linear_task_with_ingress` inserts. */
  function TaskRow(draft: Draft, now: int): Task {
    Task(draft.scenario, New, Broker, Linear, 1, draft.maxExecutions, 0, None, None, now, false, None,
         Some(draft.payload), Some(if draft.alias != "" then draft.alias else "broker-" + draft.scenario), false)
  }

  /** What the select on (queue, message id) returns; the pair is unique. */
  predicate Selects(w: World, key: MessageKey, found: Option<nat>) {
    match found
    case Some(i) => i in w.ingress && w.ingress[i].key == key
    case None => forall i :: i in w.ingress ==> w.ingress[i].key != key
  }

  ghost predicate Enabled(w: World, step: Step) {
    match step
    case Core(core) => TM.Enabled(w.core, core)
    case Outbox(out) => OM.Enabled(w.outbox, out) && !out.Create?
    case Deliver(d, _, _) => d !in w.deliveries
    case Check(d, found) =>
      d in w.deliveries && w.deliveries[d].phase.Checking? && Selects(w, w.deliveries[d].key, found)
    case Commit(d, task, row, raced) =>
      && d in w.deliveries && w.deliveries[d].phase.Inserting? && Selects(w, w.deliveries[d].key, raced)
      && task !in w.core.t.tasks && row !in w.ingress
    case Rollback(d) => d in w.deliveries && !w.deliveries[d].phase.Acking?
    case Ack(d) => d in w.deliveries && w.deliveries[d].phase.Acking?
    case Lose(d) => d in w.deliveries
    case Reconcile(i, r) =>
      && i in w.ingress && w.ingress[i].task in w.core.t.tasks
      && Terminal(w.core.t.tasks[w.ingress[i].task].status) && !w.core.t.tasks[w.ingress[i].task].deleted
      && OM.Enabled(w.outbox, OM.Create(r, w.ingress[i].task, i))
  }

  function InsertTask(draft: Draft, task: Id, now: int): TM.Step {
    TM.Insert(task, TaskRow(draft, now))
  }

  ghost function Apply(w: World, step: Step): World
    requires Enabled(w, step)
  {
    match step
    case Core(core) => w.(core := TM.Apply(w.core, core))
    case Outbox(out) => w.(outbox := OM.Apply(w.outbox, out))
    case Deliver(d, key, draft) => w.(deliveries := w.deliveries[d := Delivery(key, draft, Checking)])
    case Check(d, found) =>
      var next := if found.Some? then Acking(w.ingress[found.value].task) else Inserting;
      w.(deliveries := w.deliveries[d := w.deliveries[d].(phase := next)])
    case Commit(d, task, row, raced) =>
      var delivery := w.deliveries[d];
      if raced.Some? then
        // unique index: the whole transaction rolls back, the other task is the answer
        w.(deliveries := w.deliveries[d := delivery.(phase := Acking(w.ingress[raced.value].task))])
      else
        w.(core := TM.Apply(w.core, InsertTask(delivery.draft, task, w.core.t.now)),
           ingress := w.ingress[row := IngressRow(task, delivery.key, delivery.draft.plugin, delivery.draft.replyTo)],
           delivered := w.delivered + {task},
           deliveries := w.deliveries[d := delivery.(phase := Acking(task))])
    case Rollback(d) => w.(deliveries := w.deliveries - {d})
    case Ack(d) => w.(acked := w.acked + {w.deliveries[d].key}, deliveries := w.deliveries - {d})
    case Lose(d) => w.(deliveries := w.deliveries - {d})
    case Reconcile(i, r) => w.(outbox := OM.Apply(w.outbox, OM.Create(r, w.ingress[i].task, i)))
  }

  function Init(limit: int): World {
    World(TM.INIT, map[], {}, OM.Init(limit), map[], {})
  }

  ghost predicate IsRun(w: World, steps: seq<Step>)
    decreases |steps|
  {
    steps != [] ==> Enabled(w, steps[0]) && IsRun(Apply(w, steps[0]), steps[1..])
  }

  ghost function Exec(w: World, steps: seq<Step>): World
    requires IsRun(w, steps)
    decreases |steps|
  {
    if steps == [] then w else Exec(Apply(w, steps[0]), steps[1..])
  }

  // ---- the invariant -----------------------------------------------------------

  /** A task that came in as a message. Other tasks may be seeded with the broker as their source. */
  predicate BrokerTask(w: World, id: Id) {
    id in w.delivered && id in w.core.t.tasks && w.core.t.tasks[id].source == Broker
  }

  ghost predicate IngressMatchesTasks(w: World) {
    && (forall i :: i in w.ingress ==> BrokerTask(w, w.ingress[i].task))
    && (forall id :: id in w.delivered ==> BrokerTask(w, id))
    && (forall id :: BrokerTask(w, id) ==> exists i :: i in w.ingress && w.ingress[i].task == id)
    && (forall i, j :: i in w.ingress && j in w.ingress && w.ingress[i].task == w.ingress[j].task ==> i == j)
    && (forall i, j :: i in w.ingress && j in w.ingress && w.ingress[i].key == w.ingress[j].key ==> i == j)
  }

  ghost predicate Recorded(w: World, key: MessageKey) {
    exists i :: i in w.ingress && w.ingress[i].key == key
  }

  ghost predicate AcksAreRecorded(w: World) {
    && (forall key :: key in w.acked ==> Recorded(w, key))
    && (forall d :: d in w.deliveries && w.deliveries[d].phase.Acking? ==>
          exists i :: i in w.ingress && w.ingress[i].key == w.deliveries[d].key
                      && w.ingress[i].task == w.deliveries[d].phase.task)
  }

  ghost predicate OutboxRowFits(w: World, r: OM.RowId)
    requires r in w.outbox.rows
  {
    var row := w.outbox.rows[r];
    && row.ingress in w.ingress && w.ingress[row.ingress].task == row.task
    && row.task in w.core.t.tasks && Terminal(w.core.t.tasks[row.task].status)
  }

  predicate SameTask(w: World, r: OM.RowId, q: OM.RowId) {
    r in w.outbox.rows && q in w.outbox.rows && w.outbox.rows[r].task == w.outbox.rows[q].task
  }

  ghost predicate OutboxMatchesTasks(w: World) {
    && (forall r :: r in w.outbox.rows ==> OutboxRowFits(w, r))
    && (forall r, q :: SameTask(w, r, q) ==> r == q)
  }

  ghost predicate Inv(w: World) {
    TI.Wf(w.core) && OS.Inv(w.outbox) && IngressMatchesTasks(w) && AcksAreRecorded(w) && OutboxMatchesTasks(w)
  }

  /** The step, if any, that the task tables take. */
  ghost function CoreStep(w: World, step: Step): Option<TM.Step>
    requires Enabled(w, step)
  {
    match step
    case Core(core) => Some(core)
    case Commit(d, task, _, raced) =>
      if raced.Some? then None else Some(InsertTask(w.deliveries[d].draft, task, w.core.t.now))
    case _ => None
  }

  lemma CoreMoves(w: World, step: Step)
    requires Enabled(w, step)
    ensures match CoreStep(w, step)
            case Some(core) => TM.Enabled(w.core, core) && Apply(w, step).core == TM.Apply(w.core, core)
            case None => Apply(w, step).core == w.core
  {
  }

  /** Task rows never vanish, keep their source, and are frozen once terminal. */
  lemma TaskOverStep(w: World, step: Step, id: Id)
    requires TI.Wf(w.core) && Enabled(w, step) && id in w.core.t.tasks
    ensures id in Apply(w, step).core.t.tasks
    ensures var a, b := w.core.t.tasks[id], Apply(w, step).core.t.tasks[id];
            SameStatics(a, b) && (Terminal(a.status) ==> TI.Frozen(a, b))
  {
    CoreMoves(w, step);
    var core := CoreStep(w, step);
    if core.Some? {
      TI.RowStep(w.core, core.value, id);
    }
  }

  lemma NewTask(w: World, step: Step, id: Id)
    requires Enabled(w, step) && id in Apply(w, step).delivered && id !in w.delivered
    ensures step.Commit? && step.raced.None? && step.task == id
    ensures BrokerTask(Apply(w, step), id)
    ensures step.row in Apply(w, step).ingress && Apply(w, step).ingress[step.row].task == id
  {
  }

  lemma IngressStep(w: World, step: Step)
    requires Inv(w) && Enabled(w, step)
    ensures IngressMatchesTasks(Apply(w, step))
  {
    var w' := Apply(w, step);
    forall i | i in w'.ingress ensures BrokerTask(w', w'.ingress[i].task) {
      if i in w.ingress { TaskOverStep(w, step, w.ingress[i].task); }
    }
    forall id | id in w'.delivered ensures BrokerTask(w', id) {
      if id in w.delivered { TaskOverStep(w, step, id); } else { NewTask(w, step, id); }
    }
    forall id | BrokerTask(w', id) ensures exists i :: i in w'.ingress && w'.ingress[i].task == id {
      BrokerTaskIsRecorded(w, step, id);
    }
    IngressStaysUnique(w, step);
  }

  lemma IngressStaysUnique(w: World, step: Step)
    requires Inv(w) && Enabled(w, step)
    ensures var ingress := Apply(w, step).ingress;
            && (forall i, j :: i in ingress && j in ingress && ingress[i].task == ingress[j].task ==> i == j)
            && (forall i, j :: i in ingress && j in ingress && ingress[i].key == ingress[j].key ==> i == j)
  {
  }

  lemma BrokerTaskIsRecorded(w: World, step: Step, id: Id)
    requires Inv(w) && Enabled(w, step) && BrokerTask(Apply(w, step), id)
    ensures exists i :: i in Apply(w, step).ingress && Apply(w, step).ingress[i].task == id
  {
    var w' := Apply(w, step);
    if id in w.delivered {
      assert BrokerTask(w, id);
      TaskOverStep(w, step, id);
      var i :| i in w.ingress && w.ingress[i].task == id;
      IngressKept(w, step, i);
    } else {
      NewTask(w, step, id);
    }
  }

  lemma AcksStep(w: World, step: Step)
    requires Inv(w) && Enabled(w, step)
    ensures AcksAreRecorded(Apply(w, step))
  {
    var w' := Apply(w, step);
    forall key | key in w'.acked ensures Recorded(w', key) {
      if key in w.acked {
        var i :| i in w.ingress && w.ingress[i].key == key;
        assert i in w'.ingress && w'.ingress[i].key == key;
      }
    }
    forall d | d in w'.deliveries && w'.deliveries[d].phase.Acking?
      ensures exists i :: i in w'.ingress && w'.ingress[i].key == w'.deliveries[d].key
                          && w'.ingress[i].task == w'.deliveries[d].phase.task
    {
      AckingStep(w, step, d);
    }
  }

  lemma AckingStep(w: World, step: Step, d: nat)
    requires Inv(w) && Enabled(w, step)
    requires d in Apply(w, step).deliveries && Apply(w, step).deliveries[d].phase.Acking?
    ensures exists i :: i in Apply(w, step).ingress && Apply(w, step).ingress[i].key == Apply(w, step).deliveries[d].key
                        && Apply(w, step).ingress[i].task == Apply(w, step).deliveries[d].phase.task
  {
    var w' := Apply(w, step);
    if d in w.deliveries && w.deliveries[d].phase.Acking? {
      var i :| i in w.ingress && w.ingress[i].key == w.deliveries[d].key
               && w.ingress[i].task == w.deliveries[d].phase.task;
      assert i in w'.ingress && w'.ingress[i] == w.ingress[i];
    } else if step.Check? {
      assert step.found.Some? && step.found.value in w'.ingress;
    } else {
      assert step.Commit?;
      assert (if step.raced.Some? then step.raced.value else step.row) in w'.ingress;
    }
  }

  lemma OutboxRowStep(w: World, step: Step, r: OM.RowId)
    requires Inv(w) && Enabled(w, step) && r in w.outbox.rows
    ensures r in Apply(w, step).outbox.rows && OutboxRowFits(Apply(w, step), r)
    ensures Apply(w, step).outbox.rows[r].task == w.outbox.rows[r].task
    ensures Apply(w, step).outbox.rows[r].ingress == w.outbox.rows[r].ingress
  {
    if step.Outbox? { OS.OnlyTheLatestClaimantWrites(w.outbox, step.out, r); }
    assert OutboxRowFits(w, r);
    TaskOverStep(w, step, w.outbox.rows[r].task);
    IngressKept(w, step, w.outbox.rows[r].ingress);
  }

  lemma IngressKept(w: World, step: Step, i: nat)
    requires Enabled(w, step) && i in w.ingress
    ensures i in Apply(w, step).ingress && Apply(w, step).ingress[i] == w.ingress[i]
  {
  }

  lemma NewOutboxRow(w: World, step: Step, r: OM.RowId)
    requires Inv(w) && Enabled(w, step) && r in Apply(w, step).outbox.rows && r !in w.outbox.rows
    ensures step.Reconcile? && step.outboxRow == r && OutboxRowFits(Apply(w, step), r)
    ensures forall q :: q in w.outbox.rows ==> w.outbox.rows[q].task != Apply(w, step).outbox.rows[r].task
  {
    if step.Outbox? {
      OS.OnlyCreateAddsRows(w.outbox, step.out);
      assert false;
    }
    assert step.Reconcile?;
  }

  lemma OutboxStep(w: World, step: Step)
    requires Inv(w) && Enabled(w, step)
    ensures OutboxMatchesTasks(Apply(w, step)) && OS.Inv(Apply(w, step).outbox)
  {
    var w' := Apply(w, step);
    if step.Outbox? {
      OS.InvStep(w.outbox, step.out);
    } else if step.Reconcile? {
      OS.InvStep(w.outbox, OM.Create(step.outboxRow, w.ingress[step.source].task, step.source));
    }
    forall r | r in w'.outbox.rows ensures OutboxRowFits(w', r) {
      if r in w.outbox.rows { OutboxRowStep(w, step, r); } else { NewOutboxRow(w, step, r); }
    }
    forall r, q | SameTask(w', r, q) ensures r == q {
      if r in w.outbox.rows { OutboxRowStep(w, step, r); } else { NewOutboxRow(w, step, r); }
      if q in w.outbox.rows { OutboxRowStep(w, step, q); } else { NewOutboxRow(w, step, q); }
      if r in w.outbox.rows && q in w.outbox.rows { assert SameTask(w, r, q); }
    }
  }

  lemma InvStep(w: World, step: Step)
    requires Inv(w) && Enabled(w, step)
    ensures Inv(Apply(w, step))
  {
    CoreMoves(w, step);
    var core := CoreStep(w, step);
    if core.Some? { TI.WfStep(w.core, core.value); }
    IngressStep(w, step);
    AcksStep(w, step);
    OutboxStep(w, step);
  }

  lemma {:induction false} InvRun(w: World, steps: seq<Step>)
    requires Inv(w) && IsRun(w, steps)
    ensures Inv(Exec(w, steps))
    decreases |steps|
  {
    if steps == [] {
    } else {
      InvStep(w, steps[0]);
      InvRun(Apply(w, steps[0]), steps[1..]);
    }
  }

  // ---- exactly once ---------------------------------------------------------------

  /**
   Over any trace of deliveries, redeliveries, lost races and rollbacks: broker tasks and ingress
   rows are in bijection, a (queue, message id) has at most one task, a task at most one
   outbox row, an acked message is recorded, and only tasks of messages are replied to, whatever
   else is seeded with the broker as its source.
   */
  lemma IngressIsExactlyOnce(limit: int, steps: seq<Step>)
    requires IsRun(Init(limit), steps)
    ensures var w := Exec(Init(limit), steps);
            && IngressMatchesTasks(w)
            && (forall key :: key in w.acked ==> Recorded(w, key))
            && (forall r, q :: SameTask(w, r, q) ==> r == q)
            && (forall r :: r in w.outbox.rows ==> OutboxRowFits(w, r) && BrokerTask(w, w.outbox.rows[r].task))
  {
    InvRun(Init(limit), steps);
  }

  // ---- frozen egress inputs ---------------------------------------------------------

  /** What `load_task_result_ingress` reads for an outbox row. */
  datatype EgressView = EgressView(scenario: string, status: Status, payload: Option<string>, alias: Option<string>,
                                   result: Option<string>, ingress: IngressRow)

  function Latest(results: seq<string>): Option<string> {
    if results == [] then None else Some(results[|results| - 1])
  }

  function View(w: World, task: Id, ingress: nat): EgressView
    requires task in w.core.t.tasks && ingress in w.ingress
  {
    var row := w.core.t.tasks[task];
    EgressView(row.scenario, row.status, row.payload, row.alias,
               Latest(ResultsOf(w.core.t.results, task)), w.ingress[ingress])
  }

  lemma ViewStep(w: World, step: Step, r: OM.RowId)
    requires Inv(w) && Enabled(w, step) && r in w.outbox.rows
    ensures OutboxRowFits(w, r) && r in Apply(w, step).outbox.rows && OutboxRowFits(Apply(w, step), r)
    ensures var a, b := w.outbox.rows[r], Apply(w, step).outbox.rows[r];
            View(Apply(w, step), b.task, b.ingress) == View(w, a.task, a.ingress)
  {
    OutboxRowStep(w, step, r);
    var row := w.outbox.rows[r];
    TaskOverStep(w, step, row.task);
    IngressKept(w, step, row.ingress);
    CoreMoves(w, step);
    var core := CoreStep(w, step);
    if core.Some? {
      EB.ResultsStep(w.core, core.value, row.task);
    }
  }

  /**
   Once a task has an outbox row, no step of any worker, delivery or publisher changes what the reply hook is
   given: every retry sees the same task, latest result and ingress row.
   */
  lemma {:induction false} EgressInputsAreFrozen(w: World, steps: seq<Step>, r: OM.RowId)
    requires Inv(w) && IsRun(w, steps) && r in w.outbox.rows && OutboxRowFits(w, r)
    ensures var w' := Exec(w, steps);
            && r in w'.outbox.rows && OutboxRowFits(w', r)
            && View(w', w'.outbox.rows[r].task, w'.outbox.rows[r].ingress)
               == View(w, w.outbox.rows[r].task, w.outbox.rows[r].ingress)
    decreases |steps|
  {
    if steps == [] {
    } else {
      ViewStep(w, steps[0], r);
      InvStep(w, steps[0]);
      EgressInputsAreFrozen(Apply(w, steps[0]), steps[1..], r);
    }
  }

  /** Stated from the empty database: any two moments of a run at which the row exists. */
  lemma EveryRetrySeesTheSame(limit: int, before: seq<Step>, after: seq<Step>, r: OM.RowId)
    requires IsRun(Init(limit), before) && IsRun(Exec(Init(limit), before), after)
    requires r in Exec(Init(limit), before).outbox.rows
    ensures var w := Exec(Init(limit), before);
            var w' := Exec(w, after);
            && OutboxRowFits(w, r) && r in w'.outbox.rows && OutboxRowFits(w', r)
            && View(w', w'.outbox.rows[r].task, w'.outbox.rows[r].ingress)
               == View(w, w.outbox.rows[r].task, w.outbox.rows[r].ingress)
  {
    InvRun(Init(limit), before);
    EgressInputsAreFrozen(Exec(Init(limit), before), after, r);
  }

  /** The result the hook is given is the task's newest row. */
  lemma {:induction false} LatestIsNewest(results: seq<ResultRow>, task: Id)
    ensures Latest(ResultsOf(results, task)) == None
            <==> forall i :: 0 <= i < |results| ==> results[i].task != task
    ensures forall body :: Latest(ResultsOf(results, task)) == Some(body) ==>
              exists i :: 0 <= i < |results| && results[i] == ResultRow(task, body)
                          && forall j :: i < j < |results| ==> results[j].task != task
  {
    if results == [] {
    } else {
      var init, last := results[..|results| - 1], results[|results| - 1];
      LatestIsNewest(init, task);
      if last.task == task {
        assert results[|results| - 1] == ResultRow(task, last.body);
      } else {
        assert ResultsOf(results, task) == ResultsOf(init, task);
        forall body | Latest(ResultsOf(results, task)) == Some(body)
          ensures exists i :: 0 <= i < |results| && results[i] == ResultRow(task, body)
                              && forall j :: i < j < |results| ==> results[j].task != task
        {
          var i :| 0 <= i < |init| && init[i] == ResultRow(task, body)
                   && forall j :: i < j < |init| ==> init[j].task != task;
          assert results[i] == ResultRow(task, body);
        }
      }
    }
  }
}
