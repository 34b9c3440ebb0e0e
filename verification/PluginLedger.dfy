/** Applying a migration plan: one transaction per plugin, recorded in the ledger. */
module PluginLedger {
  import opened Common
  import opened SchemaNames
  import opened PluginPlanner
  import opened Sorting
  import PluginRegistry
  import SqlTemplates
  import SqlLaws

  datatype LedgerRow = LedgerRow(order: string, hash: string)

  /** One committed execution of a plugin's SQL file. */
  datatype Execution = Execution(name: string, schema: string, order: string, hash: string, statements: seq<string>)

  datatype Database = Database(
    settings: map<string, string>,
    ledger: map<string, LedgerRow>,
    ran: seq<Execution>)            // every committed execution, in order

  datatype Failure =
    | BadCoreSchema(reason: NameError)
    | Planning(problem: Problem)
    | MissingFile
    | NotReadable
    | NoSchema(error: NameError)
    | Template(template: SqlLaws.TemplateError)
    | Splitting(split: SqlTemplates.SplitError)
    | SchemaMismatch
    | OlderOrder
    | Unbumped
    | SqlRefused

  // ---- one plugin -------------------------------------------------------------------

  /** What is worked out from the files before the transaction starts. */
  datatype Prepared = Prepared(schema: string, hash: string, statements: seq<string>)

  datatype Env = Env(lc: Locale, coreSchema: string, disk: string -> Disk)

  function Prepare(env: Env, item: PlanItem): Result<Prepared, Failure> {
    var file := env.disk(item.path);
    if file.Absent? then Err(MissingFile)
    else match PluginSchemaName(env.lc, item.name)
      case Err(e) => Err(NoSchema(e))
      case Ok(schema) =>
        if file.NotAFile? then Err(NotReadable)
        else match SqlLaws.RenderPluginSql(file.text, env.coreSchema, schema)
          case Err(e) => Err(Template(e))
          case Ok(sql) =>
            match SqlTemplates.Split(env.lc.chars, sql)
            case Err(e) => Err(Splitting(e))
            case Ok(statements) => Ok(Prepared(schema, file.hash, statements))
  }

  /** `Ok(true)`: this file was applied already. */
  function CheckReplay(order: string, hash: string, existing: Option<LedgerRow>): Result<bool, Failure> {
    if existing.None? then Ok(false)
    else if LexLess(order, existing.value.order) then Err(OlderOrder)
    else if existing.value.hash == hash then Ok(true)
    else if existing.value.order == order then Err(Unbumped)
    else Ok(false)
  }

  /** Over a recorded file, only another file with a later order is executed. */
  lemma NeedsLaterOrder(order: string, hash: string)
    ensures forall o, h ::
              CheckReplay(o, h, Some(LedgerRow(order, hash))) == Ok(false) <==> LexLess(order, o) && h != hash
  {
    forall o, h
      ensures CheckReplay(o, h, Some(LedgerRow(order, hash))) == Ok(false) <==> LexLess(order, o) && h != hash
    {
      LexTotal(o, order);
      if LexLess(order, o) && LexLess(o, order) { LexAntisymmetric(o, order); }
    }
  }

  /** What a replay check answers: executed exactly without a row, or with another file under a later order. */
  lemma ReplayIff(order: string, hash: string, existing: Option<LedgerRow>)
    ensures CheckReplay(order, hash, existing) == Ok(false)
            <==> existing == None || (LexLess(existing.value.order, order) && existing.value.hash != hash)
    ensures CheckReplay(order, hash, existing) == Ok(true)
            <==> existing != None && LexLeq(existing.value.order, order) && existing.value.hash == hash
    ensures CheckReplay(order, hash, existing) == Err(OlderOrder)
            <==> existing != None && LexLess(order, existing.value.order)
    ensures CheckReplay(order, hash, existing) == Err(Unbumped)
            <==> existing != None && existing.value.order == order && existing.value.hash != hash
  {
    LexReflexive(order);
    if existing != None {
      LexTotal(order, existing.value.order);
      if LexLeq(order, existing.value.order) && LexLeq(existing.value.order, order) {
        LexAntisymmetric(order, existing.value.order);
      }
    }
  }

  /** The plugin's schema is not mapped, or mapped to this one. */
  predicate Mapped(db: Database, name: string, schema: string) {
    SettingsKey(name) in db.settings ==> db.settings[SettingsKey(name)] == schema
  }

  /** The plugin was never executed, or was with another file under an earlier order. */
  predicate Due(db: Database, item: PlanItem, hash: string) {
    item.name in db.ledger ==>
      LexLess(db.ledger[item.name].order, item.order) && db.ledger[item.name].hash != hash
  }

  predicate Applied(db: Database, item: PlanItem, hash: string) {
    item.name in db.ledger && LexLeq(db.ledger[item.name].order, item.order) && db.ledger[item.name].hash == hash
  }

  function ExecutionOf(item: PlanItem, p: Prepared): Execution {
    Execution(item.name, p.schema, item.order, p.hash, p.statements)
  }

  /**
   One plugin's transaction, from the tables before it: executed exactly if due, mapped and accepted, and then
   the mapping, the ledger row and one execution are added; skipped exactly if applied and mapped, and then only
   mapped.
   */
  predicate Transacted(db: Database, db': Database, item: PlanItem, p: Prepared, accepted: bool,
                       r: Result<bool, Failure>)
  {
    && (r == Ok(true) <==> Mapped(db, item.name, p.schema) && Due(db, item, p.hash) && accepted)
    && (r == Ok(false) <==> Mapped(db, item.name, p.schema) && Applied(db, item, p.hash))
    && (r == Err(SchemaMismatch) <==> !Mapped(db, item.name, p.schema))
    && (r == Err(SqlRefused) <==> Mapped(db, item.name, p.schema) && Due(db, item, p.hash) && !accepted)
    && (r == Err(OlderOrder) <==> && Mapped(db, item.name, p.schema) && item.name in db.ledger
                                  && LexLess(item.order, db.ledger[item.name].order))
    && db' == match r
              case Err(_) => db
              case Ok(false) => db.(settings := db.settings[SettingsKey(item.name) := p.schema])
              case Ok(true) =>
                Database(db.settings[SettingsKey(item.name) := p.schema],
                         db.ledger[item.name := LedgerRow(item.order, p.hash)],
                         db.ran + [ExecutionOf(item, p)])
  }

  lemma TransactIs(db: Database, item: PlanItem, p: Prepared, accepted: bool)
    ensures match Transact(db, item, p, accepted)
            case Err(e) => Transacted(db, db, item, p, accepted, Err(e))
            case Ok((db', executed)) => Transacted(db, db', item, p, accepted, Ok(executed))
  {
    ReplayIff(item.order, p.hash, Existing(db, item.name));
  }

  function SettingsKey(name: string): string {
    "plugin_schema_" + name
  }

  function Existing(db: Database, name: string): Option<LedgerRow> {
    if name in db.ledger then Some(db.ledger[name]) else None
  }

  /** The database after the transaction and whether the SQL was executed; `accepted` is the database's word on it. */
  function Transact(db: Database, item: PlanItem, p: Prepared, accepted: bool): Result<(Database, bool), Failure> {
    var key := SettingsKey(item.name);
    if key in db.settings && db.settings[key] != p.schema then Err(SchemaMismatch)
    else
      var settings := db.settings[key := p.schema];
      match CheckReplay(item.order, p.hash, Existing(db, item.name))
      case Err(e) => Err(e)
      case Ok(done) =>
        if done then Ok((db.(settings := settings), false))
        else if !accepted then Err(SqlRefused)
        else Ok((Database(settings, db.ledger[item.name := LedgerRow(item.order, p.hash)],
                          db.ran + [Execution(item.name, p.schema, item.order, p.hash, p.statements)]), true))
  }

  // ---- a run ------------------------------------------------------------------------

  type Preparer = PlanItem -> Result<Prepared, Failure>

  /** From the item at hand on; a failure leaves what was committed before it. */
  function ApplyPlans(prepare: Preparer, accepts: PlanItem -> bool, db: Database, plans: seq<PlanItem>,
                      applied: seq<string>)
    : (Database, Result<seq<string>, Failure>)
    decreases |plans|
  {
    if plans == [] then (db, Ok(applied))
    else match prepare(plans[0])
      case Err(e) => (db, Err(e))
      case Ok(p) =>
        match Transact(db, plans[0], p, accepts(plans[0]))
        case Err(e) => (db, Err(e))
        case Ok((db', executed)) =>
          ApplyPlans(prepare, accepts, db', plans[1..], if executed then applied + [plans[0].name] else applied)
  }

  /** The plugin tree of a run, the configured schema, and the database's word on each plugin's SQL. */
  datatype Run = Run(lc: Locale, dbSchema: string, tree: Tree, accepts: PlanItem -> bool)

  function NamingOf(run: Run): PluginRegistry.Naming {
    PluginRegistry.SchemaNaming(run.lc)
  }

  function PreparerOf(run: Run, coreSchema: string): Preparer {
    PreparerFor(Env(run.lc, coreSchema, run.tree.disk))
  }

  function PreparerFor(env: Env): Preparer {
    item => Prepare(env, item)
  }

  function ApplyRun(run: Run, db: Database): (Database, Result<seq<string>, Failure>) {
    match ValidateSchemaName(run.lc, run.dbSchema)
    case Err(e) => (db, Err(BadCoreSchema(e)))
    case Ok(core) =>
      match CollectPlans(NamingOf(run), run.tree)
      case Err(p) => (db, Err(Planning(p)))
      case Ok(plans) => ApplyPlans(PreparerOf(run, core), run.accepts, db, plans, [])
  }

  class MigrationDatabase {
    var settings: map<string, string>
    var ledger: map<string, LedgerRow>
    var ran: seq<Execution>

    function View(): Database
      reads this
    {
      Database(settings, ledger, ran)
    }

    constructor ()
      ensures View() == Database(map[], map[], [])
    {
      settings, ledger, ran := map[], map[], [];
    }

    method PersistPluginSchema(name: string, schema: string) returns (ok: bool)
      modifies this`settings
      ensures ok <==> (SettingsKey(name) in old(settings) ==> old(settings)[SettingsKey(name)] == schema)
      ensures settings == if ok then old(settings)[SettingsKey(name) := schema] else old(settings)
    {
      var key := SettingsKey(name);
      if key !in settings {
        settings := settings[key := schema];
        return true;
      }
      ok := settings[key] == schema;
      assert ok ==> settings == settings[key := schema];
    }

    /**
     An upsert: from now on this file is applied, any other file needs a later order, and no other
     plugin is affected.
     */
    method RecordPluginMigration(name: string, order: string, hash: string)
      modifies this`ledger
      ensures CheckReplay(order, hash, Existing(View(), name)) == Ok(true)
      ensures forall o, h :: CheckReplay(o, h, Existing(View(), name)) == Ok(false) ==> LexLess(order, o) && h != hash
      ensures forall n :: n != name ==> Existing(View(), n) == Existing(old(View()), n)
      ensures ledger == old(ledger)[name := LedgerRow(order, hash)]
    {
      ledger := ledger + map[name := LedgerRow(order, hash)];
      NeedsLaterOrder(order, hash);
    }

    /** One transaction; every error leaves the tables as they were. */
    method ApplyOne(item: PlanItem, p: Prepared, accepted: bool) returns (r: Result<bool, Failure>)
      modifies this
      ensures match Transact(old(View()), item, p, accepted)
              case Err(e) => r == Err(e) && View() == old(View())
              case Ok((db, executed)) => r == Ok(executed) && View() == db
      ensures Transacted(old(View()), View(), item, p, accepted, r)
    {
      TransactIs(View(), item, p, accepted);
      var before := settings;
      var same := PersistPluginSchema(item.name, p.schema);
      if !same {
        return Err(SchemaMismatch);
      }
      var replay := CheckReplay(item.order, p.hash, if item.name in ledger then Some(ledger[item.name]) else None);
      if replay.Err? {
        settings := before;
        return Err(replay.error);
      }
      if replay.value {
        return Ok(false);
      }
      if !accepted {
        settings := before;
        return Err(SqlRefused);
      }
      ran := ran + [Execution(item.name, p.schema, item.order, p.hash, p.statements)];
      RecordPluginMigration(item.name, item.order, p.hash);
      r := Ok(true);
    }

    method ApplyPluginMigrations(run: Run) returns (r: Result<seq<string>, Failure>)
      modifies this
      ensures (View(), r) == ApplyRun(run, old(View()))
    {
      var core := ValidateSchemaName(run.lc, run.dbSchema);
      if core.Err? {
        return Err(BadCoreSchema(core.error));
      }
      var plans := CollectPluginMigrationPlans(NamingOf(run), run.tree);
      if plans.Err? {
        return Err(Planning(plans.error));
      }
      r := ApplyAll(PreparerOf(run, core.value), run.accepts, plans.value);
    }

    method ApplyAll(prepare: Preparer, accepts: PlanItem -> bool, plans: seq<PlanItem>)
      returns (r: Result<seq<string>, Failure>)
      modifies this
      ensures (View(), r) == ApplyPlans(prepare, accepts, old(View()), plans, [])
    {
      var applied: seq<string> := [];
      assert plans[0..] == plans;
      for i := 0 to |plans|
        invariant ApplyPlans(prepare, accepts, old(View()), plans, [])
               == ApplyPlans(prepare, accepts, View(), plans[i..], applied)
      {
        assert plans[i..][1..] == plans[i + 1..];
        var p := prepare(plans[i]);
        if p.Err? {
          return Err(p.error);
        }
        var executed := ApplyOne(plans[i], p.value, accepts(plans[i]));
        if executed.Err? {
          return Err(executed.error);
        }
        if executed.value {
          applied := applied + [plans[i].name];
        }
      }
      r := Ok(applied);
    }
  }

  // ---- the ledger over any sequence of runs --------------------------------------------

  /** Executions of a plugin strictly increase in order. */
  predicate OrdersIncrease(ran: seq<Execution>) {
    forall i, j :: 0 <= i < j < |ran| && ran[i].name == ran[j].name ==> LexLess(ran[i].order, ran[j].order)
  }

  predicate IsLast(ran: seq<Execution>, i: int) {
    0 <= i < |ran| && forall j :: i < j < |ran| ==> ran[j].name != ran[i].name
  }

  /** The ledger row of plugin `n` records its execution `i`. */
  predicate RowOf(db: Database, n: string, i: int)
    requires n in db.ledger && 0 <= i < |db.ran|
  {
    db.ran[i].name == n && db.ledger[n] == LedgerRow(db.ran[i].order, db.ran[i].hash)
  }

  /** A plugin's row is its last execution. */
  ghost predicate LedgerIsLast(db: Database) {
    && (forall i :: 0 <= i < |db.ran| ==> db.ran[i].name in db.ledger)
    && (forall n :: n in db.ledger ==>
          exists i :: IsLast(db.ran, i) && RowOf(db, n, i))
  }

  predicate SchemasStay(db: Database) {
    forall i :: 0 <= i < |db.ran| ==>
      SettingsKey(db.ran[i].name) in db.settings && db.settings[SettingsKey(db.ran[i].name)] == db.ran[i].schema
  }

  ghost predicate Faithful(db: Database) {
    OrdersIncrease(db.ran) && LedgerIsLast(db) && SchemasStay(db)
  }

  lemma KeysDiffer(a: string, b: string)
    requires SettingsKey(a) == SettingsKey(b)
    ensures a == b
  {
    assert SettingsKey(a)[14..] == a && SettingsKey(b)[14..] == b;
  }

  /** An execution comes after every earlier one of its plugin. */
  lemma ExecutionIsLater(db: Database, item: PlanItem, hash: string, i: int)
    requires OrdersIncrease(db.ran) && LedgerIsLast(db)
    requires CheckReplay(item.order, hash, Existing(db, item.name)) == Ok(false)
    requires 0 <= i < |db.ran| && db.ran[i].name == item.name
    ensures LexLess(db.ran[i].order, item.order)
  {
    var last :| IsLast(db.ran, last) && RowOf(db, item.name, last);
    LexTotal(item.order, db.ran[last].order);
    assert LexLess(db.ran[last].order, item.order);
    if i < last {
      LexLessThrough(db.ran[i].order, db.ran[last].order, item.order);
    }
  }

  lemma SkipStaysFaithful(db: Database, settings: map<string, string>)
    requires Faithful(db) && forall key :: key in db.settings ==> key in settings && settings[key] == db.settings[key]
    ensures Faithful(db.(settings := settings))
  {
    var db' := db.(settings := settings);
    forall n | n in db'.ledger
      ensures exists i :: IsLast(db'.ran, i) && RowOf(db', n, i)
    {
      var i :| IsLast(db.ran, i) && RowOf(db, n, i);
      assert IsLast(db'.ran, i) && RowOf(db', n, i);
    }
  }

  lemma ExecuteStaysFaithful(db: Database, e: Execution)
    requires Faithful(db)
    requires forall i :: 0 <= i < |db.ran| && db.ran[i].name == e.name ==> LexLess(db.ran[i].order, e.order)
    requires SettingsKey(e.name) in db.settings && db.settings[SettingsKey(e.name)] == e.schema
    ensures Faithful(Database(db.settings, db.ledger[e.name := LedgerRow(e.order, e.hash)], db.ran + [e]))
  {
    var db' := Database(db.settings, db.ledger[e.name := LedgerRow(e.order, e.hash)], db.ran + [e]);
    forall n | n in db'.ledger
      ensures exists i :: IsLast(db'.ran, i) && RowOf(db', n, i)
    {
      if n == e.name {
        assert IsLast(db'.ran, |db.ran|) && RowOf(db', n, |db.ran|);
      } else {
        var i :| IsLast(db.ran, i) && RowOf(db, n, i);
        assert IsLast(db'.ran, i) && RowOf(db', n, i);
      }
    }
  }

  lemma TransactStaysFaithful(db: Database, item: PlanItem, p: Prepared, accepted: bool)
    requires Faithful(db) && Transact(db, item, p, accepted).Ok?
    ensures Faithful(Transact(db, item, p, accepted).value.0)
  {
    var settings := db.settings[SettingsKey(item.name) := p.schema];
    SkipStaysFaithful(db, settings);
    if CheckReplay(item.order, p.hash, Existing(db, item.name)) == Ok(false) {
      forall i | 0 <= i < |db.ran| && db.ran[i].name == item.name ensures LexLess(db.ran[i].order, item.order) {
        ExecutionIsLater(db, item, p.hash, i);
      }
      ExecuteStaysFaithful(db.(settings := settings), Execution(item.name, p.schema, item.order, p.hash, p.statements));
    }
  }

  lemma {:induction false} PlansStayFaithful(prepare: Preparer, accepts: PlanItem -> bool, db: Database,
                                             plans: seq<PlanItem>, applied: seq<string>)
    requires Faithful(db)
    ensures Faithful(ApplyPlans(prepare, accepts, db, plans, applied).0)
    decreases |plans|
  {
    if plans != [] && prepare(plans[0]).Ok? {
      var p := prepare(plans[0]).value;
      var step := Transact(db, plans[0], p, accepts(plans[0]));
      if step.Ok? {
        TransactStaysFaithful(db, plans[0], p, accepts(plans[0]));
        PlansStayFaithful(prepare, accepts, step.value.0, plans[1..],
                          if step.value.1 then applied + [plans[0].name] else applied);
      }
    }
  }

  lemma RunStaysFaithful(run: Run, db: Database)
    requires Faithful(db)
    ensures Faithful(ApplyRun(run, db).0)
  {
    var core := ValidateSchemaName(run.lc, run.dbSchema);
    var plans := CollectPlans(NamingOf(run), run.tree);
    if core.Ok? && plans.Ok? {
      PlansStayFaithful(PreparerOf(run, core.value), run.accepts, db, plans.value, []);
    }
  }

  function AfterRuns(runs: seq<Run>): Database {
    if runs == [] then Database(map[], map[], [])
    else ApplyRun(runs[|runs| - 1], AfterRuns(runs[..|runs| - 1])).0
  }

  lemma {:induction false} RunsStayFaithful(runs: seq<Run>)
    ensures Faithful(AfterRuns(runs))
  {
    if runs == [] {
    } else {
      RunsStayFaithful(runs[..|runs| - 1]);
      RunStaysFaithful(runs[|runs| - 1], AfterRuns(runs[..|runs| - 1]));
    }
  }

  /**
   Over any sequence of runs, on any trees, failing anywhere: the orders executed for a plugin
   strictly increase, so no (plugin, order) is executed twice or with two hashes; its ledger row is its last
   execution; and all its executions were in one schema.
   */
  lemma LedgerIsMonotone(runs: seq<Run>)
    ensures var db := AfterRuns(runs);
            && OrdersIncrease(db.ran) && LedgerIsLast(db)
            && forall i, j :: 0 <= i < |db.ran| && 0 <= j < |db.ran| && db.ran[i].name == db.ran[j].name ==>
                 && (db.ran[i].order == db.ran[j].order ==> i == j)
                 && db.ran[i].schema == db.ran[j].schema
  {
    RunsStayFaithful(runs);
  }

  // ---- one run ---------------------------------------------------------------------------

  function Names(ran: seq<Execution>): seq<string> {
    seq(|ran|, i requires 0 <= i < |ran| => ran[i].name)
  }

  /** Executions are only appended, and a successful run reports exactly the plugins it executed, in order. */
  lemma {:induction false} AppliedIsWhatRan(prepare: Preparer, accepts: PlanItem -> bool, db: Database,
                                            plans: seq<PlanItem>, applied: seq<string>)
    ensures var (db', r) := ApplyPlans(prepare, accepts, db, plans, applied);
            && db.ran <= db'.ran
            && (r.Ok? ==> r.value == applied + Names(db'.ran[|db.ran|..]))
    decreases |plans|
  {
    if plans == [] {
      assert applied + Names([]) == applied;
    } else if prepare(plans[0]).Ok? {
      var step := Transact(db, plans[0], prepare(plans[0]).value, accepts(plans[0]));
      if step.Ok? {
        var (next, executed) := step.value;
        AppliedIsWhatRan(prepare, accepts, next, plans[1..], if executed then applied + [plans[0].name] else applied);
        if executed {
          var (db', r) := ApplyPlans(prepare, accepts, db, plans, applied);
          assert db'.ran[|db.ran|..] == [db'.ran[|db.ran|]] + db'.ran[|next.ran|..];
          assert db'.ran[|db.ran|] == next.ran[|db.ran|];
        }
      }
    }
  }

  /** A failing run has committed exactly the plugins before the failing one. */
  lemma {:induction false} FailureKeepsPrefix(prepare: Preparer, accepts: PlanItem -> bool, db: Database,
                                              plans: seq<PlanItem>, applied: seq<string>) returns (k: nat)
    requires ApplyPlans(prepare, accepts, db, plans, applied).1.Err?
    ensures k < |plans|
    ensures var (db', r) := ApplyPlans(prepare, accepts, db, plans[..k], applied);
            && r.Ok? && db' == ApplyPlans(prepare, accepts, db, plans, applied).0
            && (prepare(plans[k]).Err? || Transact(db', plans[k], prepare(plans[k]).value, accepts(plans[k])).Err?)
    decreases |plans|
  {
    k := 0;
    if prepare(plans[0]).Ok? {
      var step := Transact(db, plans[0], prepare(plans[0]).value, accepts(plans[0]));
      if step.Ok? {
        var n := FailureKeepsPrefix(prepare, accepts, step.value.0, plans[1..],
                                    if step.value.1 then applied + [plans[0].name] else applied);
        k := n + 1;
        assert plans[..k][1..] == plans[1..][..n];
      }
    }
  }

  // ---- running again -----------------------------------------------------------------------

  /** Applying this item again would find it done. */
  predicate Done(prepare: Preparer, db: Database, item: PlanItem) {
    && prepare(item).Ok?
    && SettingsKey(item.name) in db.settings && db.settings[SettingsKey(item.name)] == prepare(item).value.schema
    && CheckReplay(item.order, prepare(item).value.hash, Existing(db, item.name)) == Ok(true)
  }

  lemma TransactMakesDone(prepare: Preparer, db: Database, item: PlanItem, accepted: bool)
    requires prepare(item).Ok? && Transact(db, item, prepare(item).value, accepted).Ok?
    ensures Done(prepare, Transact(db, item, prepare(item).value, accepted).value.0, item)
  {
  }

  lemma TransactKeepsDone(prepare: Preparer, db: Database, item: PlanItem, p: Prepared, accepted: bool, other: PlanItem)
    requires Transact(db, item, p, accepted).Ok? && other.name != item.name && Done(prepare, db, other)
    ensures Done(prepare, Transact(db, item, p, accepted).value.0, other)
  {
    if SettingsKey(item.name) == SettingsKey(other.name) { KeysDiffer(item.name, other.name); assert false; }
  }

  lemma {:induction false} PlansKeepDone(prepare: Preparer, accepts: PlanItem -> bool, db: Database,
                                         plans: seq<PlanItem>, applied: seq<string>, other: PlanItem)
    requires Done(prepare, db, other) && forall i :: 0 <= i < |plans| ==> plans[i].name != other.name
    ensures Done(prepare, ApplyPlans(prepare, accepts, db, plans, applied).0, other)
    decreases |plans|
  {
    if plans != [] && prepare(plans[0]).Ok? {
      var p := prepare(plans[0]).value;
      var step := Transact(db, plans[0], p, accepts(plans[0]));
      if step.Ok? {
        TransactKeepsDone(prepare, db, plans[0], p, accepts(plans[0]), other);
        PlansKeepDone(prepare, accepts, step.value.0, plans[1..],
                      if step.value.1 then applied + [plans[0].name] else applied, other);
      }
    }
  }

  lemma {:induction false} SuccessLeavesAllDone(prepare: Preparer, accepts: PlanItem -> bool, db: Database,
                                                plans: seq<PlanItem>, applied: seq<string>)
    requires DistinctNames(plans) && ApplyPlans(prepare, accepts, db, plans, applied).1.Ok?
    ensures forall i :: 0 <= i < |plans| ==> Done(prepare, ApplyPlans(prepare, accepts, db, plans, applied).0, plans[i])
    decreases |plans|
  {
    if plans == [] {
    } else {
      var p := prepare(plans[0]).value;
      var (next, executed) := Transact(db, plans[0], p, accepts(plans[0])).value;
      var applied' := if executed then applied + [plans[0].name] else applied;
      TransactMakesDone(prepare, db, plans[0], accepts(plans[0]));
      PlansKeepDone(prepare, accepts, next, plans[1..], applied', plans[0]);
      SuccessLeavesAllDone(prepare, accepts, next, plans[1..], applied');
      var db' := ApplyPlans(prepare, accepts, db, plans, applied).0;
      forall i | 0 <= i < |plans| ensures Done(prepare, db', plans[i]) {
        if i > 0 { assert plans[i] == plans[1..][i - 1]; }
      }
    }
  }

  lemma {:induction false} DoneExecutesNothing(prepare: Preparer, accepts: PlanItem -> bool, db: Database,
                                               plans: seq<PlanItem>)
    requires forall i :: 0 <= i < |plans| ==> Done(prepare, db, plans[i])
    ensures ApplyPlans(prepare, accepts, db, plans, []) == (db, Ok([]))
    decreases |plans|
  {
    if plans == [] {
    } else {
      assert Done(prepare, db, plans[0]);
      assert db.settings[SettingsKey(plans[0].name) := prepare(plans[0]).value.schema] == db.settings;
      DoneExecutesNothing(prepare, accepts, db, plans[1..]);
    }
  }

  /** After a successful run, a run on the same tree succeeds, executes nothing and changes nothing. */
  lemma RunIsIdempotent(run: Run, db: Database, again: Run)
    requires ApplyRun(run, db).1.Ok? && again == run.(accepts := again.accepts)
    ensures ApplyRun(again, ApplyRun(run, db).0) == (ApplyRun(run, db).0, Ok([]))
  {
    var core := ValidateSchemaName(run.lc, run.dbSchema).value;
    var plans := CollectPlans(NamingOf(run), run.tree).value;
    PlanIsOrdered(NamingOf(run), run.tree);
    var prepare := PreparerOf(run, core);
    SuccessLeavesAllDone(prepare, run.accepts, db, plans, []);
    DoneExecutesNothing(prepare, again.accepts, ApplyRun(run, db).0, plans);
    assert prepare == PreparerOf(again, core);
  }

  // ---- a clean dry run promises ---------------------------------------------------------------

  predicate IsSqlFile(disk: string -> Disk, path: string) {
    disk(path).SqlFile?
  }

  predicate FilesThere(disk: string -> Disk, plan: seq<PlanItem>) {
    forall i :: 0 <= i < |plan| ==> IsSqlFile(disk, plan[i].path)
  }

  lemma ExaminedFileIsThere(st: PluginRegistry.Setting, disk: string -> Disk, b: PluginRegistry.Books, e: Entry)
    requires Examine(st, disk, b, e).Ok?
    ensures FilesThere(disk, Examine(st, disk, b, e).value.result.plan)
  {
  }

  lemma {:induction false} PlannedFilesAreThere(st: PluginRegistry.Setting, disk: string -> Disk, entries: seq<Entry>)
    ensures FilesThere(disk, Plans(ProgressOver(st, disk, entries).results))
  {
    if entries == [] {
    } else {
      var init, e := entries[..|entries| - 1], entries[|entries| - 1];
      var p := ProgressOver(st, disk, init);
      PlannedFilesAreThere(st, disk, init);
      if Examine(st, disk, p.books, e).Ok? {
        ExaminedFileIsThere(st, disk, p.books, e);
        PlansGrow(p.results, Examine(st, disk, p.books, e).value.result);
      } else {
        PlansGrow(p.results, ErrorResult(e));
      }
    }
  }

  lemma {:induction false} FailureIsFromAnItem(prepare: Preparer, accepts: PlanItem -> bool, db: Database,
                                               plans: seq<PlanItem>, applied: seq<string>)
    requires forall i :: 0 <= i < |plans| ==> NotAboutFiles(prepare(plans[i]))
    ensures NotAboutFiles(ApplyPlans(prepare, accepts, db, plans, applied).1)
    decreases |plans|
  {
    if plans != [] && prepare(plans[0]).Ok? {
      var step := Transact(db, plans[0], prepare(plans[0]).value, accepts(plans[0]));
      if step.Ok? {
        forall i | 0 <= i < |plans[1..]| ensures NotAboutFiles(prepare(plans[1..][i])) {
          assert plans[1..][i] == plans[i + 1];
        }
        FailureIsFromAnItem(prepare, accepts, step.value.0, plans[1..],
                            if step.value.1 then applied + [plans[0].name] else applied);
      }
    }
  }

  /** Whatever else went wrong, no plugin was unplannable, unnameable or without its file. */
  predicate NotAboutFiles<T>(r: Result<T, Failure>) {
    r.Err? ==> r.error.Template? || r.error.Splitting? || r.error.SchemaMismatch?
               || r.error.OlderOrder? || r.error.Unbumped? || r.error.SqlRefused?
  }

  /**
   After a dry run without errors, applying the same tree can fail only on what the dry run does not look at: the
   SQL text, the ledger and the database.
   */
  lemma CleanReportLeavesOnlySql(st: PluginRegistry.Setting, run: Run, db: Database)
    requires ValidTree(run.tree) && ReportOf(st, run.tree).errors == [] && st.naming == NamingOf(run)
    requires ValidateSchemaName(run.lc, run.dbSchema).Ok?
    ensures NotAboutFiles(ApplyRun(run, db).1)
  {
    CleanReportIsThePlan(st, run.tree);
    PlanIsOrdered(NamingOf(run), run.tree);
    var core := ValidateSchemaName(run.lc, run.dbSchema).value;
    var plans := CollectPlans(NamingOf(run), run.tree).value;
    var prepare := PreparerOf(run, core);
    var p := ProgressOver(st, run.tree.disk, run.tree.entries);
    PlannedFilesAreThere(st, run.tree.disk, run.tree.entries);
    CleanPrefixesAgree(st, run.tree.disk, run.tree.entries);
    SortSorts(ItemKey, Plans(p.results));
    forall i | 0 <= i < |plans| ensures NotAboutFiles(prepare(plans[i])) {
      assert plans[i] in multiset(Plans(p.results));
      assert IsSqlFile(run.tree.disk, plans[i].path);
      PrepareFails(Env(run.lc, core, run.tree.disk), plans[i]);
    }
    FailureIsFromAnItem(prepare, run.accepts, db, plans, []);
  }

  lemma PrepareFails(env: Env, item: PlanItem)
    requires IsSqlFile(env.disk, item.path) && PluginSchemaName(env.lc, item.name).Ok?
    ensures NotAboutFiles(Prepare(env, item))
  {
  }

  // ---- what the ledger does not see ---------------------------------------------------------

  /**
   A raised order with the same file is skipped and not recorded. A later change of the file at
   that same order then executes: only an order that executed is protected from changed SQL.
   */
  lemma SkippedOrderIsNotProtected(db: Database, item: PlanItem, p: Prepared, changed: Prepared)
    requires Existing(db, item.name).Some? && LexLess(Existing(db, item.name).value.order, item.order)
    requires Existing(db, item.name).value.hash == p.hash != changed.hash && changed.schema == p.schema
    requires SettingsKey(item.name) in db.settings && db.settings[SettingsKey(item.name)] == p.schema
    ensures Transact(db, item, p, true) == Ok((db, false))
    ensures Transact(db, item, changed, true).Ok? && Transact(db, item, changed, true).value.1
  {
    var was := Existing(db, item.name).value.order;
    assert db.settings[SettingsKey(item.name) := p.schema] == db.settings;
    if LexLess(item.order, was) { LexAntisymmetric(item.order, was); }
  }

  /** The executed orders are protected: the same order with other SQL is refused, and so is any older one. */
  lemma ExecutedOrdersAreProtected(db: Database, i: int, item: PlanItem, p: Prepared, accepted: bool)
    requires Faithful(db) && 0 <= i < |db.ran| && db.ran[i].name == item.name && item.order == db.ran[i].order
    requires Transact(db, item, p, accepted).Ok?
    ensures !Transact(db, item, p, accepted).value.1 && IsLast(db.ran, i) && p.hash == db.ran[i].hash
  {
    var last :| IsLast(db.ran, last) && RowOf(db, item.name, last);
    assert i <= last;
  }

  // ---- what a successful run leaves -------------------------------------------------------------

  /**
   What is prepared for a plugin: its file's hash, its own schema, and the statements of its file rendered
   for both schemas.
   */
  lemma PreparedIs(env: Env, item: PlanItem)
    requires Prepare(env, item).Ok?
    ensures var p := Prepare(env, item).value;
            && PluginSchemaName(env.lc, item.name) == Ok(p.schema)
            && exists text, sql ::
                 && env.disk(item.path) == SqlFile(p.hash, text)
                 && SqlLaws.RenderPluginSql(text, env.coreSchema, p.schema) == Ok(sql)
                 && SqlTemplates.Split(env.lc.chars, sql) == Ok(p.statements)
  {
    var file := env.disk(item.path);
    var p := Prepare(env, item).value;
    var sql := SqlLaws.RenderPluginSql(file.text, env.coreSchema, p.schema).value;
    assert SqlLaws.RenderPluginSql(file.text, env.coreSchema, p.schema) == Ok(sql);
  }

  /** What a successful run did about one planned plugin. */
  predicate ItemOutcome(prepare: Preparer, db: Database, db': Database, item: PlanItem, executed: bool) {
    && prepare(item).Ok? && item.name in db'.ledger
    && (executed <==> Due(db, item, prepare(item).value.hash))
    && db'.ledger[item.name].hash == prepare(item).value.hash
    && (executed ==> db'.ledger[item.name].order == item.order && ExecutionOf(item, prepare(item).value) in db'.ran)
    && (!executed ==> item.name in db.ledger && db'.ledger[item.name] == db.ledger[item.name])
  }

  predicate NameAmong(plans: seq<PlanItem>, name: string) {
    exists i :: 0 <= i < |plans| && plans[i].name == name
  }

  lemma {:induction false} OtherLedgersStay(prepare: Preparer, accepts: PlanItem -> bool, db: Database,
                                            plans: seq<PlanItem>, applied: seq<string>, name: string)
    requires !NameAmong(plans, name)
    ensures var (db', r) := ApplyPlans(prepare, accepts, db, plans, applied);
            && (name in db'.ledger <==> name in db.ledger)
            && (name in db.ledger ==> db'.ledger[name] == db.ledger[name])
            && (r.Ok? ==> (name in r.value <==> name in applied))
    decreases |plans|
  {
    if plans == [] {
    } else if prepare(plans[0]).Ok? {
      var step := Transact(db, plans[0], prepare(plans[0]).value, accepts(plans[0]));
      TransactIs(db, plans[0], prepare(plans[0]).value, accepts(plans[0]));
      if step.Ok? {
        assert plans[0].name != name;
        assert !NameAmong(plans[1..], name) by {
          assert forall i :: 0 <= i < |plans[1..]| ==> plans[1..][i] == plans[i + 1];
        }
        OtherLedgersStay(prepare, accepts, step.value.0, plans[1..],
                         if step.value.1 then applied + [plans[0].name] else applied, name);
      }
    }
  }

  /** The first plugin of the rest of a plan keeps what its own transaction did. */
  lemma FirstItemOutcome(prepare: Preparer, accepts: PlanItem -> bool, db: Database, plans: seq<PlanItem>,
                         applied: seq<string>)
    requires plans != [] && DistinctNames(plans) && plans[0].name !in applied
    requires ApplyPlans(prepare, accepts, db, plans, applied).1.Ok?
    ensures var (db', r) := ApplyPlans(prepare, accepts, db, plans, applied);
            ItemOutcome(prepare, db, db', plans[0], plans[0].name in r.value)
  {
    var p := prepare(plans[0]).value;
    TransactIs(db, plans[0], p, accepts(plans[0]));
    var (next, executed) := Transact(db, plans[0], p, accepts(plans[0])).value;
    var applied' := if executed then applied + [plans[0].name] else applied;
    assert !NameAmong(plans[1..], plans[0].name) by {
      assert forall i :: 0 <= i < |plans[1..]| ==> plans[1..][i] == plans[i + 1];
    }
    OtherLedgersStay(prepare, accepts, next, plans[1..], applied', plans[0].name);
    AppliedIsWhatRan(prepare, accepts, next, plans[1..], applied');
    if executed {
      var db' := ApplyPlans(prepare, accepts, db, plans, applied).0;
      assert next.ran[|db.ran|] == ExecutionOf(plans[0], p) && db'.ran[|db.ran|] == next.ran[|db.ran|];
    }
  }

  /**
   After a successful run every planned plugin has a ledger row with its file's hash. It was executed exactly if
   it had no row, or one of an earlier order and another file; otherwise its row is as it was.
   */
  lemma {:induction false} SuccessAppliesAll(prepare: Preparer, accepts: PlanItem -> bool, db: Database,
                                             plans: seq<PlanItem>, applied: seq<string>, i: nat)
    requires DistinctNames(plans) && i < |plans| && ApplyPlans(prepare, accepts, db, plans, applied).1.Ok?
    requires forall k :: 0 <= k < |plans| ==> plans[k].name !in applied
    ensures var (db', r) := ApplyPlans(prepare, accepts, db, plans, applied);
            ItemOutcome(prepare, db, db', plans[i], plans[i].name in r.value)
    decreases |plans|
  {
    if i == 0 {
      FirstItemOutcome(prepare, accepts, db, plans, applied);
    } else {
      var p := prepare(plans[0]).value;
      TransactIs(db, plans[0], p, accepts(plans[0]));
      var (next, executed) := Transact(db, plans[0], p, accepts(plans[0])).value;
      var applied' := if executed then applied + [plans[0].name] else applied;
      var rest := plans[1..];
      assert forall k :: 0 <= k < |rest| ==> rest[k] == plans[k + 1];
      SuccessAppliesAll(prepare, accepts, next, rest, applied', i - 1);
      assert rest[i - 1] == plans[i] && plans[i].name != plans[0].name;
      assert Due(next, plans[i], prepare(plans[i]).value.hash) <==> Due(db, plans[i], prepare(plans[i]).value.hash);
    }
  }

  /** The same of a whole run: a plugin that was never executed is, and everything planned ends up applied. */
  lemma SuccessfulRunAppliesAll(run: Run, db: Database, i: nat)
    requires ApplyRun(run, db).1.Ok? && i < |CollectPlans(NamingOf(run), run.tree).value|
    ensures var core := ValidateSchemaName(run.lc, run.dbSchema).value;
            var item := CollectPlans(NamingOf(run), run.tree).value[i];
            var (db', r) := ApplyRun(run, db);
            && ItemOutcome(PreparerOf(run, core), db, db', item, item.name in r.value)
            && (item.name !in db.ledger ==> item.name in r.value)
  {
    var core := ValidateSchemaName(run.lc, run.dbSchema).value;
    var plans := CollectPlans(NamingOf(run), run.tree).value;
    PlanIsOrdered(NamingOf(run), run.tree);
    SuccessAppliesAll(PreparerOf(run, core), run.accepts, db, plans, [], i);
  }

  /** Nothing but planned plugins is executed, each with what was prepared for it. */
  lemma {:induction false} ExecutionsArePlanned(prepare: Preparer, accepts: PlanItem -> bool, db: Database,
                                                plans: seq<PlanItem>, applied: seq<string>, j: nat)
    requires |db.ran| <= j < |ApplyPlans(prepare, accepts, db, plans, applied).0.ran|
    ensures exists i :: 0 <= i < |plans| && prepare(plans[i]).Ok?
              && ApplyPlans(prepare, accepts, db, plans, applied).0.ran[j]
                 == ExecutionOf(plans[i], prepare(plans[i]).value)
    decreases |plans|
  {
    if plans == [] {
    } else if prepare(plans[0]).Ok? {
      var p := prepare(plans[0]).value;
      TransactIs(db, plans[0], p, accepts(plans[0]));
      var step := Transact(db, plans[0], p, accepts(plans[0]));
      if step.Ok? {
        var (next, executed) := step.value;
        var applied' := if executed then applied + [plans[0].name] else applied;
        AppliedIsWhatRan(prepare, accepts, next, plans[1..], applied');
        if j < |next.ran| {
          assert next.ran[j] == ExecutionOf(plans[0], p);
        } else {
          ExecutionsArePlanned(prepare, accepts, next, plans[1..], applied', j);
          var i :| 0 <= i < |plans[1..]| && prepare(plans[1..][i]).Ok?
                   && ApplyPlans(prepare, accepts, next, plans[1..], applied').0.ran[j]
                      == ExecutionOf(plans[1..][i], prepare(plans[1..][i]).value);
          assert plans[1..][i] == plans[i + 1];
        }
      }
    }
  }

  /**
   A plugin can be prepared exactly if its file is there, its name gives a schema, and its file renders
   and splits.
   */
  lemma PreparesIff(env: Env, item: PlanItem)
    ensures Prepare(env, item).Ok?
            <==> && env.disk(item.path).SqlFile? && PluginSchemaName(env.lc, item.name).Ok?
                 && var sql := SqlLaws.RenderPluginSql(env.disk(item.path).text, env.coreSchema,
                                                       PluginSchemaName(env.lc, item.name).value);
                    sql.Ok? && SqlTemplates.Split(env.lc.chars, sql.value).Ok?
    ensures env.disk(item.path) == Absent ==> Prepare(env, item) == Err(MissingFile)
  {
  }

  /**
   A run that cannot start changes nothing; any other run applies the collected plan for the validated
   core schema.
   */
  lemma RunStartsIff(run: Run, db: Database)
    ensures var core := ValidateSchemaName(run.lc, run.dbSchema);
            var plans := CollectPlans(NamingOf(run), run.tree);
            && (core.Err? ==> ApplyRun(run, db) == (db, Err(BadCoreSchema(core.error))))
            && (core.Ok? && plans.Err? ==> ApplyRun(run, db) == (db, Err(Planning(plans.error))))
            && (core.Ok? && plans.Ok? ==>
                  ApplyRun(run, db)
                  == ApplyPlans(item => Prepare(Env(run.lc, core.value, run.tree.disk), item), run.accepts, db,
                                plans.value, []))
  {
    var core := ValidateSchemaName(run.lc, run.dbSchema);
    if core.Ok? {
      SamePreparer(Env(run.lc, core.value, run.tree.disk));
    }
  }

  lemma SamePreparer(env: Env)
    ensures PreparerFor(env) == (item => Prepare(env, item))
  {
  }
}
