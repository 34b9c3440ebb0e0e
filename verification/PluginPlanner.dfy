/** The migration planner and the dry run over the same plugin tree. */
module PluginPlanner {
  import opened Common
  import opened PluginRegistry
  import opened Sorting

  datatype LoadFailure = ManifestNotFound | ManifestInvalid | Unreadable

  datatype PathRefusal = Absolute | Traversal | Unresolvable

  datatype Disk = Absent | NotAFile | SqlFile(hash: string, text: string)

  /** A plugin folder: its manifest, what its SQL path resolves to and what its checksum is taken of. */
  datatype Entry = Entry(
    folder: string,
    load: Result<Manifest, LoadFailure>,
    resolved: Result<string, PathRefusal>,
    found: Found)

  /** The folders in path order, and what is on disk at each resolved path. */
  datatype Tree = Tree(entries: seq<Entry>, disk: string -> Disk)

  datatype Problem =
    | NotLoaded(failure: LoadFailure)
    | BadPath(refusal: PathRefusal)
    | PathMissing
    | PathNotFile
    | Unregistered(reason: Refusal)

  datatype PlanItem = PlanItem(order: string, name: string, path: string)

  /** What the manifest model guarantees of every manifest it lets through: a path that is not empty. */
  predicate Validated(m: Manifest) {
    m.migration.Some? ==> m.migration.value.path.Some? && m.migration.value.path.value != ""
  }

  predicate ValidTree(tree: Tree) {
    forall i :: 0 <= i < |tree.entries| && tree.entries[i].load.Ok? ==> Validated(tree.entries[i].load.value)
  }

  // ---- the planner ------------------------------------------------------------------

  function ItemKey(item: PlanItem): Key {
    Key(0, item.order, item.name)
  }

  datatype Collection = Collection(ids: Identities, plans: seq<PlanItem>)

  const NOTHING_COLLECTED: Collection := Collection(Identities({}, map[]), [])

  function CollectEntry(naming: Naming, c: Collection, e: Entry): Result<Collection, Problem> {
    if e.load.Err? then Err(NotLoaded(e.load.error))
    else
      var m := e.load.value;
      match Claim(naming, c.ids, m.name)
      case Err(reason) => Err(Unregistered(reason))
      case Ok(ids) =>
        if m.migration.None? || m.migration.value.path.None? || m.migration.value.path.value == ""
        then Ok(Collection(ids, c.plans))
        else match e.resolved
          case Err(refusal) => Err(BadPath(refusal))
          case Ok(path) => Ok(Collection(ids, c.plans + [PlanItem(m.migration.value.order, m.name, path)]))
  }

  function CollectEntries(naming: Naming, entries: seq<Entry>): Result<Collection, Problem> {
    if entries == [] then Ok(NOTHING_COLLECTED)
    else match CollectEntries(naming, entries[..|entries| - 1])
      case Err(p) => Err(p)
      case Ok(c) => CollectEntry(naming, c, entries[|entries| - 1])
  }

  function CollectPlans(naming: Naming, tree: Tree): Result<seq<PlanItem>, Problem> {
    match CollectEntries(naming, tree.entries)
    case Err(p) => Err(p)
    case Ok(c) => Ok(Sort(ItemKey, c.plans))
  }

  lemma {:induction false} CollectStops(naming: Naming, entries: seq<Entry>, n: nat)
    requires n <= |entries| && CollectEntries(naming, entries[..n]).Err?
    ensures CollectEntries(naming, entries) == CollectEntries(naming, entries[..n])
    decreases |entries|
  {
    if n < |entries| {
      var init := entries[..|entries| - 1];
      assert init[..n] == entries[..n];
      CollectStops(naming, init, n);
    } else {
      assert entries[..n] == entries;
    }
  }

  lemma CollectOneMore(naming: Naming, entries: seq<Entry>, i: nat, c: Collection)
    requires i < |entries| && CollectEntries(naming, entries[..i]) == Ok(c)
    ensures CollectEntries(naming, entries[..i + 1]) == CollectEntry(naming, c, entries[i])
    ensures CollectEntry(naming, c, entries[i]).Err? ==>
              CollectEntries(naming, entries) == CollectEntry(naming, c, entries[i])
  {
    assert entries[..i + 1][..i] == entries[..i];
    if CollectEntries(naming, entries[..i + 1]).Err? {
      CollectStops(naming, entries, i + 1);
    }
  }

  /** One manifest: claim its identity, then resolve its SQL path if it has one. */
  method CollectManifest(naming: Naming, book: IdentityBook, plans: seq<PlanItem>, e: Entry)
    returns (r: Result<seq<PlanItem>, Problem>)
    modifies book
    ensures r.Ok? ==>
              CollectEntry(naming, Collection(old(book.View()), plans), e) == Ok(Collection(book.View(), r.value))
    ensures r.Err? ==> CollectEntry(naming, Collection(old(book.View()), plans), e) == Err(r.error)
  {
    if e.load.Err? {
      return Err(NotLoaded(e.load.error));
    }
    var m := e.load.value;
    var claimed := book.ClaimPluginIdentity(naming, m.name);
    if claimed.Err? {
      return Err(Unregistered(claimed.error));
    }
    if m.migration.None? || m.migration.value.path.None? || m.migration.value.path.value == "" {
      return Ok(plans);
    }
    if e.resolved.Err? {
      return Err(BadPath(e.resolved.error));
    }
    r := Ok(plans + [PlanItem(m.migration.value.order, m.name, e.resolved.value)]);
  }

  method CollectPluginMigrationPlans(naming: Naming, tree: Tree) returns (r: Result<seq<PlanItem>, Problem>)
    ensures r == CollectPlans(naming, tree)
  {
    var plans: seq<PlanItem> := [];
    var book := new IdentityBook();
    for i := 0 to |tree.entries|
      invariant fresh(book)
      invariant CollectEntries(naming, tree.entries[..i]) == Ok(Collection(book.View(), plans))
    {
      CollectOneMore(naming, tree.entries, i, Collection(book.View(), plans));
      var collected := CollectManifest(naming, book, plans, tree.entries[i]);
      if collected.Err? {
        return Err(collected.error);
      }
      plans := collected.value;
    }
    assert tree.entries[..|tree.entries|] == tree.entries;
    r := Ok(Sort(ItemKey, plans));
  }

  // ---- the dry run ------------------------------------------------------------------

  datatype LoadStatus = Loaded | Skipped | Errored

  /** `reasons`: how many there are. */
  datatype PluginResult = PluginResult(name: string, status: LoadStatus, reasons: nat, plan: seq<PlanItem>)

  datatype RunStatus = Clean | Warning | Error

  datatype Report = Report(
    status: RunStatus,
    discovered: nat,
    loaded: nat,
    skipped: nat,
    planned: nat,
    plugins: seq<PluginResult>,
    errors: seq<Problem>)

  function ResultKey(r: PluginResult): Key {
    if r.plan != [] then Key(0, r.plan[0].order, r.name) else Key(1, "99999999999999", r.name)
  }

  /** `_pick_backend_migration_path` and the two checks on the file system. */
  function PickPath(e: Entry, m: Manifest, disk: string -> Disk): Result<Option<string>, Problem> {
    if m.migration.None? || m.migration.value.path.None? then Ok(None)
    else match e.resolved
      case Err(refusal) => Err(BadPath(refusal))
      case Ok(path) =>
        match disk(path)
        case Absent => Err(PathMissing)
        case NotAFile => Err(PathNotFile)
        case SqlFile(_, _) => Ok(Some(path))
  }

  function PlanFor(m: Manifest, path: Option<string>): seq<PlanItem> {
    if path.Some? && m.migration.Some? then [PlanItem(m.migration.value.order, m.name, path.value)] else []
  }

  function ResultFor(m: Manifest, path: Option<string>, warnings: nat): PluginResult {
    PluginResult(m.name, if path.None? then Skipped else Loaded,
                 if path.None? then warnings + 1 else warnings, PlanFor(m, path))
  }

  function ErrorResult(e: Entry): PluginResult {
    PluginResult(if e.load.Ok? then e.load.value.name else e.folder, Errored, 1, [])
  }

  datatype Examined = Examined(books: Books, result: PluginResult)

  function Examine(st: Setting, disk: string -> Disk, b: Books, e: Entry): Result<Examined, Problem> {
    if e.load.Err? then Err(NotLoaded(e.load.error))
    else
      var m := e.load.value;
      match PickPath(e, m, disk)
      case Err(p) => Err(p)
      case Ok(path) =>
        match Registered(st, b, m, e.found)
        case Err(reason) => Err(Unregistered(reason))
        case Ok(b') =>
          var receipt := CheckChecksum(m, st.mode, e.found);
          Ok(Examined(b', ResultFor(m, path, if receipt.Ok? then receipt.value.warnings else 0)))
  }

  datatype Progress = Progress(books: Books, results: seq<PluginResult>, errors: seq<Problem>, planned: nat)

  function Advance(st: Setting, disk: string -> Disk, p: Progress, e: Entry): Progress {
    match Examine(st, disk, p.books, e)
    case Err(problem) => p.(results := p.results + [ErrorResult(e)], errors := p.errors + [problem])
    case Ok(x) => Progress(x.books, p.results + [x.result], p.errors, p.planned + |x.result.plan|)
  }

  function ProgressOver(st: Setting, disk: string -> Disk, entries: seq<Entry>): Progress {
    if entries == [] then Progress(NO_BOOKS, [], [], 0)
    else Advance(st, disk, ProgressOver(st, disk, entries[..|entries| - 1]), entries[|entries| - 1])
  }

  function CountStatus(results: seq<PluginResult>, status: LoadStatus): nat {
    if results == [] then 0
    else CountStatus(results[..|results| - 1], status) + if results[|results| - 1].status == status then 1 else 0
  }

  predicate HasWarnings(results: seq<PluginResult>) {
    exists i :: 0 <= i < |results| && results[i].status != Errored && results[i].reasons > 0
  }

  function ReportOf(st: Setting, tree: Tree): Report {
    var p := ProgressOver(st, tree.disk, tree.entries);
    var plugins := Sort(ResultKey, p.results);
    Report(if p.errors != [] then Error else if HasWarnings(plugins) then Warning else Clean,
           |tree.entries|, CountStatus(plugins, Loaded), CountStatus(plugins, Skipped), p.planned, plugins, p.errors)
  }

  /** One manifest: find its SQL file, then register it. */
  method ExamineManifest(st: Setting, disk: string -> Disk, registry: Registry, e: Entry)
    returns (r: Result<PluginResult, Problem>)
    modifies registry, registry.ids
    ensures match Examine(st, disk, old(registry.View()), e)
            case Err(problem) => r == Err(problem) && registry.View() == old(registry.View())
            case Ok(x) => r == Ok(x.result) && registry.View() == x.books
  {
    if e.load.Err? {
      return Err(NotLoaded(e.load.error));
    }
    var path := PickPath(e, e.load.value, disk);
    if path.Err? {
      return Err(path.error);
    }
    var receipt := registry.Register(st, e.load.value, e.found);
    if receipt.Err? {
      return Err(Unregistered(receipt.error));
    }
    r := Ok(ResultFor(e.load.value, path.value, receipt.value.warnings));
  }

  method BuildDryRunReport(st: Setting, tree: Tree) returns (report: Report)
    ensures report == ReportOf(st, tree)
  {
    var registry := new Registry();
    var results: seq<PluginResult>, errors: seq<Problem>, planned: nat := [], [], 0;
    for i := 0 to |tree.entries|
      invariant fresh(registry) && fresh(registry.ids)
      invariant ProgressOver(st, tree.disk, tree.entries[..i]) == Progress(registry.View(), results, errors, planned)
    {
      var e := tree.entries[i];
      assert tree.entries[..i + 1][..i] == tree.entries[..i];
      var examined := ExamineManifest(st, tree.disk, registry, e);
      if examined.Ok? {
        results, planned := results + [examined.value], planned + |examined.value.plan|;
      } else {
        results, errors := results + [ErrorResult(e)], errors + [examined.error];
      }
    }
    assert tree.entries[..|tree.entries|] == tree.entries;
    results := Sort(ResultKey, results);
    var status := if errors != [] then Error else if HasWarnings(results) then Warning else Clean;
    report := Report(status, |tree.entries|, CountStatus(results, Loaded), CountStatus(results, Skipped),
                     planned, results, errors);
  }

  // ---- the two agree ------------------------------------------------------------------

  /** The plan items of a list of results, in order. */
  function Plans(results: seq<PluginResult>): seq<PlanItem> {
    if results == [] then []
    else Plans(results[..|results| - 1]) + results[|results| - 1].plan
  }

  lemma PlansGrow(results: seq<PluginResult>, r: PluginResult)
    ensures Plans(results + [r]) == Plans(results) + r.plan
  {
    assert (results + [r])[..|results|] == results;
  }

  /** A result carries at most one item, under its own name. */
  predicate OneItem(r: PluginResult) {
    r.plan == [] || (|r.plan| == 1 && r.plan[0].name == r.name)
  }

  lemma {:induction false} NoPlanNoItem(results: seq<PluginResult>, r: PluginResult)
    requires r.plan == []
    ensures Plans(Insert(ResultKey, results, r)) == Plans(results)
  {
    if results == [] || KeyLeq(ResultKey(results[|results| - 1]), ResultKey(r)) {
      PlansGrow(results, r);
    } else {
      var init, last := results[..|results| - 1], results[|results| - 1];
      NoPlanNoItem(init, r);
      PlansGrow(Insert(ResultKey, init, r), last);
    }
  }

  lemma SameOrder(a: PluginResult, b: PluginResult)
    requires OneItem(a) && OneItem(b) && b.plan != []
    ensures a.plan == [] ==> !KeyLeq(ResultKey(a), ResultKey(b))
    ensures a.plan != [] ==> (KeyLeq(ResultKey(a), ResultKey(b)) <==> KeyLeq(ItemKey(a.plan[0]), ItemKey(b.plan[0])))
  {
  }

  /** Going past a result is going past its item; results without one are all behind. */
  lemma {:induction false} InsertCommutesWithPlans(results: seq<PluginResult>, r: PluginResult)
    requires OneItem(r) && r.plan != [] && forall i :: 0 <= i < |results| ==> OneItem(results[i])
    ensures Plans(Insert(ResultKey, results, r)) == Insert(ItemKey, Plans(results), r.plan[0])
  {
    if results == [] {
      PlansGrow(results, r);
      assert Insert(ItemKey, [], r.plan[0]) == [r.plan[0]];
    } else {
      var init, last := results[..|results| - 1], results[|results| - 1];
      SameOrder(last, r);
      assert Plans(results) == Plans(init) + last.plan;
      if last.plan != [] {
        assert last.plan == [last.plan[0]];
        InsertAtLast(ItemKey, Plans(init), last.plan[0], r.plan[0]);
      }
      if KeyLeq(ResultKey(last), ResultKey(r)) {
        PlansGrow(results, r);
        assert r.plan == [r.plan[0]];
      } else {
        InsertCommutesWithPlans(init, r);
        PlansGrow(Insert(ResultKey, init, r), last);
        if last.plan == [] {
          assert Plans(results) == Plans(init);
        }
      }
    }
  }

  /** Sorting the results sorts their items. */
  lemma {:induction false} SortCommutesWithPlans(results: seq<PluginResult>)
    requires forall i :: 0 <= i < |results| ==> OneItem(results[i])
    ensures Plans(Sort(ResultKey, results)) == Sort(ItemKey, Plans(results))
  {
    if results == [] {
    } else {
      var init, r := results[..|results| - 1], results[|results| - 1];
      SortCommutesWithPlans(init);
      SortSorts(ResultKey, init);
      forall i | 0 <= i < |Sort(ResultKey, init)| ensures OneItem(Sort(ResultKey, init)[i]) {
        assert Sort(ResultKey, init)[i] in multiset(init);
      }
      if r.plan != [] {
        InsertCommutesWithPlans(Sort(ResultKey, init), r);
        assert r.plan == [r.plan[0]];
        assert Plans(results)[..|Plans(results)| - 1] == Plans(init);
      } else {
        NoPlanNoItem(Sort(ResultKey, init), r);
        assert Plans(results) == Plans(init);
      }
    }
  }

  lemma {:induction false} ResultsHoldOneItem(st: Setting, disk: string -> Disk, entries: seq<Entry>, i: nat)
    requires i < |ProgressOver(st, disk, entries).results|
    ensures OneItem(ProgressOver(st, disk, entries).results[i])
  {
    var before := ProgressOver(st, disk, entries[..|entries| - 1]);
    if i < |before.results| {
      ResultsHoldOneItem(st, disk, entries[..|entries| - 1], i);
    }
  }

  /** An entry the dry run accepts is collected, with the same item. */
  lemma AcceptedIsCollected(st: Setting, disk: string -> Disk, b: Books, e: Entry, plans: seq<PlanItem>)
    requires e.load.Ok? ==> Validated(e.load.value)
    requires Examine(st, disk, b, e).Ok?
    ensures var x := Examine(st, disk, b, e).value;
            CollectEntry(st.naming, Collection(b.ids, plans), e) == Ok(Collection(x.books.ids, plans + x.result.plan))
  {
    var m := e.load.value;
    RegisterAdds(st, b, m, e.found);
    assert plans + [] == plans;
  }

  /** As long as the dry run has met no error, the planner has met none and holds the same items. */
  lemma {:induction false} CleanPrefixesAgree(st: Setting, disk: string -> Disk, entries: seq<Entry>)
    requires forall i :: 0 <= i < |entries| && entries[i].load.Ok? ==> Validated(entries[i].load.value)
    requires ProgressOver(st, disk, entries).errors == []
    ensures CollectEntries(st.naming, entries)
         == Ok(Collection(ProgressOver(st, disk, entries).books.ids, Plans(ProgressOver(st, disk, entries).results)))
  {
    if entries == [] {
    } else {
      var init, e := entries[..|entries| - 1], entries[|entries| - 1];
      var p := ProgressOver(st, disk, init);
      CleanPrefixesAgree(st, disk, init);
      AcceptedIsCollected(st, disk, p.books, e, Plans(p.results));
      PlansGrow(p.results, Examine(st, disk, p.books, e).value.result);
    }
  }

  /**
   If the dry-run report has no errors, collecting the plans of the same tree succeeds and gives
   exactly the report's plan items in the report's order.
   */
  lemma CleanReportIsThePlan(st: Setting, tree: Tree)
    requires ValidTree(tree) && ReportOf(st, tree).errors == []
    ensures CollectPlans(st.naming, tree) == Ok(Plans(ReportOf(st, tree).plugins))
  {
    var p := ProgressOver(st, tree.disk, tree.entries);
    CleanPrefixesAgree(st, tree.disk, tree.entries);
    forall i | 0 <= i < |p.results| ensures OneItem(p.results[i]) {
      ResultsHoldOneItem(st, tree.disk, tree.entries, i);
    }
    SortCommutesWithPlans(p.results);
  }

  // ---- the report's own figures ---------------------------------------------------------

  lemma {:induction false} CountInsert(results: seq<PluginResult>, r: PluginResult, status: LoadStatus)
    ensures CountStatus(Insert(ResultKey, results, r), status)
         == CountStatus(results, status) + if r.status == status then 1 else 0
  {
    if results != [] && !KeyLeq(ResultKey(results[|results| - 1]), ResultKey(r)) {
      CountInsert(results[..|results| - 1], r, status);
      var rest := Insert(ResultKey, results[..|results| - 1], r);
      assert (rest + [results[|results| - 1]])[..|rest|] == rest;
    } else {
      assert (results + [r])[..|results|] == results;
    }
  }

  lemma {:induction false} CountSort(results: seq<PluginResult>, status: LoadStatus)
    ensures CountStatus(Sort(ResultKey, results), status) == CountStatus(results, status)
  {
    if results == [] {
    } else {
      CountSort(results[..|results| - 1], status);
      CountInsert(Sort(ResultKey, results[..|results| - 1]), results[|results| - 1], status);
    }
  }

  /** The figures of the dry run after `n` folders. */
  predicate AddsUp(p: Progress, n: nat) {
    && n == CountStatus(p.results, Loaded) + CountStatus(p.results, Skipped) + |p.errors|
    && p.planned == CountStatus(p.results, Loaded) == |Plans(p.results)|
    && |p.errors| == CountStatus(p.results, Errored)
  }

  lemma CountGrows(results: seq<PluginResult>, r: PluginResult, status: LoadStatus)
    ensures CountStatus(results + [r], status) == CountStatus(results, status) + if r.status == status then 1 else 0
  {
    assert (results + [r])[..|results|] == results;
  }

  /** A result is LOADED with one plan item, or SKIPPED with none. */
  lemma ExaminedStatus(st: Setting, disk: string -> Disk, b: Books, e: Entry)
    requires Examine(st, disk, b, e).Ok?
    ensures var r := Examine(st, disk, b, e).value.result;
            && r.status == (if |r.plan| == 1 then Loaded else Skipped)
            && |r.plan| <= 1
  {
  }

  lemma AdvanceAddsUp(st: Setting, disk: string -> Disk, p: Progress, e: Entry, n: nat)
    requires AddsUp(p, n)
    ensures AddsUp(Advance(st, disk, p, e), n + 1)
  {
    var r := ErrorResult(e);
    if Examine(st, disk, p.books, e).Ok? {
      ExaminedStatus(st, disk, p.books, e);
      r := Examine(st, disk, p.books, e).value.result;
    }
    CountGrows(p.results, r, Loaded);
    CountGrows(p.results, r, Skipped);
    CountGrows(p.results, r, Errored);
    PlansGrow(p.results, r);
  }

  lemma {:induction false} ProgressAddsUp(st: Setting, disk: string -> Disk, entries: seq<Entry>)
    ensures AddsUp(ProgressOver(st, disk, entries), |entries|)
  {
    if entries == [] {
    } else {
      var init, e := entries[..|entries| - 1], entries[|entries| - 1];
      ProgressAddsUp(st, disk, init);
      AdvanceAddsUp(st, disk, ProgressOver(st, disk, init), e, |init|);
    }
  }

  /** Every folder is loaded, skipped or an error, and a plan is made exactly for the loaded ones. */
  lemma ReportAddsUp(st: Setting, tree: Tree)
    ensures var report := ReportOf(st, tree);
            && report.discovered == report.loaded + report.skipped + |report.errors|
            && report.planned == report.loaded == |Plans(report.plugins)|
            && |report.errors| == CountStatus(report.plugins, Errored)
  {
    var p := ProgressOver(st, tree.disk, tree.entries);
    ProgressAddsUp(st, tree.disk, tree.entries);
    CountSort(p.results, Loaded);
    CountSort(p.results, Skipped);
    CountSort(p.results, Errored);
    forall i | 0 <= i < |p.results| ensures OneItem(p.results[i]) {
      ResultsHoldOneItem(st, tree.disk, tree.entries, i);
    }
    SortCommutesWithPlans(p.results);
    SortSorts(ItemKey, Plans(p.results));
    assert |Plans(p.results)| == |multiset(Plans(p.results))|;
    assert |Sort(ItemKey, Plans(p.results))| == |multiset(Sort(ItemKey, Plans(p.results)))|;
  }

  // ---- the collected plan ------------------------------------------------------------------

  predicate PlansNamed(c: Collection) {
    && (forall i :: 0 <= i < |c.plans| ==> c.plans[i].name in c.ids.names)
    && DistinctNames(c.plans)
  }

  ghost predicate NamesHeld(naming: Naming, c: Collection) {
    IdentitiesMatch(naming, c.ids) && PlansNamed(c)
  }

  lemma CollectAdds(naming: Naming, c: Collection, e: Entry)
    requires CollectEntry(naming, c, e).Ok?
    ensures var c' := CollectEntry(naming, c, e).value;
            && e.load.Ok? && Claim(naming, c.ids, e.load.value.name) == Ok(c'.ids)
            && c.plans <= c'.plans && |c'.plans| <= |c.plans| + 1
            && (|c'.plans| == |c.plans| + 1 ==> c'.plans[|c.plans|].name == e.load.value.name)
  {
  }

  lemma AddingKeepsNamed(c: Collection, c': Collection, name: string, schema: string)
    requires PlansNamed(c) && Claims(c.ids, c'.ids, name, schema)
    requires c.plans <= c'.plans && |c'.plans| <= |c.plans| + 1
    requires |c'.plans| == |c.plans| + 1 ==> c'.plans[|c.plans|].name == name
    ensures PlansNamed(c')
  {
    assert forall i :: 0 <= i < |c.plans| ==> c'.plans[i] == c.plans[i];
  }

  lemma CollectKeepsNames(naming: Naming, c: Collection, e: Entry)
    requires NamesHeld(naming, c) && CollectEntry(naming, c, e).Ok?
    ensures NamesHeld(naming, CollectEntry(naming, c, e).value)
  {
    CollectAdds(naming, c, e);
    var c' := CollectEntry(naming, c, e).value;
    var name := e.load.value.name;
    ClaimedSchema(naming, c.ids, name);
    AddingKeepsNamed(c, c', name, naming(name).value);
    ClaimKeepsMatch(naming, c.ids, name);
  }

  lemma {:induction false} CollectedNames(naming: Naming, entries: seq<Entry>)
    requires CollectEntries(naming, entries).Ok?
    ensures NamesHeld(naming, CollectEntries(naming, entries).value)
  {
    if entries == [] {
    } else {
      CollectedNames(naming, entries[..|entries| - 1]);
      CollectKeepsNames(naming, CollectEntries(naming, entries[..|entries| - 1]).value, entries[|entries| - 1]);
    }
  }

  predicate DistinctNames(plans: seq<PlanItem>) {
    forall i, j :: 0 <= i < j < |plans| ==> plans[i].name != plans[j].name
  }

  /** A collected plan is in order, has each plugin once, and every plugin in it has a schema. */
  lemma PlanIsOrdered(naming: Naming, tree: Tree)
    requires CollectPlans(naming, tree).Ok?
    ensures var plans := CollectPlans(naming, tree).value;
            && Sorted(ItemKey, plans) && DistinctNames(plans)
            && (forall i :: 0 <= i < |plans| ==> naming(plans[i].name).Ok?)
            && (forall i, j :: 0 <= i < j < |plans| ==>
                  LexLess(plans[i].order, plans[j].order)
                  || (plans[i].order == plans[j].order && LexLess(plans[i].name, plans[j].name)))
  {
    CollectedNames(naming, tree.entries);
    var c := CollectEntries(naming, tree.entries).value;
    SortSorts(ItemKey, c.plans);
    var plans := Sort(ItemKey, c.plans);
    DistinctSurvives(c.plans, plans);
    assert forall i, j :: 0 <= i < j < |plans| ==> KeyLeq(ItemKey(plans[i]), ItemKey(plans[j]));
    forall i | 0 <= i < |plans| ensures naming(plans[i].name).Ok? {
      assert plans[i] in multiset(c.plans);
    }
  }

  lemma DistinctSurvives(xs: seq<PlanItem>, ys: seq<PlanItem>)
    requires DistinctNames(xs) && multiset(xs) == multiset(ys)
    ensures DistinctNames(ys)
  {
    forall i, j | 0 <= i < j < |ys| ensures ys[i].name != ys[j].name {
      if ys[i].name == ys[j].name {
        assert ys[i] in multiset(xs) && ys[j] in multiset(xs);
        var k :| 0 <= k < |xs| && xs[k] == ys[i];
        var l :| 0 <= l < |xs| && xs[l] == ys[j];
        assert k == l;
        TwiceOver(ys, i, j);
        AtMostOnce(xs, k);
      }
    }
  }

  lemma TwiceOver(xs: seq<PlanItem>, i: nat, j: nat)
    requires i < j < |xs| && xs[i] == xs[j]
    ensures multiset(xs)[xs[i]] >= 2
  {
    assert xs == xs[..i] + [xs[i]] + xs[i + 1..j] + [xs[j]] + xs[j + 1..];
  }

  lemma AtMostOnce(xs: seq<PlanItem>, k: nat)
    requires DistinctNames(xs) && k < |xs|
    ensures multiset(xs)[xs[k]] == 1
  {
    assert xs == xs[..k] + [xs[k]] + xs[k + 1..];
    assert xs[k] !in xs[..k] && xs[k] !in xs[k + 1..];
  }

  // ---- what is planned ----------------------------------------------------------------------

  /** The manifest asks for a migration. */
  predicate Migrates(e: Entry) {
    && e.load.Ok? && e.load.value.migration.Some? && e.load.value.migration.value.path.Some?
    && e.load.value.migration.value.path.value != ""
  }

  /** The plan item such a manifest stands for. */
  function ItemOf(e: Entry): PlanItem
    requires Migrates(e) && e.resolved.Ok?
  {
    PlanItem(e.load.value.migration.value.order, e.load.value.name, e.resolved.value)
  }

  ghost predicate Asked(entries: seq<Entry>, item: PlanItem) {
    exists i :: 0 <= i < |entries| && Migrates(entries[i]) && entries[i].resolved.Ok? && item == ItemOf(entries[i])
  }

  lemma CollectEntryIs(naming: Naming, c: Collection, e: Entry)
    requires CollectEntry(naming, c, e).Ok?
    ensures e.load.Ok? && (Migrates(e) ==> e.resolved.Ok?)
    ensures CollectEntry(naming, c, e).value.plans == c.plans + if Migrates(e) then [ItemOf(e)] else []
  {
  }

  predicate AllReadable(entries: seq<Entry>) {
    forall i :: 0 <= i < |entries| ==> entries[i].load.Ok? && (Migrates(entries[i]) ==> entries[i].resolved.Ok?)
  }

  lemma AskedOneMore(init: seq<Entry>, e: Entry, item: PlanItem)
    ensures Asked(init + [e], item)
            <==> Asked(init, item) || (Migrates(e) && e.resolved.Ok? && item == ItemOf(e))
  {
    var entries := init + [e];
    if Asked(init, item) {
      var i :| 0 <= i < |init| && Migrates(init[i]) && init[i].resolved.Ok? && item == ItemOf(init[i]);
      assert entries[i] == init[i];
    }
    if Migrates(e) && e.resolved.Ok? && item == ItemOf(e) {
      assert entries[|init|] == e;
    }
  }

  lemma {:induction false} CollectedIsAsked(naming: Naming, entries: seq<Entry>, item: PlanItem)
    requires CollectEntries(naming, entries).Ok?
    ensures item in CollectEntries(naming, entries).value.plans <==> Asked(entries, item)
    ensures AllReadable(entries)
  {
    if entries == [] {
    } else {
      var init, e := entries[..|entries| - 1], entries[|entries| - 1];
      assert entries == init + [e];
      CollectedIsAsked(naming, init, item);
      CollectEntryIs(naming, CollectEntries(naming, init).value, e);
      AskedOneMore(init, e, item);
    }
  }

  /** A collected plan holds exactly the migrations the manifests ask for, once each. */
  lemma PlanIsWhatIsAsked(naming: Naming, tree: Tree, item: PlanItem)
    requires CollectPlans(naming, tree).Ok?
    ensures item in CollectPlans(naming, tree).value <==> Asked(tree.entries, item)
  {
    CollectedIsAsked(naming, tree.entries, item);
    var c := CollectEntries(naming, tree.entries).value;
    SortSorts(ItemKey, c.plans);
    assert item in multiset(c.plans) <==> item in multiset(Sort(ItemKey, c.plans));
  }

  // ---- what one folder is reported as ---------------------------------------------------------

  /** The manifest names an SQL file. */
  predicate NamesFile(m: Manifest) {
    m.migration.Some? && m.migration.value.path.Some?
  }

  /** The report on a folder: the first of its problems, or its plan and its warnings. */
  lemma ExaminedIs(st: Setting, disk: string -> Disk, b: Books, e: Entry)
    ensures e.load.Err? ==> Examine(st, disk, b, e) == Err(NotLoaded(e.load.error))
    ensures e.load.Ok? && NamesFile(e.load.value) && e.resolved.Err? ==>
              Examine(st, disk, b, e) == Err(BadPath(e.resolved.error))
    ensures e.load.Ok? && NamesFile(e.load.value) && e.resolved.Ok? ==>
              && (Examine(st, disk, b, e) == Err(PathMissing) <==> disk(e.resolved.value) == Absent)
              && (Examine(st, disk, b, e) == Err(PathNotFile) <==> disk(e.resolved.value) == NotAFile)
    ensures e.load.Ok? && (!NamesFile(e.load.value) || (e.resolved.Ok? && disk(e.resolved.value).SqlFile?)) ==>
              match Registered(st, b, e.load.value, e.found)
              case Err(reason) => Examine(st, disk, b, e) == Err(Unregistered(reason))
              case Ok(b') =>
                var warned := if e.found == NoPath || Genuine(e.load.value, e.found) then 0 else 1;
                var name := e.load.value.name;
                Examine(st, disk, b, e)
                == Ok(Examined(b', if NamesFile(e.load.value)
                                   then PluginResult(name, Loaded, warned,
                                          [PlanItem(e.load.value.migration.value.order, name, e.resolved.value)])
                                   else PluginResult(name, Skipped, warned + 1, [])))
  {
    if e.load.Ok? {
      RegisterChecks(st, b, e.load.value, e.found);
      ChecksumIs(e.load.value, st.mode, e.found);
    }
  }

  lemma RegisterChecks(st: Setting, b: Books, m: Manifest, found: Found)
    ensures Registered(st, b, m, found).Ok? ==> CheckChecksum(m, st.mode, found).Ok?
  {
  }

  /** The report's status: errors come first, then warnings about plugins that are no errors. */
  lemma ReportStatusIff(st: Setting, tree: Tree)
    ensures var report := ReportOf(st, tree);
            var warned := exists i :: && 0 <= i < |report.plugins| && report.plugins[i].status in {Loaded, Skipped}
                                      && report.plugins[i].reasons > 0;
            && (report.status == Error <==> report.errors != [])
            && (report.status == Warning <==> report.errors == [] && warned)
            && (report.status == Clean <==> report.errors == [] && !warned)
  {
  }

  /** The report lists plugins with a migration first, by order and name, then the others by name. */
  lemma ReportIsOrdered(st: Setting, tree: Tree, i: nat, j: nat)
    requires i < j < |ReportOf(st, tree).plugins|
    ensures var a, b := ReportOf(st, tree).plugins[i], ReportOf(st, tree).plugins[j];
            && (a.plan == [] ==> b.plan == [] && LexLeq(a.name, b.name))
            && (a.plan != [] && b.plan != [] ==>
                  LexLess(a.plan[0].order, b.plan[0].order)
                  || (a.plan[0].order == b.plan[0].order && LexLeq(a.name, b.name)))
  {
    var p := ProgressOver(st, tree.disk, tree.entries);
    SortSorts(ResultKey, p.results);
  }
}
