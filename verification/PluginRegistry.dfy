/** Claiming a plugin's name and schema, and the registry of plugin manifests. */
module PluginRegistry {
  import opened Common
  import opened SchemaNames

  datatype Scope = Wheel | Unpacked

  datatype Migration = Migration(order: string, path: Option<string>)

  datatype Manifest = Manifest(
    name: string,
    apiVersion: string,
    coreCompat: string,
    scope: Scope,
    checksum: string,
    scenarios: seq<string>,
    migration: Option<Migration>)

  /** What is found at a plugin's path, with the hash of its contents. */
  datatype Found = NoPath | File(hash: string) | Directory(hash: string) | Neither

  datatype Mode = Dev | Prod

  datatype Refusal =
    | ApiMismatch | NameConflict | CompatMismatch | ScopeMismatch | ChecksumMismatch
    | ScenarioConflict | SchemaConflict | BadName(reason: NameError)

  datatype Verdict = Matches | Differs

  /** What a successful registration reports: the checksum verdict and the number of warnings. */
  datatype Receipt = Receipt(checksum: Verdict, warnings: nat)

  /** How a plugin's name becomes its schema. */
  type Naming = string -> Result<string, NameError>

  function SchemaNaming(lc: Locale): Naming {
    name => PluginSchemaName(lc, name)
  }

  /** `compatible` decides `core_compat` for the running core version. */
  datatype Setting = Setting(naming: Naming, mode: Mode, compatible: string -> bool)

  // ---- claiming an identity --------------------------------------------------------

  datatype Identities = Identities(names: set<string>, owners: map<string, string>)

  function Claim(naming: Naming, ids: Identities, name: string): Result<Identities, Refusal> {
    if name in ids.names then Err(NameConflict)
    else match naming(name)
      case Err(reason) => Err(BadName(reason))
      case Ok(schema) =>
        if schema in ids.owners && ids.owners[schema] != name then Err(SchemaConflict)
        else Ok(Identities(ids.names + {name}, ids.owners[schema := name]))
  }

  /** The set and the dictionary a caller hands to `claim_plugin_identity`. */
  class IdentityBook {
    var names: set<string>
    var owners: map<string, string>

    function View(): Identities
      reads this
    {
      Identities(names, owners)
    }

    constructor ()
      ensures View() == Identities({}, map[])
    {
      names, owners := {}, map[];
    }

    method ClaimPluginIdentity(naming: Naming, name: string) returns (r: Result<string, Refusal>)
      modifies this
      ensures r.Ok? ==> Claim(naming, old(View()), name) == Ok(View()) && naming(name) == Ok(r.value)
      ensures r.Err? ==> Claim(naming, old(View()), name) == Err(r.error) && View() == old(View())
    {
      if name in names {
        return Err(NameConflict);
      }
      var schema := naming(name);
      if schema.Err? {
        return Err(BadName(schema.error));
      }
      if schema.value in owners && owners[schema.value] != name {
        return Err(SchemaConflict);
      }
      names := names + {name};
      owners := owners[schema.value := name];
      r := Ok(schema.value);
    }
  }

  // ---- registering -------------------------------------------------------------------

  datatype Books = Books(
    plugins: map<string, Manifest>,
    scenarioOwner: map<string, string>,
    ids: Identities)

  const NO_BOOKS: Books := Books(map[], map[], Identities({}, map[]))

  /** What is found is what the manifest's scope asks for. */
  predicate RightKind(m: Manifest, found: Found) {
    match m.scope
    case Wheel => found.File?
    case Unpacked => found.Directory?
  }

  /** It also has the manifest's hash. */
  predicate Genuine(m: Manifest, found: Found) {
    found == match m.scope case Wheel => File(m.checksum) case Unpacked => Directory(m.checksum)
  }

  /** Only production refuses, and exactly what is found and is not genuine; development warns once instead. */
  lemma ChecksumRefusedIff(m: Manifest, mode: Mode, found: Found)
    ensures CheckChecksum(m, mode, found).Err? <==> mode.Prod? && !found.NoPath? && !Genuine(m, found)
    ensures CheckChecksum(m, mode, found).Ok? ==>
              (CheckChecksum(m, mode, found).value.warnings == 0 <==> found.NoPath? || Genuine(m, found))
  {
  }

  function CheckChecksum(m: Manifest, mode: Mode, found: Found): Result<Receipt, Refusal> {
    if found.NoPath? then Ok(Receipt(Matches, 0))
    else if (m.scope.Wheel? && !found.File?) || (m.scope.Unpacked? && !found.Directory?) then
      if mode.Prod? then Err(ScopeMismatch) else Ok(Receipt(Differs, 1))
    else if found.hash == m.checksum then Ok(Receipt(Matches, 0))
    else if mode.Prod? then Err(ChecksumMismatch) else Ok(Receipt(Differs, 1))
  }

  function Own(owners: map<string, string>, scenarios: seq<string>, name: string): map<string, string> {
    if scenarios == [] then owners
    else Own(owners, scenarios[..|scenarios| - 1], name)[scenarios[|scenarios| - 1] := name]
  }

  function Registered(st: Setting, b: Books, m: Manifest, found: Found): Result<Books, Refusal> {
    if m.apiVersion != "v1" then Err(ApiMismatch)
    else if m.name in b.plugins then Err(NameConflict)
    else if !st.compatible(m.coreCompat) then Err(CompatMismatch)
    else if CheckChecksum(m, st.mode, found).Err? then Err(CheckChecksum(m, st.mode, found).error)
    else if exists s :: s in m.scenarios && s in b.scenarioOwner then Err(ScenarioConflict)
    else match Claim(st.naming, b.ids, m.name)
      case Err(e) => Err(e)
      case Ok(ids) => Ok(Books(b.plugins[m.name := m], Own(b.scenarioOwner, m.scenarios, m.name), ids))
  }

  class Registry {
    var plugins: map<string, Manifest>
    var scenarioOwner: map<string, string>
    const ids: IdentityBook

    function View(): Books
      reads this, ids
    {
      Books(plugins, scenarioOwner, ids.View())
    }

    constructor ()
      ensures View() == NO_BOOKS && fresh(ids)
    {
      plugins, scenarioOwner := map[], map[];
      ids := new IdentityBook();
    }

    method ValidateChecksum(m: Manifest, mode: Mode, found: Found) returns (r: Result<Receipt, Refusal>)
      ensures r.Err? <==> mode.Prod? && !found.NoPath? && !Genuine(m, found)
      ensures r.Err? ==> r.error == if RightKind(m, found) then ChecksumMismatch else ScopeMismatch
      ensures r.Ok? ==>
                r.value == if found.NoPath? || Genuine(m, found) then Receipt(Matches, 0) else Receipt(Differs, 1)
      ensures r == CheckChecksum(m, mode, found)
    {
      if found.NoPath? {
        return Ok(Receipt(Matches, 0));
      }
      if m.scope.Wheel? && !found.File? {
        return if mode.Prod? then Err(ScopeMismatch) else Ok(Receipt(Differs, 1));
      }
      if m.scope.Unpacked? && !found.Directory? {
        return if mode.Prod? then Err(ScopeMismatch) else Ok(Receipt(Differs, 1));
      }
      var actual := found.hash;
      if actual == m.checksum {
        return Ok(Receipt(Matches, 0));
      }
      r := if mode.Prod? then Err(ChecksumMismatch) else Ok(Receipt(Differs, 1));
    }

    method ValidateScenarioCollisions(m: Manifest) returns (free: bool)
      ensures free <==> forall s :: s in m.scenarios ==> s !in scenarioOwner
    {
      for i := 0 to |m.scenarios|
        invariant forall k :: 0 <= k < i ==> m.scenarios[k] !in scenarioOwner
      {
        if m.scenarios[i] in scenarioOwner {
          return false;
        }
      }
      free := true;
    }

    method Register(st: Setting, m: Manifest, found: Found) returns (r: Result<Receipt, Refusal>)
      modifies this, ids
      ensures r.Ok? ==> Registered(st, old(View()), m, found) == Ok(View()) && CheckChecksum(m, st.mode, found) == r
      ensures r.Err? ==> Registered(st, old(View()), m, found) == Err(r.error) && View() == old(View())
    {
      if m.apiVersion != "v1" {
        return Err(ApiMismatch);
      }
      if m.name in plugins {
        return Err(NameConflict);
      }
      if !st.compatible(m.coreCompat) {
        return Err(CompatMismatch);
      }
      r := ValidateChecksum(m, st.mode, found);
      if r.Err? {
        return;
      }
      var free := ValidateScenarioCollisions(m);
      if !free {
        return Err(ScenarioConflict);
      }
      var claimed := ids.ClaimPluginIdentity(st.naming, m.name);
      if claimed.Err? {
        return Err(claimed.error);
      }
      plugins := plugins[m.name := m];
      OwnScenarios(m);
    }

    method OwnScenarios(m: Manifest)
      modifies this`scenarioOwner
      ensures scenarioOwner == Own(old(scenarioOwner), m.scenarios, m.name)
    {
      for i := 0 to |m.scenarios|
        invariant scenarioOwner == Own(old(scenarioOwner), m.scenarios[..i], m.name)
      {
        assert m.scenarios[..i + 1][..i] == m.scenarios[..i];
        scenarioOwner := scenarioOwner[m.scenarios[i] := m.name];
      }
      assert m.scenarios[..|m.scenarios|] == m.scenarios;
    }
  }

  // ---- what the books always say --------------------------------------------------------

  /** Names and schemas are in bijection through the derivation. */
  predicate IdentitiesMatch(naming: Naming, ids: Identities) {
    && (forall n :: n in ids.names ==>
          naming(n).Ok? && naming(n).value in ids.owners
          && ids.owners[naming(n).value] == n)
    && (forall schema :: schema in ids.owners ==>
          ids.owners[schema] in ids.names && naming(ids.owners[schema]) == Ok(schema))
  }

  predicate Declares(b: Books, name: string, scenario: string) {
    name in b.plugins && scenario in b.plugins[name].scenarios
  }

  /** The owned scenarios are the disjoint union of the registered manifests' scenarios. */
  ghost predicate ScenariosMatch(b: Books) {
    forall s, n :: Declares(b, n, s) <==> s in b.scenarioOwner && b.scenarioOwner[s] == n
  }

  ghost predicate Sound(naming: Naming, b: Books) {
    && (forall n :: n in b.plugins ==> b.plugins[n].name == n)
    && b.ids.names == b.plugins.Keys
    && IdentitiesMatch(naming, b.ids)
    && ScenariosMatch(b)
  }

  lemma {:induction false} OwnIsUnion(owners: map<string, string>, scenarios: seq<string>, name: string, s: string)
    ensures s in Own(owners, scenarios, name) <==> s in owners || s in scenarios
    ensures s in scenarios ==> Own(owners, scenarios, name)[s] == name
    ensures s !in scenarios && s in owners ==> Own(owners, scenarios, name)[s] == owners[s]
  {
    if scenarios == [] {
    } else {
      var init, last := scenarios[..|scenarios| - 1], scenarios[|scenarios| - 1];
      assert scenarios == init + [last];
      OwnIsUnion(owners, init, name, s);
    }
  }

  /** What a claim does to the two tables, with the schema already derived. */
  predicate Claims(ids: Identities, ids': Identities, name: string, schema: string) {
    && name !in ids.names && (schema in ids.owners ==> ids.owners[schema] == name)
    && ids' == Identities(ids.names + {name}, ids.owners[schema := name])
  }

  lemma ClaimedSchema(naming: Naming, ids: Identities, name: string)
    ensures Claim(naming, ids, name).Ok? <==>
              (naming(name).Ok? && name !in ids.names
               && (naming(name).value in ids.owners ==>
                     ids.owners[naming(name).value] == name))
    ensures Claim(naming, ids, name).Ok? ==> Claims(ids, Claim(naming, ids, name).value, name, naming(name).value)
  {
  }

  lemma ClaimKeepsMatch(naming: Naming, ids: Identities, name: string)
    requires IdentitiesMatch(naming, ids) && Claim(naming, ids, name).Ok?
    ensures IdentitiesMatch(naming, Claim(naming, ids, name).value)
  {
    ClaimedSchema(naming, ids, name);
  }

  lemma ClaimIff(naming: Naming, ids: Identities, name: string)
    requires IdentitiesMatch(naming, ids)
    ensures Claim(naming, ids, name).Ok? <==>
              (naming(name).Ok? && name !in ids.names
               && forall n :: n in ids.names ==> naming(n) != naming(name))
  {
    ClaimedSchema(naming, ids, name);
  }

  /** What an accepted call adds. */
  ghost predicate Adds(naming: Naming, b: Books, b': Books, m: Manifest) {
    && m.name !in b.plugins && (forall s :: s in m.scenarios ==> s !in b.scenarioOwner)
    && b'.plugins == b.plugins[m.name := m]
    && b'.scenarioOwner == Own(b.scenarioOwner, m.scenarios, m.name)
    && Claim(naming, b.ids, m.name) == Ok(b'.ids)
  }

  lemma RegisterAdds(st: Setting, b: Books, m: Manifest, found: Found)
    ensures Registered(st, b, m, found).Ok? ==> Adds(st.naming, b, Registered(st, b, m, found).value, m)
  {
  }

  lemma AddingKeepsSound(naming: Naming, b: Books, b': Books, m: Manifest)
    requires Sound(naming, b) && Adds(naming, b, b', m)
    ensures Sound(naming, b')
  {
    ClaimKeepsMatch(naming, b.ids, m.name);
    ClaimedSchema(naming, b.ids, m.name);
    OwnershipGrows(b, m, b'.ids);
  }

  lemma OwnershipGrows(b: Books, m: Manifest, ids: Identities)
    requires ScenariosMatch(b) && m.name !in b.plugins && forall s :: s in m.scenarios ==> s !in b.scenarioOwner
    ensures ScenariosMatch(Books(b.plugins[m.name := m], Own(b.scenarioOwner, m.scenarios, m.name), ids))
  {
    var b' := Books(b.plugins[m.name := m], Own(b.scenarioOwner, m.scenarios, m.name), ids);
    forall s, n ensures Declares(b', n, s) <==> s in b'.scenarioOwner && b'.scenarioOwner[s] == n {
      OwnIsUnion(b.scenarioOwner, m.scenarios, m.name, s);
      assert Declares(b, n, s) <==> s in b.scenarioOwner && b.scenarioOwner[s] == n;
      assert !Declares(b, m.name, s);
    }
  }

  /** A call is accepted exactly for a compatible manifest that clashes with no registered one. */
  lemma RegisteredIff(st: Setting, b: Books, m: Manifest, found: Found)
    requires Sound(st.naming, b)
    ensures Registered(st, b, m, found).Ok?
            <==> && m.apiVersion == "v1" && st.compatible(m.coreCompat)
                 && CheckChecksum(m, st.mode, found).Ok?
                 && st.naming(m.name).Ok?
                 && forall n :: n in b.plugins ==> !Clash(st.naming, m, b.plugins[n])
  {
    ClashesAre(st.naming, b, m);
    ClaimIff(st.naming, b.ids, m.name);
  }

  /** What the books say of clashes with registered manifests. */
  lemma ClashesAre(naming: Naming, b: Books, m: Manifest)
    requires Sound(naming, b)
    ensures (forall n :: n in b.plugins ==> !Clash(naming, m, b.plugins[n]))
            <==> && m.name !in b.plugins
                 && (forall n :: n in b.ids.names ==> naming(n) != naming(m.name))
                 && (forall s :: s in m.scenarios ==> s !in b.scenarioOwner)
  {
    forall s | s in m.scenarios && s in b.scenarioOwner
      ensures exists n :: n in b.plugins && Clash(naming, m, b.plugins[n])
    {
      assert Declares(b, b.scenarioOwner[s], s);
    }
    forall n, s | n in b.plugins && s in m.scenarios && s in b.plugins[n].scenarios ensures s in b.scenarioOwner {
      assert Declares(b, n, s);
    }
  }

  /** Two manifests that cannot both be registered. */
  predicate Clash(naming: Naming, a: Manifest, b: Manifest) {
    || a.name == b.name
    || naming(a.name) == naming(b.name)
    || exists s :: s in a.scenarios && s in b.scenarios
  }

  // ---- any sequence of registrations ------------------------------------------------------

  datatype Call = Call(st: Setting, manifest: Manifest, found: Found)

  function AfterCall(b: Books, call: Call): Books {
    match Registered(call.st, b, call.manifest, call.found)
    case Ok(b') => b'
    case Err(_) => b
  }

  function AfterCalls(b: Books, calls: seq<Call>): Books {
    if calls == [] then b
    else AfterCall(AfterCalls(b, calls[..|calls| - 1]), calls[|calls| - 1])
  }

  ghost predicate NoClashes(naming: Naming, b: Books) {
    forall n, q :: n in b.plugins && q in b.plugins && Clash(naming, b.plugins[n], b.plugins[q]) ==> n == q
  }

  lemma CallKeepsSound(naming: Naming, b: Books, call: Call)
    requires Sound(naming, b) && NoClashes(naming, b) && call.st.naming == naming
    ensures Sound(naming, AfterCall(b, call)) && NoClashes(naming, AfterCall(b, call))
    ensures var b' := AfterCall(b, call);
            forall n :: n in b'.plugins ==>
              b'.plugins[n] == call.manifest || (n in b.plugins && b'.plugins[n] == b.plugins[n])
  {
    RegisterAdds(call.st, b, call.manifest, call.found);
    RegisteredIff(call.st, b, call.manifest, call.found);
    var b' := AfterCall(b, call);
    if b' != b {
      AddingKeepsSound(naming, b, b', call.manifest);
      AddingKeepsClear(naming, b, b', call.manifest);
    }
  }

  lemma AddingKeepsClear(naming: Naming, b: Books, b': Books, m: Manifest)
    requires NoClashes(naming, b) && b'.plugins == b.plugins[m.name := m]
    requires forall n :: n in b.plugins ==> !Clash(naming, m, b.plugins[n])
    ensures NoClashes(naming, b')
  {
    ClashIsSymmetric(naming, m);
  }

  /**
   After any sequence of registrations, refused ones included: names and schemas are in
   bijection, ownership is the disjoint union of the manifests, no two registered manifests clash, and
   only manifests of the sequence are registered.
   */
  lemma {:induction false} RegistryIsSound(naming: Naming, calls: seq<Call>)
    requires forall i :: 0 <= i < |calls| ==> calls[i].st.naming == naming
    ensures Sound(naming, AfterCalls(NO_BOOKS, calls)) && NoClashes(naming, AfterCalls(NO_BOOKS, calls))
    ensures forall n :: n in AfterCalls(NO_BOOKS, calls).plugins ==>
              exists i :: 0 <= i < |calls| && calls[i].manifest == AfterCalls(NO_BOOKS, calls).plugins[n]
  {
    if calls == [] {
    } else {
      var init, last := calls[..|calls| - 1], calls[|calls| - 1];
      RegistryIsSound(naming, init);
      var b := AfterCalls(NO_BOOKS, init);
      var b' := AfterCall(b, last);
      CallKeepsSound(naming, b, last);
      forall n | n in b'.plugins ensures exists i :: 0 <= i < |calls| && calls[i].manifest == b'.plugins[n] {
        if b'.plugins[n] == last.manifest {
          assert calls[|calls| - 1].manifest == b'.plugins[n];
        } else {
          var i :| 0 <= i < |init| && init[i].manifest == b.plugins[n];
          assert calls[i] == init[i];
        }
      }
    }
  }

  lemma ClashIsSymmetric(naming: Naming, m: Manifest)
    ensures forall a :: Clash(naming, a, m) <==> Clash(naming, m, a)
  {
    forall a ensures Clash(naming, a, m) <==> Clash(naming, m, a) {
      if s :| s in a.scenarios && s in m.scenarios {
        assert s in m.scenarios && s in a.scenarios;
      }
    }
  }

  /** With the derivation of `SchemaNames`, every schema of the registry is a valid name, and its owner's own. */
  lemma RegisteredSchemasAreValid(lc: Locale, calls: seq<Call>, schema: string)
    requires Ascii(lc) && forall i :: 0 <= i < |calls| ==> calls[i].st.naming == SchemaNaming(lc)
    requires schema in AfterCalls(NO_BOOKS, calls).ids.owners
    ensures var b := AfterCalls(NO_BOOKS, calls);
            && b.ids.owners[schema] in b.plugins
            && PluginSchemaName(lc, b.ids.owners[schema]) == Ok(schema) && ValidName(schema)
  {
    RegistryIsSound(SchemaNaming(lc), calls);
    DerivedNamesAreValid(lc, AfterCalls(NO_BOOKS, calls).ids.owners[schema]);
  }

  // ---- why a registration is refused -----------------------------------------------------

  predicate SharesScenario(b: Books, m: Manifest) {
    exists s :: s in m.scenarios && s in b.scenarioOwner
  }

  /** The reason of a refusal is the first check that fails. */
  lemma RefusalReason(st: Setting, b: Books, m: Manifest, found: Found)
    requires Sound(st.naming, b)
    ensures var r := Registered(st, b, m, found);
            var fit := m.apiVersion == "v1" && m.name !in b.plugins && st.compatible(m.coreCompat);
            var genuine := st.mode == Dev || found == NoPath || Genuine(m, found);
            && (r == Err(ApiMismatch) <==> m.apiVersion != "v1")
            && (r == Err(NameConflict) <==> m.apiVersion == "v1" && m.name in b.plugins)
            && (r == Err(CompatMismatch) <==>
                  m.apiVersion == "v1" && m.name !in b.plugins && !st.compatible(m.coreCompat))
            && (r == Err(ScopeMismatch) <==> fit && !genuine && !RightKind(m, found))
            && (r == Err(ChecksumMismatch) <==> fit && !genuine && RightKind(m, found))
            && (r == Err(ScenarioConflict) <==> fit && genuine && SharesScenario(b, m))
            && (r.Err? && r.error.BadName? <==>
                  fit && genuine && !SharesScenario(b, m) && st.naming(m.name).Err?)
            && (r == Err(SchemaConflict) <==>
                  && fit && genuine && !SharesScenario(b, m) && st.naming(m.name).Ok?
                  && exists n :: n in b.plugins && st.naming(n) == st.naming(m.name))
  {
    ChecksumIs(m, st.mode, found);
    if m.name !in b.plugins {
      ClaimReason(st.naming, b.ids, m.name);
    }
  }

  lemma ChecksumIs(m: Manifest, mode: Mode, found: Found)
    ensures CheckChecksum(m, mode, found)
         == if found == NoPath || Genuine(m, found) then Ok(Receipt(Matches, 0))
            else if mode == Dev then Ok(Receipt(Differs, 1))
            else if RightKind(m, found) then Err(ChecksumMismatch)
            else Err(ScopeMismatch)
  {
  }

  lemma ClaimReason(naming: Naming, ids: Identities, name: string)
    requires IdentitiesMatch(naming, ids) && name !in ids.names
    ensures Claim(naming, ids, name).Err? <==>
              naming(name).Err? || exists n :: n in ids.names && naming(n) == naming(name)
    ensures naming(name).Err? ==> Claim(naming, ids, name) == Err(BadName(naming(name).error))
    ensures naming(name).Ok? && Claim(naming, ids, name).Err? ==> Claim(naming, ids, name) == Err(SchemaConflict)
  {
    ClaimIff(naming, ids, name);
    if naming(name).Err? {
      assert forall n :: n in ids.names ==> naming(n).Ok?;
    }
  }
}
