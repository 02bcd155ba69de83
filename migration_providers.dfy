/**
 * The three migration providers. The assembly provider keeps the exported
 * types that can be instantiated as migrations and pass the caller's filter,
 * and orders the instances by name. The two script providers keep the ".ps1"
 * files of a folder listing, in listing order; the newer one also carries a
 * variables dictionary of its own.
 */
module MigrationProviders {
  import opened Errors
  import opened Text
  import opened Preprocessors
  import opened Migrations
  import opened Remote

  // ---------------------------------------------------------------------------
  // Assembly provider

  /** An exported type of the migrations assembly, with the instance Activator would create. */
  datatype ExportedType = ExportedType(
    fullName: string,
    implementsMigration: bool,
    isAbstract: bool,
    isClass: bool,
    hasDefaultConstructor: bool,
    instance: Migration)

  /** A concrete class implementing IMigration with a public parameterless constructor. */
  predicate IsCandidate(t: ExportedType)
  {
    t.implementsMigration && !t.isAbstract && t.isClass && t.hasDefaultConstructor
  }

  /** The candidate types whose full name passes the filter, instantiated, in export order. */
  function Candidates(types: seq<ExportedType>, filter: string -> bool): seq<Migration>
  {
    if |types| == 0 then []
    else
      (if IsCandidate(types[0]) && filter(types[0].fullName) then [types[0].instance] else [])
      + Candidates(types[1..], filter)
  }

  /** Exactly the instances of candidate types whose full name passes the filter. */
  lemma {:induction false} CandidatesMembers(types: seq<ExportedType>, filter: string -> bool)
    ensures forall m :: m in Candidates(types, filter) <==>
      exists t :: t in types && IsCandidate(t) && filter(t.fullName) && t.instance == m
  {
    if |types| > 0 {
      CandidatesMembers(types[1..], filter);
      assert forall t :: t in types <==> t == types[0] || t in types[1..];
    }
  }

  /** The filter of the one-argument constructor. */
  const AcceptAll: string -> bool := (name: string) => true

  /** The default filter keeps every candidate type. */
  lemma AcceptAllKeepsCandidates(types: seq<ExportedType>)
    ensures forall m :: m in Candidates(types, AcceptAll) <==>
      exists t :: t in types && IsCandidate(t) && t.instance == m
  {
    CandidatesMembers(types, AcceptAll);
  }

  predicate SortedByName(ms: seq<Migration>)
  {
    forall i, j :: 0 <= i < j < |ms| ==> OrdinalLessOrEqual(ms[i].name, ms[j].name)
  }

  /** Insert m before the first migration whose name is not below m's. */
  function InsertByName(m: Migration, ms: seq<Migration>): (r: seq<Migration>)
    ensures multiset(r) == multiset(ms) + multiset{m}
  {
    if |ms| == 0 then [m]
    else if OrdinalLessOrEqual(m.name, ms[0].name) then [m] + ms
    else
      assert ms == [ms[0]] + ms[1..];
      [ms[0]] + InsertByName(m, ms[1..])
  }

  /** Enumerable.OrderBy(migration => migration.Name), as an insertion sort. */
  function SortByName(ms: seq<Migration>): (r: seq<Migration>)
    ensures multiset(r) == multiset(ms)
  {
    if |ms| == 0 then []
    else
      assert ms == [ms[0]] + ms[1..];
      InsertByName(ms[0], SortByName(ms[1..]))
  }

  /** Every migration in ms has a name at or above n. */
  predicate NamesAtLeast(n: string, ms: seq<Migration>)
  {
    forall i :: 0 <= i < |ms| ==> OrdinalLessOrEqual(n, ms[i].name)
  }

  lemma {:induction false} InsertKeepsLowerBound(n: string, m: Migration, ms: seq<Migration>)
    requires NamesAtLeast(n, ms) && OrdinalLessOrEqual(n, m.name)
    ensures NamesAtLeast(n, InsertByName(m, ms))
  {
    if |ms| > 0 && !OrdinalLessOrEqual(m.name, ms[0].name) {
      InsertKeepsLowerBound(n, m, ms[1..]);
    }
  }

  lemma SortedCons(m: Migration, ms: seq<Migration>)
    requires NamesAtLeast(m.name, ms) && SortedByName(ms)
    ensures SortedByName([m] + ms)
  {
    var r := [m] + ms;
    forall i, j | 0 <= i < j < |r|
      ensures OrdinalLessOrEqual(r[i].name, r[j].name)
    {
      assert r[j] == ms[j - 1];
      if i > 0 {
        assert r[i] == ms[i - 1];
      }
    }
  }

  lemma {:induction false} InsertKeepsSorted(m: Migration, ms: seq<Migration>)
    requires SortedByName(ms)
    ensures SortedByName(InsertByName(m, ms))
  {
    if |ms| == 0 {
    } else if OrdinalLessOrEqual(m.name, ms[0].name) {
      forall j | 0 <= j < |ms|
        ensures OrdinalLessOrEqual(m.name, ms[j].name)
      {
        if j > 0 {
          OrdinalTransitive(m.name, ms[0].name, ms[j].name);
        }
      }
      SortedCons(m, ms);
    } else {
      OrdinalTotal(m.name, ms[0].name);
      assert SortedByName(ms[1..]) by {
        forall i, j | 0 <= i < j < |ms[1..]|
          ensures OrdinalLessOrEqual(ms[1..][i].name, ms[1..][j].name)
        {
          assert ms[1..][i] == ms[i + 1] && ms[1..][j] == ms[j + 1];
        }
      }
      InsertKeepsSorted(m, ms[1..]);
      assert NamesAtLeast(ms[0].name, ms[1..]) by {
        forall j | 0 <= j < |ms[1..]|
          ensures OrdinalLessOrEqual(ms[0].name, ms[1..][j].name)
        {
          assert ms[1..][j] == ms[j + 1];
        }
      }
      InsertKeepsLowerBound(ms[0].name, m, ms[1..]);
      SortedCons(ms[0], InsertByName(m, ms[1..]));
    }
  }

  lemma {:induction false} SortIsSorted(ms: seq<Migration>)
    ensures SortedByName(SortByName(ms))
  {
    if |ms| > 0 {
      SortIsSorted(ms[1..]);
      InsertKeepsSorted(ms[0], SortByName(ms[1..]));
    }
  }

  /** The migrations named n, in their order. */
  function WithName(ms: seq<Migration>, n: string): seq<Migration>
  {
    if |ms| == 0 then []
    else (if ms[0].name == n then [ms[0]] else []) + WithName(ms[1..], n)
  }

  lemma {:induction false} InsertWithName(m: Migration, ms: seq<Migration>, n: string)
    ensures WithName(InsertByName(m, ms), n) ==
      (if m.name == n then [m] + WithName(ms, n) else WithName(ms, n))
  {
    if |ms| == 0 {
      assert WithName([m], n) == (if m.name == n then [m] else []) + WithName([], n);
    } else if OrdinalLessOrEqual(m.name, ms[0].name) {
      assert ([m] + ms)[1..] == ms;
    } else {
      OrdinalTotal(m.name, m.name);
      assert ms[0].name != m.name;
      InsertWithName(m, ms[1..], n);
      var r := [ms[0]] + InsertByName(m, ms[1..]);
      assert r[0] == ms[0] && r[1..] == InsertByName(m, ms[1..]);
    }
  }

  /** OrderBy is stable: migrations sharing a name keep their relative order. */
  lemma {:induction false} SortIsStable(ms: seq<Migration>, n: string)
    ensures WithName(SortByName(ms), n) == WithName(ms, n)
  {
    if |ms| > 0 {
      SortIsStable(ms[1..], n);
      InsertWithName(ms[0], SortByName(ms[1..]), n);
    }
  }

  /** The assembly provider's GetMigrations. */
  function AssemblyMigrations(types: seq<ExportedType>, filter: string -> bool): seq<Migration>
  {
    SortByName(Candidates(types, filter))
  }

  /**
   * The result is ordered by name, is a permutation of the candidates that pass
   * the filter, and keeps migrations of equal name in export order.
   */
  lemma AssemblyMigrationsOrdered(types: seq<ExportedType>, filter: string -> bool)
    ensures SortedByName(AssemblyMigrations(types, filter))
    ensures multiset(AssemblyMigrations(types, filter)) == multiset(Candidates(types, filter))
    ensures forall n :: WithName(AssemblyMigrations(types, filter), n) == WithName(Candidates(types, filter), n)
  {
    SortIsSorted(Candidates(types, filter));
    forall n
      ensures WithName(AssemblyMigrations(types, filter), n) == WithName(Candidates(types, filter), n)
    {
      SortIsStable(Candidates(types, filter), n);
    }
  }

  // ---------------------------------------------------------------------------
  // Script providers

  /** The paths of a listing that pass a test, in listing order. */
  function Where(listing: seq<string>, keep: string -> bool): seq<string>
  {
    if |listing| == 0 then []
    else (if keep(listing[0]) then [listing[0]] else []) + Where(listing[1..], keep)
  }

  lemma {:induction false} WhereMembers(listing: seq<string>, keep: string -> bool)
    ensures forall path :: path in Where(listing, keep) <==> path in listing && keep(path)
  {
    if |listing| > 0 {
      WhereMembers(listing[1..], keep);
      assert forall path :: path in listing <==> path == listing[0] || path in listing[1..];
    }
  }

  lemma {:induction false} WhereAppend(a: seq<string>, b: seq<string>, keep: string -> bool)
    ensures Where(a + b, keep) == Where(a, keep) + Where(b, keep)
  {
    if |a| == 0 {
      assert a + b == b;
    } else {
      assert (a + b)[0] == a[0] && (a + b)[1..] == a[1..] + b;
      WhereAppend(a[1..], b, keep);
    }
  }

  /** The foreach over the listing: the ".ps1" files, in listing order. */
  function ScriptPaths(listing: seq<string>): seq<string>
  {
    Where(listing, IsScriptFile)
  }

  /**
   * Exactly the ".ps1" files of the listing are kept, and listing order is
   * kept: the scripts of a concatenated listing are concatenated.
   */
  lemma ScriptPathsInListingOrder(listing: seq<string>, more: seq<string>)
    ensures forall path :: path in ScriptPaths(listing) <==> path in listing && IsScriptFile(path)
    ensures ScriptPaths(listing + more) == ScriptPaths(listing) + ScriptPaths(more)
  {
    WhereMembers(listing, IsScriptFile);
    WhereAppend(listing, more, IsScriptFile);
  }

  /** The migration the older provider creates: named like a script, but Apply is not implemented. */
  function LegacyScriptMigration(path: string): (m: Migration)
    ensures m.name == GetFileName(path) && m.note == Some(path)
    ensures m.body == UnimplementedBody
  {
    Migration(GetFileName(path), Some(path), UnimplementedBody)
  }

  datatype MigrationProvider =
    | AssemblyProvider(types: seq<ExportedType>, filter: string -> bool)
    | ScriptProvider(folderPath: string, variables: VariableDictionary)
    | LegacyScriptProvider(folderPath: string)

  /** AssemblyMigrationProvider(assembly): the filter that accepts every name. */
  function NewAssemblyProvider(types: seq<ExportedType>): (p: MigrationProvider)
    ensures p.AssemblyProvider? && p.types == types
    ensures forall name :: p.filter(name)
  {
    AssemblyProvider(types, AcceptAll)
  }

  /** The older ScriptMigrationProvider(folderPath). */
  function NewLegacyScriptProvider(folderPath: Option<string>): (r: Result<MigrationProvider>)
    ensures r.Fail? <==> folderPath.None?
    ensures r.Fail? ==> r.error == ArgumentNullException("folderPath")
    ensures r.Ok? ==> r.value == LegacyScriptProvider(folderPath.value)
  {
    if folderPath.None? then Fail(ArgumentNullException("folderPath"))
    else Ok(LegacyScriptProvider(folderPath.value))
  }

  /**
   * ScriptMigrationProvider(folderPath, variables): the folder path is checked
   * first, then the dictionary is copied into one the provider owns.
   */
  method NewScriptProvider(folderPath: Option<string>, variables: VariableDictionary?)
    returns (r: Result<MigrationProvider>)
    ensures folderPath.None? ==> r == Fail(ArgumentNullException("folderPath"))
    ensures folderPath.Some? && variables == null ==> r == Fail(ArgumentNullException("dictionary"))
    ensures folderPath.Some? && variables != null ==>
      r.Ok? && r.value.ScriptProvider? && r.value.folderPath == folderPath.value
      && fresh(r.value.variables) && r.value.variables.entries == variables.entries
  {
    if folderPath.None? {
      return Fail(ArgumentNullException("folderPath"));
    }
    if variables == null {
      return Fail(ArgumentNullException("dictionary"));
    }
    var copy := new VariableDictionary(variables.entries);
    r := Ok(ScriptProvider(folderPath.value, copy));
  }

  /** ScriptMigrationProvider(folderPath): an empty dictionary of its own. */
  method NewDefaultScriptProvider(folderPath: Option<string>) returns (r: Result<MigrationProvider>)
    ensures folderPath.None? ==> r == Fail(ArgumentNullException("folderPath"))
    ensures folderPath.Some? ==>
      r.Ok? && r.value.ScriptProvider? && r.value.folderPath == folderPath.value
      && fresh(r.value.variables) && r.value.variables.entries == map[]
  {
    var empty := new VariableDictionary(map[]);
    r := NewScriptProvider(folderPath, empty);
  }

  /** IMigrationProvider.GetMigrations; a folder that is not listed throws DirectoryNotFoundException. */
  function GetMigrations(p: MigrationProvider, fs: FileSystem): (r: Result<seq<Migration>>)
    ensures r.Fail? <==> !p.AssemblyProvider? && p.folderPath !in fs.listings
    ensures r.Fail? ==> r.error == DirectoryNotFoundException(p.folderPath)
    ensures r.Ok? && p.ScriptProvider? ==>
      var paths := ScriptPaths(fs.listings[p.folderPath]);
      |r.value| == |paths| &&
      forall i :: 0 <= i < |paths| ==> r.value[i] == ScriptMigration(paths[i], Some(p.variables))
    ensures r.Ok? && p.LegacyScriptProvider? ==>
      var paths := ScriptPaths(fs.listings[p.folderPath]);
      |r.value| == |paths| &&
      forall i :: 0 <= i < |paths| ==> r.value[i] == LegacyScriptMigration(paths[i])
  {
    match p
    case AssemblyProvider(types, filter) => Ok(AssemblyMigrations(types, filter))
    case ScriptProvider(folder, variables) =>
      if folder !in fs.listings then Fail(DirectoryNotFoundException(folder))
      else
        var paths := ScriptPaths(fs.listings[folder]);
        Ok(seq(|paths|, i requires 0 <= i < |paths| => ScriptMigration(paths[i], Some(variables))))
    case LegacyScriptProvider(folder) =>
      if folder !in fs.listings then Fail(DirectoryNotFoundException(folder))
      else
        var paths := ScriptPaths(fs.listings[folder]);
        Ok(seq(|paths|, i requires 0 <= i < |paths| => LegacyScriptMigration(paths[i])))
  }

  /** Applying any migration of the older script provider throws NotImplementedException. */
  lemma LegacyMigrationsNotImplemented(p: MigrationProvider, fs: FileSystem, cm: ContextManager, scripts: FileSystem)
    requires p.LegacyScriptProvider? && GetMigrations(p, fs).Ok?
    ensures forall m :: m in GetMigrations(p, fs).value ==> BodyOutcome(m, cm, scripts) == Throw(NotImplementedException)
  {
  }
}
