/**
 * The migrator: it validates its configuration, opens a context scope, reads
 * the journal, collects the migrations of every provider, keeps those whose
 * name the journal does not already hold (ignoring case), then applies and
 * journals them one by one. The first exception stops the run; the records
 * journalled so far are returned with it.
 */
module MigrationEngine {
  import opened Errors
  import opened Text
  import opened OrderedMaps
  import opened Remote
  import opened Journals
  import Json
  import opened Migrations
  import opened MigrationProviders

  /** MigrationResult: a snapshot of the records applied, the verdict and the error. */
  datatype MigrationResult = MigrationResult(migrations: seq<MigrationInfo>, successful: bool, error: Option<Exception>)

  const NoLogMessage: string :=
    "A log is required to run migrations. Please leave at the default Trace logger, or replace with another logger."
  const NoProvidersMessage: string :=
    "No migration providers were added. Please add an assembly (or other) migration provider."

  /**
   * MigratorConfiguration: the log (present or not), the mutable list of
   * providers, and the journal and context manager the migrator uses.
   */
  class MigratorConfiguration {
    var hasLog: bool
    var migrationProviders: seq<MigrationProvider>
    var journal: Option<Journal>
    var contextManager: ContextManager?

    /** A new configuration logs to the default trace log and has nothing else. */
    constructor ()
      ensures hasLog && migrationProviders == [] && journal.None? && contextManager == null
    {
      hasLog := true;
      migrationProviders := [];
      journal := None;
      contextManager := null;
    }

    /** MigrationProviders.Add. */
    method AddMigrationProvider(p: MigrationProvider)
      modifies this
      ensures migrationProviders == old(migrationProviders) + [p]
      ensures hasLog == old(hasLog) && journal == old(journal) && contextManager == old(contextManager)
    {
      migrationProviders := migrationProviders + [p];
    }

    /** Validate: a log and at least one provider are required, checked in that order. */
    function Validate(): (o: Outcome)
      reads this
      ensures o == Pass <==> hasLog && |migrationProviders| > 0
      ensures !hasLog ==> o == Throw(ArgumentException(NoLogMessage))
      ensures hasLog && |migrationProviders| == 0 ==> o == Throw(ArgumentException(NoProvidersMessage))
    {
      if !hasLog then Throw(ArgumentException(NoLogMessage))
      else if |migrationProviders| == 0 then Throw(ArgumentException(NoProvidersMessage))
      else Pass
    }
  }

  // ---------------------------------------------------------------------------
  // Which migrations run

  /**
   * SelectMany over the providers: the migrations of each, in provider order;
   * the first provider that fails stops the enumeration with its error.
   */
  function Collect(providers: seq<MigrationProvider>, get: MigrationProvider -> Result<seq<Migration>>): Result<seq<Migration>>
    decreases |providers|
  {
    if |providers| == 0 then Ok([])
    else
      match get(providers[0])
      case Fail(e) => Fail(e)
      case Ok(first) =>
        match Collect(providers[1..], get)
        case Fail(e) => Fail(e)
        case Ok(rest) => Ok(first + rest)
  }

  /** The migrations every provider offers against the file system. */
  function AvailableMigrations(providers: seq<MigrationProvider>, fs: FileSystem): Result<seq<Migration>>
  {
    Collect(providers, p => GetMigrations(p, fs))
  }

  /**
   * The enumeration succeeds exactly when every provider does, and otherwise
   * fails with the error of the first provider that fails.
   */
  lemma {:induction false} CollectOutcome(providers: seq<MigrationProvider>, get: MigrationProvider -> Result<seq<Migration>>)
    ensures var r := Collect(providers, get);
      (r.Ok? <==> forall k :: 0 <= k < |providers| ==> get(providers[k]).Ok?) &&
      (r.Fail? ==> exists k :: 0 <= k < |providers| && get(providers[k]) == Fail(r.error) &&
                               forall j :: 0 <= j < k ==> get(providers[j]).Ok?)
    decreases |providers|
  {
    if |providers| > 0 && get(providers[0]).Ok? {
      var tail := providers[1..];
      CollectOutcome(tail, get);
      assert forall k :: 0 <= k < |tail| ==> tail[k] == providers[k + 1];
      var r := Collect(providers, get);
      if r.Fail? {
        var k :| 0 <= k < |tail| && get(tail[k]) == Fail(r.error) &&
                 forall j :: 0 <= j < k ==> get(tail[j]).Ok?;
        assert get(providers[k + 1]) == Fail(r.error);
        assert forall j :: 0 <= j < k + 1 ==> get(providers[j]).Ok? by {
          forall j | 0 <= j < k + 1
            ensures get(providers[j]).Ok?
          {
            if j > 0 {
              assert providers[j] == tail[j - 1];
            }
          }
        }
      }
    }
  }

  /** Adding providers appends their migrations. */
  lemma {:induction false} CollectAppend(ps: seq<MigrationProvider>, qs: seq<MigrationProvider>,
                                         get: MigrationProvider -> Result<seq<Migration>>)
    requires Collect(ps, get).Ok? && Collect(qs, get).Ok?
    ensures Collect(ps + qs, get) == Ok(Collect(ps, get).value + Collect(qs, get).value)
    decreases |ps|
  {
    if |ps| == 0 {
      assert ps + qs == qs;
      assert [] + Collect(qs, get).value == Collect(qs, get).value;
    } else {
      assert (ps + qs)[0] == ps[0];
      assert (ps + qs)[1..] == ps[1..] + qs;
      CollectAppend(ps[1..], qs, get);
      var first := get(ps[0]).value;
      var a := Collect(ps[1..], get).value;
      var b := Collect(qs, get).value;
      assert first + (a + b) == (first + a) + b;
    }
  }

  /** Every provider succeeds exactly when the enumeration does; else the first failure is reported. */
  lemma AvailableMigrationsOutcome(providers: seq<MigrationProvider>, fs: FileSystem)
    ensures var r := AvailableMigrations(providers, fs);
      (r.Ok? <==> forall k :: 0 <= k < |providers| ==> GetMigrations(providers[k], fs).Ok?) &&
      (r.Fail? ==> exists k :: 0 <= k < |providers| && GetMigrations(providers[k], fs) == Fail(r.error) &&
                               forall j :: 0 <= j < k ==> GetMigrations(providers[j], fs).Ok?)
  {
    CollectOutcome(providers, p => GetMigrations(p, fs));
  }

  /** The migrations of a list of providers are those of its parts, in order. */
  lemma AvailableMigrationsAppend(ps: seq<MigrationProvider>, qs: seq<MigrationProvider>, fs: FileSystem)
    requires AvailableMigrations(ps, fs).Ok? && AvailableMigrations(qs, fs).Ok?
    ensures AvailableMigrations(ps + qs, fs) == Ok(AvailableMigrations(ps, fs).value + AvailableMigrations(qs, fs).value)
  {
    CollectAppend(ps, qs, p => GetMigrations(p, fs));
  }

  /** Some journal record has the name, compared ignoring case. */
  predicate Journalled(previous: seq<MigrationInfo>, name: string)
  {
    exists k :: 0 <= k < |previous| && EqualsIgnoreCase(previous[k].name, name)
  }

  /** The available migrations, in order, whose name the journal does not hold. */
  function MigrationsToRun(available: seq<Migration>, previous: seq<MigrationInfo>): (r: seq<Migration>)
    ensures |r| <= |available|
    decreases |available|
  {
    if |available| == 0 then []
    else
      var rest := MigrationsToRun(available[1..], previous);
      if Journalled(previous, available[0].name) then rest else [available[0]] + rest
  }

  /** A migration runs exactly when it is available and not journalled. */
  lemma {:induction false} MigrationsToRunMembers(available: seq<Migration>, previous: seq<MigrationInfo>)
    ensures forall m :: m in MigrationsToRun(available, previous) <==> m in available && !Journalled(previous, m.name)
    decreases |available|
  {
    if |available| > 0 {
      MigrationsToRunMembers(available[1..], previous);
      assert available == [available[0]] + available[1..];
    }
  }

  /** The filter keeps the providers' order: it distributes over concatenation. */
  lemma {:induction false} MigrationsToRunAppend(a: seq<Migration>, b: seq<Migration>, previous: seq<MigrationInfo>)
    ensures MigrationsToRun(a + b, previous) == MigrationsToRun(a, previous) + MigrationsToRun(b, previous)
    decreases |a|
  {
    if |a| == 0 {
      assert a + b == b;
    } else {
      assert (a + b)[0] == a[0];
      assert (a + b)[1..] == a[1..] + b;
      MigrationsToRunAppend(a[1..], b, previous);
    }
  }

  /** Filtering by two journals one after the other is filtering by both. */
  lemma {:induction false} MigrationsToRunTwice(available: seq<Migration>, p: seq<MigrationInfo>, q: seq<MigrationInfo>)
    ensures MigrationsToRun(MigrationsToRun(available, p), q) == MigrationsToRun(available, p + q)
    decreases |available|
  {
    if |available| > 0 {
      MigrationsToRunTwice(available[1..], p, q);
      var name := available[0].name;
      assert Journalled(p + q, name) <==> Journalled(p, name) || Journalled(q, name) by {
        if Journalled(p, name) {
          var k :| 0 <= k < |p| && EqualsIgnoreCase(p[k].name, name);
          assert (p + q)[k] == p[k];
        }
        if Journalled(q, name) {
          var k :| 0 <= k < |q| && EqualsIgnoreCase(q[k].name, name);
          assert (p + q)[|p| + k] == q[k];
        }
      }
      if !Journalled(p, name) {
        assert MigrationsToRun(available, p) == [available[0]] + MigrationsToRun(available[1..], p);
        assert ([available[0]] + MigrationsToRun(available[1..], p))[1..] == MigrationsToRun(available[1..], p);
      }
    }
  }

  /** Filtering again by the same journal changes nothing. */
  lemma MigrationsToRunIdempotent(available: seq<Migration>, previous: seq<MigrationInfo>)
    ensures MigrationsToRun(MigrationsToRun(available, previous), previous) == MigrationsToRun(available, previous)
  {
    MigrationsToRunTwice(available, previous, previous);
    MigrationsToRunMembers(available, previous);
    MigrationsToRunMembers(available, previous + previous);
    JournalledTwice(previous);
    assert MigrationsToRun(available, previous + previous) == MigrationsToRun(available, previous) by {
      SameJournalSameRun(available, previous + previous, previous);
    }
  }

  lemma JournalledTwice(previous: seq<MigrationInfo>)
    ensures forall name :: Journalled(previous + previous, name) <==> Journalled(previous, name)
  {
    forall name | Journalled(previous + previous, name)
      ensures Journalled(previous, name)
    {
      var k :| 0 <= k < 2 * |previous| && EqualsIgnoreCase((previous + previous)[k].name, name);
      if k < |previous| {
        assert (previous + previous)[k] == previous[k];
      } else {
        assert (previous + previous)[k] == previous[k - |previous|];
      }
    }
    forall name | Journalled(previous, name)
      ensures Journalled(previous + previous, name)
    {
      var k :| 0 <= k < |previous| && EqualsIgnoreCase(previous[k].name, name);
      assert (previous + previous)[k] == previous[k];
    }
  }

  /** Two journals that hold the same names, up to case, select the same migrations. */
  lemma {:induction false} SameJournalSameRun(available: seq<Migration>, p: seq<MigrationInfo>, q: seq<MigrationInfo>)
    requires forall name :: Journalled(p, name) <==> Journalled(q, name)
    ensures MigrationsToRun(available, p) == MigrationsToRun(available, q)
    decreases |available|
  {
    if |available| > 0 {
      SameJournalSameRun(available[1..], p, q);
    }
  }

  /** Migrations that are all journalled leave nothing to run. */
  lemma {:induction false} AllJournalledNothingToRun(s: seq<Migration>, q: seq<MigrationInfo>)
    requires forall k :: 0 <= k < |s| ==> Journalled(q, s[k].name)
    ensures MigrationsToRun(s, q) == []
    decreases |s|
  {
    if |s| > 0 {
      assert Journalled(q, s[0].name);
      assert forall k :: 0 <= k < |s[1..]| ==> s[1..][k] == s[k + 1];
      AllJournalledNothingToRun(s[1..], q);
    }
  }

  /** Once the journal also holds a record per migration run, nothing is left to run. */
  lemma NothingLeftAfterJournalling(available: seq<Migration>, previous: seq<MigrationInfo>, records: seq<MigrationInfo>)
    requires var toRun := MigrationsToRun(available, previous);
      |records| == |toRun| && forall k :: 0 <= k < |toRun| ==> records[k].name == toRun[k].name
    ensures MigrationsToRun(available, previous + records) == []
  {
    var toRun := MigrationsToRun(available, previous);
    MigrationsToRunTwice(available, previous, records);
    forall k | 0 <= k < |toRun|
      ensures Journalled(records, toRun[k].name)
    {
      assert EqualsIgnoreCase(records[k].name, toRun[k].name);
    }
    AllJournalledNothingToRun(toRun, records);
  }

  /** A migration whose name differs only in case from a journalled one does not run. */
  lemma CaseInsensitiveMatch()
    ensures var m := Migration("AddLists", None, CodeBody(Pass));
      MigrationsToRun([m], [MigrationInfo(1, "ADDLISTS", None, MinValue)]) == []
  {
    var previous := [MigrationInfo(1, "ADDLISTS", None, MinValue)];
    assert EqualsIgnoreCase(previous[0].name, "AddLists");
    assert Journalled(previous, "AddLists");
  }

  /** Two unjournalled migrations with the same name both run, in order. */
  lemma DuplicateNamesBothRun()
    ensures var m1 := Migration("Setup", None, CodeBody(Pass));
      var m2 := Migration("setup", Some("second"), CodeBody(Pass));
      MigrationsToRun([m1, m2], []) == [m1, m2]
  {
    var m1 := Migration("Setup", None, CodeBody(Pass));
    var m2 := Migration("setup", Some("second"), CodeBody(Pass));
    assert [m1, m2][1..] == [m2];
  }

  // ---------------------------------------------------------------------------
  // The run, as the fault set of the site determines it

  /**
   * The exception applying and journalling one migration throws, if any:
   * its body, then the journal's read and write of the property bag.
   */
  function StepFailure(m: Migration, cm: ContextManager, fs: FileSystem, journal: Journal): (e: Option<Exception>)
    ensures e.None? <==>
      BodyOutcome(m, cm, fs) == Pass &&
      (journal.WebJournal? ==> LoadProperties !in cm.site.faults && UpdateProperties !in cm.site.faults)
  {
    var body := BodyOutcome(m, cm, fs);
    if body.Throw? then Some(body.error)
    else if journal.WebJournal? && LoadProperties in cm.site.faults then Some(cm.site.FaultOf(LoadProperties))
    else if journal.WebJournal? && UpdateProperties in cm.site.faults then Some(cm.site.FaultOf(UpdateProperties))
    else None
  }

  /** The index of the first migration that fails, or the number of migrations. */
  function FirstFailure(toRun: seq<Migration>, cm: ContextManager, fs: FileSystem, journal: Journal): (n: nat)
    ensures n <= |toRun|
    ensures forall k :: 0 <= k < n ==> StepFailure(toRun[k], cm, fs, journal).None?
    ensures n < |toRun| ==> StepFailure(toRun[n], cm, fs, journal).Some?
    decreases |toRun|
  {
    if |toRun| == 0 then 0
    else if StepFailure(toRun[0], cm, fs, journal).Some? then 0
    else 1 + FirstFailure(toRun[1..], cm, fs, journal)
  }

  /** The Id the web journal gives its n-th store after a read that left start. */
  function IdAfter(start: long, n: nat): long
  {
    if n == 0 then start else NextId(IdAfter(start, n - 1))
  }

  /** Below the largest long, the n-th store after start gets start + n. */
  lemma {:induction false} IdAfterCounts(start: long, n: nat)
    requires start + n <= MaxLong
    ensures IdAfter(start, n) == start + n
  {
    if n > 0 {
      IdAfterCounts(start, n - 1);
    }
  }

  /** The record journalled for the k-th migration run. */
  function RecordFor(m: Migration, k: nat, journal: Journal, startId: long, now: int): MigrationInfo
  {
    MigrationInfo(if journal.NullJournal? then 0 else IdAfter(startId, k + 1), m.name, m.note, At(now))
  }

  /** The records of the first n migrations run. */
  function ExpectedRecords(toRun: seq<Migration>, n: nat, journal: Journal, startId: long, now: int): (r: seq<MigrationInfo>)
    requires n <= |toRun|
    ensures |r| == n
    ensures forall k :: 0 <= k < n ==> r[k].name == toRun[k].name && r[k].note == toRun[k].note
  {
    seq(n, k requires 0 <= k < n => RecordFor(toRun[k], k, journal, startId, now))
  }

  lemma ExpectedRecordsSnoc(toRun: seq<Migration>, n: nat, journal: Journal, startId: long, now: int)
    requires n < |toRun|
    ensures ExpectedRecords(toRun, n + 1, journal, startId, now) ==
      ExpectedRecords(toRun, n, journal, startId, now) + [RecordFor(toRun[n], n, journal, startId, now)]
  {
  }

  /** The property the web journal writes for a record; the null journal writes nothing. */
  function JournalEffects(journal: Journal, record: MigrationInfo): seq<Effect>
  {
    match journal
    case NullJournal => []
    case WebJournal(j) => [PropertySet(JournalKey(j.prefix, record.id), j.json.serialize(record))]
  }

  /** One migration applied, then its record journalled. */
  function StepEffects(m: Migration, journal: Journal, record: MigrationInfo): seq<Effect>
  {
    [MigrationApplied(m.name)] + JournalEffects(journal, record)
  }

  /** What the server accepts for the migrations recorded: each one applied, then journalled. */
  function RunEffects(toRun: seq<Migration>, records: seq<MigrationInfo>, journal: Journal): (r: seq<Effect>)
    requires |records| <= |toRun|
    ensures |r| >= |records|
    decreases |records|
  {
    if |records| == 0 then []
    else
      var n := |records| - 1;
      RunEffects(toRun, records[..n], journal) + StepEffects(toRun[n], journal, records[n])
  }

  /** Recording one more migration extends the accepted changes by its step. */
  lemma RunEffectsSnoc(h0: seq<Effect>, toRun: seq<Migration>, records: seq<MigrationInfo>, record: MigrationInfo, journal: Journal)
    requires |records| < |toRun|
    ensures h0 + RunEffects(toRun, records + [record], journal) ==
      h0 + RunEffects(toRun, records, journal) + StepEffects(toRun[|records|], journal, record)
  {
    assert (records + [record])[..|records|] == records;
  }

  /** One more recorded migration adds its step's changes at the end. */
  lemma RunEffectsAppend(toRun: seq<Migration>, records: seq<MigrationInfo>, record: MigrationInfo, journal: Journal)
    requires |records| < |toRun|
    ensures RunEffects(toRun, records + [record], journal) ==
      RunEffects(toRun, records, journal) + StepEffects(toRun[|records|], journal, record)
  {
    assert (records + [record])[..|records|] == records;
  }

  /** A failed step still leaves the migration applied when only its journalling failed. */
  function FailedStepEffects(m: Migration, cm: ContextManager, fs: FileSystem): seq<Effect>
  {
    if BodyOutcome(m, cm, fs) == Pass then [MigrationApplied(m.name)] else []
  }

  /** Without a journal, the server only sees the migrations, in run order. */
  lemma {:induction false} NullJournalRunEffects(toRun: seq<Migration>, records: seq<MigrationInfo>)
    requires |records| <= |toRun|
    ensures RunEffects(toRun, records, NullJournal) == seq(|records|, k requires 0 <= k < |records| => MigrationApplied(toRun[k].name))
    decreases |records|
  {
    if |records| > 0 {
      NullJournalRunEffects(toRun, records[..|records| - 1]);
    }
  }

  /** Replaying one step on the web journal only sets its record's property. */
  lemma WebStepReplay(site: Site, t: SiteState, m: Migration, j: WebPropertyBagJournal, record: MigrationInfo)
    ensures site.Replay(t, StepEffects(m, WebJournal(j), record)) ==
      t.(properties := Set(t.properties, Ordinal, JournalKey(j.prefix, record.id), j.json.serialize(record)))
  {
    var step := PropertySet(JournalKey(j.prefix, record.id), j.json.serialize(record));
    var es := StepEffects(m, WebJournal(j), record);
    assert es == [MigrationApplied(m.name), step];
    assert es[1..] == [step];
    assert site.Apply(t, es[0]) == t;
    site.ReplayOne(t, step);
  }

  /**
   * The Ids of the records a run stores: 0 on the null journal, and on the
   * web journal consecutive Ids after the largest one read, below the
   * largest long.
   */
  lemma ExpectedIds(toRun: seq<Migration>, n: nat, journal: Journal, startId: long, now: int)
    requires n <= |toRun|
    ensures var records := ExpectedRecords(toRun, n, journal, startId, now);
      (journal.NullJournal? ==> forall k :: 0 <= k < n ==> records[k].id == 0) &&
      (journal.WebJournal? && startId + n <= MaxLong ==> forall k :: 0 <= k < n ==> records[k].id == startId + k + 1)
  {
    var records := ExpectedRecords(toRun, n, journal, startId, now);
    if journal.WebJournal? && startId + n <= MaxLong {
      forall k | 0 <= k < n
        ensures records[k].id == startId + k + 1
      {
        IdAfterCounts(startId, k + 1);
      }
    }
  }

  /** Records read up to startId, then m records stored after them, all have Ids below startId + m + 1. */
  lemma IdsBelowNext(previous: seq<MigrationInfo>, toRun: seq<Migration>, m: nat, j: WebPropertyBagJournal,
                     startId: long, now: int)
    requires m < |toRun| && startId + m + 1 <= MaxLong
    requires forall r :: r in previous ==> r.id <= startId
    ensures forall r :: r in previous + ExpectedRecords(toRun, m, WebJournal(j), startId, now) ==> r.id < startId + m + 1
  {
    var earlier := ExpectedRecords(toRun, m, WebJournal(j), startId, now);
    ExpectedIds(toRun, m, WebJournal(j), startId, now);
    forall r | r in previous + earlier
      ensures r.id < startId + m + 1
    {
      if r in earlier {
        var k :| 0 <= k < m && earlier[k] == r;
      }
    }
  }

  /** One more step on the web journal appends its record to what the journal reads back. */
  lemma JournalStep(site: Site, s: SiteState, a: seq<Effect>, m: Migration, j: WebPropertyBagJournal,
                    earlier: seq<MigrationInfo>, record: MigrationInfo)
    requires Json.RoundTrips(j.json)
    requires var t1 := site.Replay(s, a);
      ReadJournal(t1.properties, j.prefix, j.json) == ReadJournal(s.properties, j.prefix, j.json) + earlier &&
      WellKeyed(t1.properties, j.prefix, j.json)
    requires forall r :: r in ReadJournal(s.properties, j.prefix, j.json) + earlier ==> r.id < record.id
    ensures var t := site.Replay(s, a + StepEffects(m, WebJournal(j), record));
      ReadJournal(t.properties, j.prefix, j.json) == ReadJournal(s.properties, j.prefix, j.json) + earlier + [record] &&
      WellKeyed(t.properties, j.prefix, j.json)
  {
    var t1 := site.Replay(s, a);
    site.ReplayAppend(s, a, StepEffects(m, WebJournal(j), record));
    WebStepReplay(site, t1, m, j, record);
    StoreAppendsRecord(t1.properties, j.prefix, j.json, record);
  }

  /**
   * What the web journal reads back after a run: the records stored, in run
   * order, after the ones it held, as long as the journal read round-trips,
   * every prefixed property is keyed by its record's Id and the Ids do not
   * pass the largest long.
   */
  lemma {:induction false} JournalAfterRun(site: Site, s: SiteState, toRun: seq<Migration>, n: nat,
                                           j: WebPropertyBagJournal, startId: long, now: int)
    requires n <= |toRun| && 0 <= startId && startId + n <= MaxLong
    requires Json.RoundTrips(j.json) && WellKeyed(s.properties, j.prefix, j.json)
    requires forall r :: r in ReadJournal(s.properties, j.prefix, j.json) ==> r.id <= startId
    ensures var records := ExpectedRecords(toRun, n, WebJournal(j), startId, now);
      var t := site.Replay(s, RunEffects(toRun, records, WebJournal(j)));
      ReadJournal(t.properties, j.prefix, j.json) == ReadJournal(s.properties, j.prefix, j.json) + records &&
      WellKeyed(t.properties, j.prefix, j.json)
    decreases n
  {
    var journal := WebJournal(j);
    if n == 0 {
      assert ExpectedRecords(toRun, n, journal, startId, now) == [];
      return;
    }
    var m := n - 1;
    var earlier := ExpectedRecords(toRun, m, journal, startId, now);
    var record := RecordFor(toRun[m], m, journal, startId, now);
    ExpectedRecordsSnoc(toRun, m, journal, startId, now);
    JournalAfterRun(site, s, toRun, m, j, startId, now);
    RunEffectsAppend(toRun, earlier, record, journal);
    IdAfterCounts(startId, n);
    IdsBelowNext(ReadJournal(s.properties, j.prefix, j.json), toRun, m, j, startId, now);
    JournalStep(site, s, RunEffects(toRun, earlier, journal), toRun[m], j, earlier, record);
  }

  /** The first failure is at i when the migrations before i succeed and i fails or ends the list. */
  lemma FirstFailureAt(toRun: seq<Migration>, cm: ContextManager, fs: FileSystem, journal: Journal, i: nat)
    requires i <= |toRun|
    requires forall k :: 0 <= k < i ==> StepFailure(toRun[k], cm, fs, journal).None?
    requires i < |toRun| ==> StepFailure(toRun[i], cm, fs, journal).Some?
    ensures FirstFailure(toRun, cm, fs, journal) == i
  {
  }

  /**
   * One iteration of the loop: Apply, then StoreExecutedMigration on the
   * configured journal.
   */
  method ApplyAndJournal(m: Migration, cm: ContextManager, journal: Journal, fs: FileSystem,
                         ghost startId: long, ghost i: nat, now: int)
    returns (stored: Result<MigrationInfo>)
    requires journal.Valid()
    requires journal.WebJournal? ==>
      journal.journal.lastIdInitialised && journal.journal.lastId == IdAfter(startId, i)
    modifies cm.site, journal.Repr()
    ensures journal.Valid()
    ensures StepFailure(m, cm, fs, journal).Some? ==>
      stored == Fail(StepFailure(m, cm, fs, journal).value) &&
      cm.site.history == old(cm.site.history) + FailedStepEffects(m, cm, fs) &&
      cm.site.state == cm.site.Replay(old(cm.site.state), FailedStepEffects(m, cm, fs)) &&
      (journal.WebJournal? ==>
         journal.journal.lastIdInitialised && journal.journal.lastId == IdAfter(startId, i))
    ensures StepFailure(m, cm, fs, journal).None? ==>
      var record := RecordFor(m, i, journal, startId, now);
      stored == Ok(record) &&
      cm.site.history == old(cm.site.history) + StepEffects(m, journal, record) &&
      cm.site.state == cm.site.Replay(old(cm.site.state), StepEffects(m, journal, record)) &&
      (journal.WebJournal? ==>
         journal.journal.lastIdInitialised && journal.journal.lastId == IdAfter(startId, i + 1))
  {
    ghost var s0 := cm.site.state;
    var applied := Apply(m, cm, fs);
    if applied.Throw? {
      return Fail(applied.error);
    }
    ghost var s1 := cm.site.state;
    cm.site.ReplayOne(s0, MigrationApplied(m.name));
    match journal {
      case NullJournal =>
        stored := Ok(NullStoreExecutedMigration(m.name, m.note, now));
      case WebJournal(j) =>
        stored := j.StoreExecutedMigration(cm.site, m.name, m.note, now);
        if stored.Ok? {
          var e := PropertySet(JournalKey(j.prefix, stored.value.id), j.json.serialize(stored.value));
          cm.site.ReplayOne(s1, e);
          cm.site.ReplayAppend(s0, [MigrationApplied(m.name)], [e]);
        }
    }
  }

  /**
   * The loop after the migrations recorded so far: each of them succeeded, in
   * order, with the record the journal gave it, and the server accepted their
   * changes after h0.
   */
  ghost predicate RanSoFar(toRun: seq<Migration>, records: seq<MigrationInfo>, cm: ContextManager, journal: Journal,
                           fs: FileSystem, startId: long, now: int, h0: seq<Effect>, s0: SiteState)
    reads cm.site, journal.Repr()
  {
    |records| <= |toRun| && journal.Valid() &&
    (journal.WebJournal? ==>
       journal.journal.lastIdInitialised && journal.journal.lastId == IdAfter(startId, |records|)) &&
    (forall k :: 0 <= k < |records| ==> StepFailure(toRun[k], cm, fs, journal).None?) &&
    records == ExpectedRecords(toRun, |records|, journal, startId, now) &&
    cm.site.history == h0 + RunEffects(toRun, records, journal) &&
    cm.site.state == cm.site.Replay(s0, RunEffects(toRun, records, journal))
  }

  /** The loop's step: the records and the accepted changes grow by one migration, or the run stops. */
  method RunStep(toRun: seq<Migration>, records: seq<MigrationInfo>, cm: ContextManager, journal: Journal,
                 fs: FileSystem, ghost startId: long, ghost h0: seq<Effect>, ghost s0: SiteState, now: int)
    returns (next: seq<MigrationInfo>, error: Option<Exception>)
    requires |records| < |toRun| && RanSoFar(toRun, records, cm, journal, fs, startId, now, h0, s0)
    modifies cm.site, journal.Repr()
    ensures journal.Valid()
    ensures error.Some? ==>
      next == records && error == StepFailure(toRun[|records|], cm, fs, journal) &&
      cm.site.history == h0 + RunEffects(toRun, records, journal) + FailedStepEffects(toRun[|records|], cm, fs) &&
      cm.site.state == cm.site.Replay(s0, RunEffects(toRun, records, journal) + FailedStepEffects(toRun[|records|], cm, fs)) &&
      (journal.WebJournal? ==>
         journal.journal.lastIdInitialised && journal.journal.lastId == IdAfter(startId, |records|))
    ensures error.None? ==> |next| == |records| + 1 && RanSoFar(toRun, next, cm, journal, fs, startId, now, h0, s0)
  {
    var i := |records|;
    var stored := ApplyAndJournal(toRun[i], cm, journal, fs, startId, i, now);
    if stored.Fail? {
      cm.site.ReplayAppend(s0, RunEffects(toRun, records, journal), FailedStepEffects(toRun[i], cm, fs));
      return records, Some(stored.error);
    }
    ExpectedRecordsSnoc(toRun, i, journal, startId, now);
    RunEffectsSnoc(h0, toRun, records, stored.value, journal);
    RunEffectsAppend(toRun, records, stored.value, journal);
    cm.site.ReplayAppend(s0, RunEffects(toRun, records, journal), StepEffects(toRun[i], journal, stored.value));
    next := records + [stored.value];
    error := None;
  }

  /**
   * The migrations in order, each applied and then journalled; the first
   * exception stops the loop, and the records stored before it are kept.
   */
  method RunMigrations(toRun: seq<Migration>, cm: ContextManager, journal: Journal, fs: FileSystem,
                       ghost startId: long, now: int)
    returns (records: seq<MigrationInfo>, error: Option<Exception>)
    requires journal.Valid()
    requires journal.WebJournal? ==> journal.journal.lastIdInitialised && journal.journal.lastId == startId
    modifies cm.site, journal.Repr()
    ensures journal.Valid()
    ensures |records| <= |toRun|
    ensures forall k :: 0 <= k < |records| ==> StepFailure(toRun[k], cm, fs, journal).None?
    ensures error.None? <==> |records| == |toRun|
    ensures error.Some? ==> error == StepFailure(toRun[|records|], cm, fs, journal)
    ensures records == ExpectedRecords(toRun, |records|, journal, startId, now)
    ensures cm.site.history == old(cm.site.history) + RunEffects(toRun, records, journal) +
      (if error.Some? then FailedStepEffects(toRun[|records|], cm, fs) else [])
    ensures cm.site.state == cm.site.Replay(old(cm.site.state), RunEffects(toRun, records, journal) +
      (if error.Some? then FailedStepEffects(toRun[|records|], cm, fs) else []))
    ensures journal.WebJournal? ==>
      journal.journal.lastIdInitialised && journal.journal.lastId == IdAfter(startId, |records|)
  {
    records := [];
    error := None;
    ghost var h0 := cm.site.history;
    ghost var s0 := cm.site.state;
    while |records| < |toRun|
      invariant RanSoFar(toRun, records, cm, journal, fs, startId, now, h0, s0) && error.None?
      decreases |toRun| - |records|
    {
      records, error := RunStep(toRun, records, cm, journal, fs, startId, h0, s0, now);
      if error.Some? {
        return;
      }
    }
    assert RunEffects(toRun, records, journal) + [] == RunEffects(toRun, records, journal);
  }

  // ---------------------------------------------------------------------------
  // The migrator

  /** A whole run: the result PerformMigration returns and the changes the server accepted. */
  datatype Run = Run(result: MigrationResult, effects: seq<Effect>)

  function Stopped(e: Exception): Run
  {
    Run(MigrationResult([], false, Some(e)), [])
  }

  /**
   * The loop over the migrations to run: applied and journalled in order up
   * to the first failure, which is reported with the records stored before it.
   */
  function RunOf(toRun: seq<Migration>, cm: ContextManager, j: Journal, startId: long, fs: FileSystem, now: int): (run: Run)
    ensures run.result.successful <==> run.result.error.None?
    ensures var ms := run.result.migrations;
      |ms| <= |toRun| &&
      forall k :: 0 <= k < |ms| ==> ms[k].name == toRun[k].name && ms[k].note == toRun[k].note && ms[k].appliedAt == At(now)
    ensures run.result.successful <==> forall k :: 0 <= k < |toRun| ==> StepFailure(toRun[k], cm, fs, j).None?
    ensures run.result.successful ==> |run.result.migrations| == |toRun|
    ensures !run.result.successful ==>
      |run.result.migrations| < |toRun| && run.result.error == StepFailure(toRun[|run.result.migrations|], cm, fs, j)
    ensures j.NullJournal? ==> forall k :: 0 <= k < |run.result.migrations| ==> run.result.migrations[k].id == 0
    ensures j.WebJournal? && startId + |toRun| <= MaxLong ==>
      forall k :: 0 <= k < |run.result.migrations| ==> run.result.migrations[k].id == startId + k + 1
  {
    var n := FirstFailure(toRun, cm, fs, j);
    ExpectedIds(toRun, n, j, startId, now);
    var records := ExpectedRecords(toRun, n, j, startId, now);
    var failure := if n < |toRun| then StepFailure(toRun[n], cm, fs, j) else None;
    Run(MigrationResult(records, n == |toRun|, failure),
        RunEffects(toRun, records, j) + (if n < |toRun| then FailedStepEffects(toRun[n], cm, fs) else []))
  }

  /**
   * The run once the journal has been read: the available migrations, less
   * the journalled ones, are run; a provider that fails stops the run before
   * any change.
   */
  function RunAfterRead(cm: ContextManager, j: Journal, previous: seq<MigrationInfo>,
                        providers: seq<MigrationProvider>, fs: FileSystem, now: int): (run: Run)
    ensures run.result.successful <==> run.result.error.None?
    ensures AvailableMigrations(providers, fs).Fail? ==>
      !run.result.successful && run.result.migrations == [] && run.effects == []
    ensures forall k :: 0 <= k < |run.result.migrations| ==> !Journalled(previous, run.result.migrations[k].name)
    ensures AvailableMigrations(providers, fs).Ok? ==>
      var toRun := MigrationsToRun(AvailableMigrations(providers, fs).value, previous);
      var ms := run.result.migrations;
      |ms| <= |toRun| && (forall k :: 0 <= k < |ms| ==> ms[k].name == toRun[k].name) &&
      (run.result.successful <==> forall k :: 0 <= k < |toRun| ==> StepFailure(toRun[k], cm, fs, j).None?)
    ensures j.NullJournal? ==> forall k :: 0 <= k < |run.result.migrations| ==> run.result.migrations[k].id == 0
    ensures (AvailableMigrations(providers, fs).Ok? && j.WebJournal? &&
             MaxId(previous) + |MigrationsToRun(AvailableMigrations(providers, fs).value, previous)| <= MaxLong) ==>
      forall k, i :: 0 <= k < |run.result.migrations| && 0 <= i < |previous| ==>
        previous[i].id < run.result.migrations[k].id
  {
    var available := AvailableMigrations(providers, fs);
    if available.Fail? then Stopped(available.error)
    else
      var toRun := MigrationsToRun(available.value, previous);
      MigrationsToRunMembers(available.value, previous);
      RunOf(toRun, cm, j, MaxId(previous), fs, now)
  }

  /**
   * The run a valid configuration makes, given the property bag the journal
   * reads: a missing context manager or journal is a null reference, and a
   * connection or read failure stops the run before any change.
   */
  function ExpectedRun(cm: ContextManager?, journal: Option<Journal>, properties: Result<seq<Entry>>,
                       providers: seq<MigrationProvider>, fs: FileSystem, now: int): (run: Run)
    ensures run.result.successful <==> run.result.error.None?
    ensures cm == null || cm.connectFails || journal.None? || (journal.value.WebJournal? && properties.Fail?) ==>
      !run.result.successful && run.result.migrations == [] && run.effects == []
    ensures journal == Some(NullJournal) ==>
      forall k :: 0 <= k < |run.result.migrations| ==> run.result.migrations[k].id == 0
  {
    if cm == null then Stopped(NullReferenceException)
    else if cm.connectFails then Stopped(ConnectionException(ConnectFailureMessage))
    else if journal.None? then Stopped(NullReferenceException)
    else if journal.value.NullJournal? then RunAfterRead(cm, NullJournal, [], providers, fs, now)
    else if properties.Fail? then Stopped(properties.error)
    else
      var j := journal.value.journal;
      RunAfterRead(cm, journal.value, ReadJournal(properties.value, j.prefix, j.json), providers, fs, now)
  }

  /** The property bag the journal would read; a missing context manager reads nothing. */
  function PropertiesOf(cm: ContextManager?): Result<seq<Entry>>
    reads if cm != null then {cm.site} else {}
  {
    if cm == null then Fail(NullReferenceException) else cm.site.PropertiesQuery()
  }

  /** Nothing to run: success, with no record and no change. */
  lemma RunOfNothing(cm: ContextManager, j: Journal, startId: long, fs: FileSystem, now: int)
    ensures RunOf([], cm, j, startId, fs, now) == Run(MigrationResult([], true, None), [])
  {
    assert ExpectedRecords([], 0, j, startId, now) == [];
  }

  /**
   * The web journal reads back what a run stores: its codec round-trips,
   * every prefixed property is keyed by its record's Id, the providers list
   * their migrations, and the new Ids stay below the largest long.
   */
  ghost predicate ReadsBack(j: WebPropertyBagJournal, s: SiteState, providers: seq<MigrationProvider>, fs: FileSystem)
  {
    var previous := ReadJournal(s.properties, j.prefix, j.json);
    Json.RoundTrips(j.json) && WellKeyed(s.properties, j.prefix, j.json) &&
    AvailableMigrations(providers, fs).Ok? &&
    MaxId(previous) + |MigrationsToRun(AvailableMigrations(providers, fs).value, previous)| <= MaxLong
  }

  /** A successful run on the web journal read the property bag and every provider, then ran the rest. */
  lemma SuccessfulWebRun(cm: ContextManager, j: WebPropertyBagJournal, s: SiteState,
                         providers: seq<MigrationProvider>, fs: FileSystem, now: int)
    requires ExpectedRun(cm, Some(WebJournal(j)), cm.site.PropertiesIn(s), providers, fs, now).result.successful
    ensures var previous := ReadJournal(s.properties, j.prefix, j.json);
      AvailableMigrations(providers, fs).Ok? &&
      ExpectedRun(cm, Some(WebJournal(j)), cm.site.PropertiesIn(s), providers, fs, now) ==
        RunOf(MigrationsToRun(AvailableMigrations(providers, fs).value, previous), cm, WebJournal(j), MaxId(previous), fs, now)
  {
  }

  /** A successful RunOf stores one record per migration and nothing else fails. */
  lemma SuccessfulRunOf(toRun: seq<Migration>, cm: ContextManager, j: Journal, startId: long, fs: FileSystem, now: int)
    requires RunOf(toRun, cm, j, startId, fs, now).result.successful
    ensures var run := RunOf(toRun, cm, j, startId, fs, now);
      run.result.migrations == ExpectedRecords(toRun, |toRun|, j, startId, now) &&
      run.effects == RunEffects(toRun, run.result.migrations, j)
  {
    var records := ExpectedRecords(toRun, |toRun|, j, startId, now);
    assert RunEffects(toRun, records, j) + [] == RunEffects(toRun, records, j);
  }

  /**
   * After a successful run on the web journal, reading the journal again
   * gives the earlier records followed by the run's, and a second run would
   * find nothing left to run.
   */
  lemma SuccessfulRunIsJournalled(cm: ContextManager, j: WebPropertyBagJournal, s: SiteState,
                                  providers: seq<MigrationProvider>, fs: FileSystem, now: int)
    requires ReadsBack(j, s, providers, fs)
    ensures var previous := ReadJournal(s.properties, j.prefix, j.json);
      var run := ExpectedRun(cm, Some(WebJournal(j)), cm.site.PropertiesIn(s), providers, fs, now);
      var after := ReadJournal(cm.site.Replay(s, run.effects).properties, j.prefix, j.json);
      run.result.successful ==>
        after == previous + run.result.migrations &&
        MigrationsToRun(AvailableMigrations(providers, fs).value, after) == []
  {
    if !ExpectedRun(cm, Some(WebJournal(j)), cm.site.PropertiesIn(s), providers, fs, now).result.successful {
      return;
    }
    var previous := ReadJournal(s.properties, j.prefix, j.json);
    var available := AvailableMigrations(providers, fs).value;
    var toRun := MigrationsToRun(available, previous);
    var startId := MaxId(previous);
    SuccessfulWebRun(cm, j, s, providers, fs, now);
    SuccessfulRunOf(toRun, cm, WebJournal(j), startId, fs, now);
    forall r | r in previous
      ensures r.id <= startId
    {
      var k :| 0 <= k < |previous| && previous[k] == r;
    }
    JournalAfterRun(cm.site, s, toRun, |toRun|, j, startId, now);
    NothingLeftAfterJournalling(available, previous, ExpectedRecords(toRun, |toRun|, WebJournal(j), startId, now));
  }

  /** The records and error of the loop, and what the server accepted, are those RunOf states. */
  method RunAndReport(toRun: seq<Migration>, cm: ContextManager, journal: Journal, fs: FileSystem,
                      ghost startId: long, now: int)
    returns (result: MigrationResult)
    requires journal.Valid()
    requires journal.WebJournal? ==> journal.journal.lastIdInitialised && journal.journal.lastId == startId
    modifies cm.site, journal.Repr()
    ensures journal.Valid()
    ensures result == RunOf(toRun, cm, journal, startId, fs, now).result
    ensures cm.site.history == old(cm.site.history) + RunOf(toRun, cm, journal, startId, fs, now).effects
    ensures cm.site.state == cm.site.Replay(old(cm.site.state), RunOf(toRun, cm, journal, startId, fs, now).effects)
  {
    var records, error := RunMigrations(toRun, cm, journal, fs, startId, now);
    FirstFailureAt(toRun, cm, fs, journal, |records|);
    result := MigrationResult(records, error.None?, error);
  }

  /**
   * The body of the using block after the journal read: collect, filter, and
   * run the migrations.
   */
  method MigrateAfterRead(cm: ContextManager, journal: Journal, previous: seq<MigrationInfo>,
                          providers: seq<MigrationProvider>, fs: FileSystem, now: int)
    returns (result: MigrationResult)
    requires journal.Valid()
    requires journal.WebJournal? ==> journal.journal.lastIdInitialised && journal.journal.lastId == MaxId(previous)
    requires journal.NullJournal? ==> previous == []
    modifies cm.site, journal.Repr()
    ensures journal.Valid()
    ensures result == RunAfterRead(cm, journal, previous, providers, fs, now).result
    ensures cm.site.history == old(cm.site.history) + RunAfterRead(cm, journal, previous, providers, fs, now).effects
    ensures cm.site.state == cm.site.Replay(old(cm.site.state), RunAfterRead(cm, journal, previous, providers, fs, now).effects)
  {
    var available := AvailableMigrations(providers, fs);
    if available.Fail? {
      return MigrationResult([], false, Some(available.error));
    }
    var toRun := MigrationsToRun(available.value, previous);
    if |toRun| == 0 {
      RunOfNothing(cm, journal, MaxId(previous), fs, now);
      return MigrationResult([], true, None);
    }
    result := RunAndReport(toRun, cm, journal, fs, MaxId(previous), now);
  }

  /**
   * The body of the using block once the scope is open: read the journal,
   * then collect, filter and run the migrations.
   */
  method MigrateInScope(cm: ContextManager, journal: Option<Journal>, providers: seq<MigrationProvider>,
                        fs: FileSystem, now: int)
    returns (result: MigrationResult)
    requires !cm.connectFails
    requires journal.Some? ==> journal.value.Valid()
    modifies cm.site, if journal.Some? then journal.value.Repr() else {}
    ensures result == ExpectedRun(cm, journal, old(cm.site.PropertiesQuery()), providers, fs, now).result
    ensures cm.site.history == old(cm.site.history) + ExpectedRun(cm, journal, old(cm.site.PropertiesQuery()), providers, fs, now).effects
    ensures cm.site.state == cm.site.Replay(old(cm.site.state), ExpectedRun(cm, journal, old(cm.site.PropertiesQuery()), providers, fs, now).effects)
  {
    if journal.None? {
      return MigrationResult([], false, Some(NullReferenceException));
    }
    match journal.value {
      case NullJournal =>
        result := MigrateAfterRead(cm, NullJournal, NullGetExecutedMigrations(), providers, fs, now);
      case WebJournal(j) =>
        var read := j.GetExecutedMigrations(cm.site);
        if read.Fail? {
          result := MigrationResult([], false, Some(read.error));
        } else {
          result := MigrateAfterRead(cm, journal.value, read.value, providers, fs, now);
        }
    }
  }

  class Migrator {
    const configuration: MigratorConfiguration

    constructor (configuration: MigratorConfiguration)
      ensures this.configuration == configuration
    {
      this.configuration := configuration;
    }

    /**
     * PerformMigration: an invalid configuration throws; every other failure
     * is reported in the result, and the context scope is closed again on
     * every path.
     */
    method PerformMigration(fs: FileSystem, now: int) returns (r: Result<MigrationResult>)
      requires configuration.journal.Some? ==> configuration.journal.value.Valid()
      modifies configuration.contextManager
      modifies if configuration.contextManager != null then {configuration.contextManager.site} else {}
      modifies if configuration.journal.Some? then configuration.journal.value.Repr() else {}
      ensures configuration.Validate().Throw? ==> r == Fail(configuration.Validate().error)
      ensures configuration.Validate() == Pass ==>
        r == Ok(ExpectedRun(configuration.contextManager, configuration.journal, old(PropertiesOf(configuration.contextManager)),
                            configuration.migrationProviders, fs, now).result)
      ensures var cm := configuration.contextManager;
        cm != null ==>
          cm.context == (if configuration.Validate() == Pass then cm.AfterScope(old(cm.context)) else old(cm.context)) &&
          cm.site.history == old(cm.site.history) +
            (if configuration.Validate() == Pass
             then ExpectedRun(cm, configuration.journal, old(PropertiesOf(cm)), configuration.migrationProviders, fs, now).effects
             else [])
      ensures var cm := configuration.contextManager;
        cm != null ==>
          cm.site.state == cm.site.Replay(old(cm.site.state),
            if configuration.Validate() == Pass
            then ExpectedRun(cm, configuration.journal, old(PropertiesOf(cm)), configuration.migrationProviders, fs, now).effects
            else [])
      ensures var cm := configuration.contextManager;
        var journal := configuration.journal;
        var providers := configuration.migrationProviders;
        cm != null && journal.Some? && journal.value.WebJournal? && r.Ok? && r.value.successful &&
        old(ReadsBack(journal.value.journal, cm.site.state, providers, fs)) ==>
          var j := journal.value.journal;
          var after := ReadJournal(cm.site.state.properties, j.prefix, j.json);
          after == old(ReadJournal(cm.site.state.properties, j.prefix, j.json)) + r.value.migrations &&
          MigrationsToRun(AvailableMigrations(providers, fs).value, after) == []
    {
      var valid := configuration.Validate();
      if valid.Throw? {
        return Fail(valid.error);
      }
      var cm := configuration.contextManager;
      if cm == null {
        return Ok(MigrationResult([], false, Some(NullReferenceException)));
      }
      var connected := cm.OpenScope();
      if connected.Throw? {
        return Ok(MigrationResult([], false, Some(connected.error)));
      }
      ghost var before := cm.site.state;
      var result := MigrateInScope(cm, configuration.journal, configuration.migrationProviders, fs, now);
      if configuration.journal.Some? && configuration.journal.value.WebJournal? && result.successful &&
         ReadsBack(configuration.journal.value.journal, before, configuration.migrationProviders, fs) {
        SuccessfulRunIsJournalled(cm, configuration.journal.value.journal, before, configuration.migrationProviders, fs, now);
      }
      var closed := cm.CloseScope();
      assert closed == Pass;
      r := Ok(result);
    }
  }
}
