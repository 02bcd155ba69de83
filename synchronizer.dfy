/**
 * The Synchronizer: it uploads the files of a local folder whose hash differs
 * from the one the hash provider remembers, publishing them as the document
 * library requires, and records the new hash. It also ensures folders and
 * script links on the site of the context.
 *
 * The local machine is a parameter: its directory listings and file contents,
 * the digest HashAlgorithm.Create() computes, and the UTF-8 encoding.
 */
module Synchronizers {
  import opened Errors
  import opened Text
  import opened OrderedMaps
  import opened Remote
  import opened SPUrlUtility
  import opened HashProviders
  import opened Preprocessors
  import opened Plans
  import opened UploadPlans
  import opened Folders
  import opened ScriptLinks
  import opened Synchronization
  import Migrations
  import Json

  // ---------------------------------------------------------------------------
  // The configuration

  const NoLogMessage: string :=
    "A log is required to run migrations. Please leave at the default Trace logger, or replace with another logger."
  const NoHashProviderMessage: string :=
    "A hash provider is required. Please leave the default HashProvider, or replace with another."
  const NoContextManagerMessage: string :=
    "A context manager is required. Please leave the default Context Manager, or replace with another."

  /** SynchronizerConfiguration: the log (present or not), the hash provider, the context manager and the preprocessors. */
  class SynchronizerConfiguration {
    var hasLog: bool
    var hashProvider: Option<HashProvider>
    var contextManager: ContextManager?
    var preprocessors: seq<Preprocessor>

    ghost predicate Valid()
      reads this, if hashProvider.Some? && hashProvider.value.WebProvider? then {hashProvider.value.provider} else {}
    {
      hashProvider.Some? ==> hashProvider.value.Valid()
    }

    /**
     * A new configuration logs to the trace log and tracks hashes in the web
     * property bag under the default key; it has no context manager and no
     * preprocessors, so it does not validate yet.
     */
    constructor (json: Json.Codec<seq<Entry>>)
      ensures hasLog && contextManager == null && preprocessors == []
      ensures hashProvider.Some? && hashProvider.value.WebProvider? && fresh(hashProvider.value.provider)
      ensures hashProvider.value.provider.propertyBagKey == DefaultPropertyBagKey
      ensures hashProvider.value.provider.hashAlgorithm == DefaultHashAlgorithm
      ensures hashProvider.value.provider.hashValues.None? && Valid()
      ensures Validate() == Throw(ArgumentException(NoContextManagerMessage))
    {
      hasLog := true;
      var p := new WebPropertyHashProvider(None, None, json);
      hashProvider := Some(WebProvider(p));
      contextManager := null;
      preprocessors := [];
    }

    /** Preprocessors.Add: the list the getter returns is the configuration's own, so preprocessors run in the order added. */
    method AddPreprocessor(p: Preprocessor)
      modifies this
      ensures preprocessors == old(preprocessors) + [p]
      ensures hasLog == old(hasLog) && hashProvider == old(hashProvider) && contextManager == old(contextManager)
    {
      preprocessors := preprocessors + [p];
    }

    /** Validate: a log, a hash provider and a context manager are required, checked in that order. */
    function Validate(): (o: Outcome)
      reads this
      ensures o == Pass <==> hasLog && hashProvider.Some? && contextManager != null
      ensures !hasLog ==> o == Throw(ArgumentException(NoLogMessage))
      ensures hasLog && hashProvider.None? ==> o == Throw(ArgumentException(NoHashProviderMessage))
      ensures hasLog && hashProvider.Some? && contextManager == null ==> o == Throw(ArgumentException(NoContextManagerMessage))
    {
      if !hasLog then Throw(ArgumentException(NoLogMessage))
      else if hashProvider.None? then Throw(ArgumentException(NoHashProviderMessage))
      else if contextManager == null then Throw(ArgumentException(NoContextManagerMessage))
      else Pass
    }
  }

  // ---------------------------------------------------------------------------
  // The local machine and the configured hash provider

  /** The local file system, the digest of HashAlgorithm.Create(), and Encoding.UTF8. */
  datatype LocalHost = LocalHost(listings: map<string, seq<string>>, files: map<string, seq<byte>>,
                                 digest: seq<byte> -> seq<byte>, utf8: TextEncoding)

  /** Directory.EnumerateFiles: a missing directory throws. */
  function EnumerateFiles(host: LocalHost, path: string): Result<seq<string>>
  {
    if path in host.listings then Ok(host.listings[path]) else Fail(DirectoryNotFoundException(path))
  }

  /** File.OpenRead: a file that cannot be opened throws. */
  function OpenRead(host: LocalHost, path: string): Result<seq<byte>>
  {
    if path in host.files then Ok(host.files[path]) else Fail(IOException(path))
  }

  /** The configured IHashProvider; None is a null provider reference. */
  ghost predicate ProviderValid(hp: Option<HashProvider>)
    reads if hp.Some? then hp.value.Repr() else {}
  {
    hp.Some? ==> hp.value.Valid()
  }

  ghost function ProviderRepr(hp: Option<HashProvider>): set<object>
  {
    if hp.Some? then hp.value.Repr() else {}
  }

  ghost function ProviderCache(hp: Option<HashProvider>): Option<seq<Entry>>
    reads ProviderRepr(hp)
  {
    if hp.Some? then HashCache(hp.value) else None
  }

  // ---------------------------------------------------------------------------
  // One file

  /** The stream a StreamPreprocessor yields: the input itself with no preprocessors, else its text run through them and encoded again. */
  function Prepared(ps: seq<Preprocessor>, current: Site, utf8: TextEncoding, input: seq<byte>): Result<seq<byte>>
    reads Footprint(ps)
  {
    if |ps| == 0 then Ok(input)
    else
      match ApplyAll(ps, current, utf8.decode(input))
      case Fail(e) => Fail(e)
      case Ok(text) => Ok(utf8.encode(text))
  }

  /** What UploadFileInternal reports for a file it completed: whether it was changed, and the local hash. */
  datatype Synced = Synced(changed: bool, hash: seq<byte>)

  /** One file's run: its report or exception, the effects the server accepted, the final state, and the provider's map. */
  datatype FileRun = FileRun(result: Result<Synced>, effects: seq<Effect>, state: SiteState, cache: Option<seq<Entry>>)

  /** A changed file: publish it; once that succeeds, store its hash through the provider. */
  function PublishAndRecord(site: Site, hp: HashProvider, cache: Option<seq<Entry>>, s: SiteState, url: string,
                            level: FileLevel, content: seq<byte>, localHash: seq<byte>): FileRun
  {
    var x := Execute(site, s, UploadPlan(site, s, url, level, content, localHash));
    if x.outcome.Throw? then FileRun(Fail(x.outcome.error), x.effects, x.state, cache)
    else
      var w := WriteHash(site, hp, cache, url, localHash);
      FileRun(if w.outcome.Throw? then Fail(w.outcome.error) else Ok(Synced(true, localHash)),
              x.effects + w.effects, site.Replay(x.state, w.effects), w.cache)
  }

  /**
   * Once the stored hash and the preprocessed content are known: a file whose
   * hash matches is left alone (the "no change" log line prints the stored
   * hash); any other is published and its hash stored.
   */
  function CompareAndPublish(site: Site, hp: HashProvider, cache: Option<seq<Entry>>, s: SiteState, url: string,
                             level: FileLevel, content: seq<byte>, serverHash: seq<byte>,
                             digest: seq<byte> -> seq<byte>): FileRun
  {
    var localHash := digest(content);
    if localHash == serverHash then
      FileRun(if HexPrefixFits(serverHash) then Ok(Synced(false, localHash)) else Fail(LogPrefixError), [], s, cache)
    else PublishAndRecord(site, hp, cache, s, url, level, content, localHash)
  }

  /** Once the stored hash is known: an exception from a preprocessor escapes, otherwise compare and publish. */
  function SyncPrepared(site: Site, hp: HashProvider, cache: Option<seq<Entry>>, s: SiteState, url: string,
                        level: FileLevel, prepared: Result<seq<byte>>, serverHash: seq<byte>,
                        digest: seq<byte> -> seq<byte>): FileRun
  {
    if prepared.Fail? then FileRun(Fail(prepared.error), [], s, cache)
    else CompareAndPublish(site, hp, cache, s, url, level, prepared.value, serverHash, digest)
  }

  /** UploadFileInternal: read the stored hash, preprocess the content, then compare and publish. */
  function SyncFile(site: Site, hp: Option<HashProvider>, cache: Option<seq<Entry>>, s: SiteState, url: string,
                    level: FileLevel, prepared: Result<seq<byte>>, digest: seq<byte> -> seq<byte>): FileRun
  {
    if hp.None? then FileRun(Fail(NullReferenceException), [], s, cache)
    else
      var read := ReadHash(site, hp.value, cache, s, url);
      if read.hash.Fail? then FileRun(Fail(read.hash.error), [], s, read.cache)
      else SyncPrepared(site, hp.value, read.cache, s, url, level, prepared, read.hash.value, digest)
  }

  // ---------------------------------------------------------------------------
  // What happens to one file

  /** A file whose hash matches the stored one changes nothing on the server and is reported unchanged. */
  lemma UnchangedFileUntouched(site: Site, hp: HashProvider, cache: Option<seq<Entry>>, s: SiteState, url: string,
                               level: FileLevel, content: seq<byte>, serverHash: seq<byte>,
                               digest: seq<byte> -> seq<byte>)
    requires digest(content) == serverHash
    ensures var f := CompareAndPublish(site, hp, cache, s, url, level, content, serverHash, digest);
      f.effects == [] && f.state == s && f.cache == cache &&
      (f.result.Ok? ==> f.result.value == Synced(false, serverHash))
  {
  }

  /**
   * A file is reported changed exactly when its hash differs from the stored
   * one (an empty stored hash never matches a digest), and a changed file's
   * hash is the digest of the content that was uploaded.
   */
  lemma ChangedIffHashDiffers(site: Site, hp: HashProvider, cache: Option<seq<Entry>>, s: SiteState, url: string,
                              level: FileLevel, content: seq<byte>, serverHash: seq<byte>,
                              digest: seq<byte> -> seq<byte>)
    ensures var f := CompareAndPublish(site, hp, cache, s, url, level, content, serverHash, digest);
      f.result.Ok? ==>
        (f.result.value.changed <==> digest(content) != serverHash) &&
        f.result.value.hash == digest(content) &&
        (f.result.value.changed ==>
           Execute(site, s, UploadPlan(site, s, url, level, content, digest(content))).outcome == Pass &&
           Request(AddFile(url), Uploaded(url, content)) in UploadPlan(site, s, url, level, content, digest(content)))
  {
    var localHash := digest(content);
    PlanUploadsContent(site, s, url, level, content, localHash);
    if localHash != serverHash && !HexPrefixFits(localHash) {
      ShortHashPlanThrows(site, s, url, level, content, localHash);
    }
  }

  /**
   * A changed file's hash is stored last, after every request of the upload
   * plan succeeded; with a loaded web provider, the provider then reads that
   * same hash back for the file.
   */
  lemma ChangedHashIsStored(site: Site, hp: HashProvider, cache: Option<seq<Entry>>, s: SiteState, url: string,
                            level: FileLevel, content: seq<byte>, localHash: seq<byte>, s2: SiteState)
    requires hp.WebProvider? && cache.Some? && |localHash| > 0
    requires StoreHash(cache.value, site.siteUrl, site.webUrl, url, localHash).Ok?
    ensures var f := PublishAndRecord(site, hp, cache, s, url, level, content, localHash);
      var x := Execute(site, s, UploadPlan(site, s, url, level, content, localHash));
      x.outcome.Pass? ==>
        f.effects == x.effects + WriteHash(site, hp, cache, url, localHash).effects &&
        ReadHash(site, hp, f.cache, s2, url).hash == Ok(localHash)
  {
    WriteThenRead(site, hp, cache, s2, url, localHash);
  }

  // ---------------------------------------------------------------------------
  // The imperative steps for one file

  /** Publish a changed file, then store its hash. */
  method PublishAndStoreHash(site: Site, hp: HashProvider, url: string, level: FileLevel, content: seq<byte>,
                             localHash: seq<byte>) returns (r: Result<Synced>)
    requires hp.Valid()
    modifies site, hp.Repr()
    ensures hp.Valid()
    ensures var f := PublishAndRecord(site, hp, old(HashCache(hp)), old(site.state), url, level, content, localHash);
      r == f.result && site.state == f.state && site.history == old(site.history) + f.effects &&
      HashCache(hp) == f.cache
  {
    var o := PublishChangedFile(site, url, level, content, localHash);
    if o.Throw? {
      return Fail(o.error);
    }
    ghost var published := site.history;
    o := StoreFileHash(hp, site, url, localHash);
    AppendAssoc(old(site.history), published[|old(site.history)|..],
                WriteHash(site, hp, old(HashCache(hp)), url, localHash).effects);
    if o.Throw? {
      return Fail(o.error);
    }
    r := Ok(Synced(true, localHash));
  }

  /** Compare the local hash with the stored one; publish the file only when they differ. */
  method CompareAndSync(site: Site, hp: HashProvider, url: string, level: FileLevel, content: seq<byte>,
                        serverHash: seq<byte>, digest: seq<byte> -> seq<byte>) returns (r: Result<Synced>)
    requires hp.Valid()
    modifies site, hp.Repr()
    ensures hp.Valid()
    ensures var f := CompareAndPublish(site, hp, old(HashCache(hp)), old(site.state), url, level, content, serverHash, digest);
      r == f.result && site.state == f.state && site.history == old(site.history) + f.effects &&
      HashCache(hp) == f.cache
  {
    var localHash := digest(content);
    var contentsMatch := CompareHashes(localHash, serverHash);
    if contentsMatch {
      if !HexPrefixFits(serverHash) {
        return Fail(LogPrefixError);
      }
      return Ok(Synced(false, localHash));
    }
    r := PublishAndStoreHash(site, hp, url, level, content, localHash);
  }

  /** Whether an UploadInfo reports the given file as the run completed it. */
  ghost predicate Describes(info: UploadInfo, filePath: Option<string>, url: string, synced: Synced)
    reads info.hashValue
  {
    info.filePath == filePath && info.serverRelativeUrl == url && info.changed == synced.changed &&
    info.hashValue[..] == synced.hash
  }

  /** The using block of UploadFileInternal: preprocess, compare and publish; the preprocessor is disposed on every path once made. */
  method PreprocessAndSync(site: Site, hp: HashProvider, ps: seq<Preprocessor>, utf8: TextEncoding,
                           digest: seq<byte> -> seq<byte>, input: seq<byte>, url: string, level: FileLevel,
                           serverHash: seq<byte>) returns (r: Result<Synced>)
    requires hp.Valid()
    modifies site, hp.Repr()
    ensures hp.Valid()
    ensures var f := SyncPrepared(site, hp, old(HashCache(hp)), old(site.state), url, level,
                                  old(Prepared(ps, site, utf8, input)), serverHash, digest);
      r == f.result && site.state == f.state && site.history == old(site.history) + f.effects &&
      HashCache(hp) == f.cache
  {
    var streamPreprocessor := NewStreamPreprocessor(site, input, ps, utf8);
    if streamPreprocessor.Fail? {
      return Fail(streamPreprocessor.error);
    }
    var content := streamPreprocessor.value.Stream();
    r := CompareAndSync(site, hp, url, level, content, serverHash, digest);
    streamPreprocessor.value.Dispose();
  }

  /** Read the stored hash, then preprocess, compare and publish. */
  method ReadAndSync(site: Site, hp: HashProvider, ps: seq<Preprocessor>, utf8: TextEncoding,
                     digest: seq<byte> -> seq<byte>, input: seq<byte>, url: string, level: FileLevel)
    returns (r: Result<Synced>)
    requires hp.Valid()
    modifies site, hp.Repr()
    ensures hp.Valid()
    ensures var f := SyncFile(site, Some(hp), old(HashCache(hp)), old(site.state), url, level,
                              old(Prepared(ps, site, utf8, input)), digest);
      r == f.result && site.state == f.state && site.history == old(site.history) + f.effects &&
      HashCache(hp) == f.cache
  {
    ghost var prepared := Prepared(ps, site, utf8, input);
    assert hp.Repr() !! Footprint(ps);
    var serverHash := GetFileHash(hp, site, url);
    if serverHash.Fail? {
      return Fail(serverHash.error);
    }
    assert Prepared(ps, site, utf8, input) == prepared;
    r := PreprocessAndSync(site, hp, ps, utf8, digest, input, url, level, serverHash.value);
  }

  /** UploadFileInternal: a null hash provider throws; the file's UploadInfo carries its own copy of the local hash. */
  method UploadFileInternal(site: Site, hp: Option<HashProvider>, ps: seq<Preprocessor>, utf8: TextEncoding,
                            digest: seq<byte> -> seq<byte>, input: seq<byte>, sourceFilePath: Option<string>,
                            url: string, level: FileLevel) returns (r: Result<UploadInfo>)
    requires ProviderValid(hp)
    modifies site, ProviderRepr(hp)
    ensures ProviderValid(hp)
    ensures var f := SyncFile(site, hp, old(ProviderCache(hp)), old(site.state), url, level,
                              old(Prepared(ps, site, utf8, input)), digest);
      site.state == f.state && site.history == old(site.history) + f.effects && ProviderCache(hp) == f.cache &&
      (f.result.Fail? ==> r == Fail(f.result.error)) &&
      (f.result.Ok? ==> r.Ok? && fresh(r.value) && fresh(r.value.hashValue) &&
                        Describes(r.value, sourceFilePath, url, f.result.value))
  {
    if hp.None? {
      return Fail(NullReferenceException);
    }
    var synced := ReadAndSync(site, hp.value, ps, utf8, digest, input, url, level);
    if synced.Fail? {
      return Fail(synced.error);
    }
    var localHash := synced.value.hash;
    var hashArray := new byte[|localHash|](i requires 0 <= i < |localHash| => localHash[i]);
    var info := new UploadInfo(sourceFilePath, url, synced.value.changed, hashArray);
    r := Ok(info);
  }

  // ---------------------------------------------------------------------------
  // A folder

  /** The destination of a local file: its file name combined with the destination folder. */
  function FileUrl(destinationServerRelativeUrl: string, filePath: string): string
  {
    CombinePaths(destinationServerRelativeUrl, Migrations.GetFileName(filePath))
  }

  /**
   * A folder's run: the reports of the files completed, the exception that
   * stopped the loop (if any), the effects, the final state and the provider's map.
   */
  datatype FolderRun = FolderRun(reports: seq<Synced>, error: Option<Exception>, effects: seq<Effect>,
                                 state: SiteState, cache: Option<seq<Entry>>)

  /**
   * A foreach whose body may throw, for any body: step(run, i) is the run
   * after the i-th pass; the first exception ends the loop.
   */
  function RunLoop(step: (FolderRun, nat) -> FolderRun, start: FolderRun, n: nat): FolderRun
  {
    if n == 0 then start
    else
      var before := RunLoop(step, start, n - 1);
      if before.error.Some? then before else step(before, n - 1)
  }

  /** A pass reports the item it completed, and only that; a pass that throws reports nothing. */
  ghost predicate ReportsOnePass(step: (FolderRun, nat) -> FolderRun, n: nat)
  {
    forall run: FolderRun, i: nat | i < n ::
      (step(run, i).error.Some? ==> step(run, i).reports == run.reports) &&
      (step(run, i).error.None? ==> |step(run, i).reports| == |run.reports| + 1 &&
                                    step(run, i).reports[..|run.reports|] == run.reports)
  }

  /**
   * Every item is reported when no exception stopped the loop; otherwise the
   * reports stop short of the failing item. (The passes are known up to a
   * bound, so that the induction keeps one fact about them.)
   */
  lemma {:induction false} LoopReportsInOrder(step: (FolderRun, nat) -> FolderRun, start: FolderRun, n: nat, bound: nat)
    requires ReportsOnePass(step, bound) && n <= bound && start.reports == [] && start.error.None?
    ensures var run := RunLoop(step, start, n);
      (run.error.None? <==> |run.reports| == n) && |run.reports| <= n
  {
    if n > 0 {
      LoopReportsInOrder(step, start, n - 1, bound);
      var before := RunLoop(step, start, n - 1);
      if before.error.None? {
        var run := step(before, n - 1);
        assert run.error.Some? ==> run.reports == before.reports;
        assert run.error.None? ==> |run.reports| == |before.reports| + 1;
      }
    }
  }

  /** Reports are never taken back: the reports after n passes begin with those after m <= n. */
  lemma {:induction false} LoopReportsGrow(step: (FolderRun, nat) -> FolderRun, start: FolderRun, m: nat, n: nat, bound: nat)
    requires ReportsOnePass(step, bound) && m <= n <= bound
    ensures var early := RunLoop(step, start, m).reports;
      var late := RunLoop(step, start, n).reports;
      |early| <= |late| && late[..|early|] == early
  {
    if m < n {
      LoopReportsGrow(step, start, m, n - 1, bound);
      var before := RunLoop(step, start, n - 1);
      if before.error.None? {
        var run := step(before, n - 1);
        assert run.error.Some? ==> run.reports == before.reports;
        assert run.error.None? ==> run.reports[..|before.reports|] == before.reports;
      }
    }
  }

  /** A loop that has stopped keeps its result however many items follow. */
  lemma {:induction false} LoopErrorPersists(step: (FolderRun, nat) -> FolderRun, start: FolderRun, m: nat, n: nat)
    requires m <= n && RunLoop(step, start, m).error.Some?
    ensures RunLoop(step, start, n) == RunLoop(step, start, m)
  {
    if m < n {
      LoopErrorPersists(step, start, m, n - 1);
    }
  }

  /**
   * Items after the one that failed are never touched: the loop over all n
   * items is the loop over the items up to and including the failing one,
   * and every item before it completed.
   */
  lemma {:induction false} LoopStopsAtFirstError(step: (FolderRun, nat) -> FolderRun, start: FolderRun, n: nat, bound: nat)
    requires ReportsOnePass(step, bound) && n <= bound && start.reports == [] && start.error.None?
    ensures var run := RunLoop(step, start, n);
      run.error.Some? ==>
        var k := |run.reports|;
        k < n && RunLoop(step, start, k).error.None? && RunLoop(step, start, k + 1) == run
  {
    if n > 0 {
      var before := RunLoop(step, start, n - 1);
      if before.error.Some? {
        LoopStopsAtFirstError(step, start, n - 1, bound);
      } else {
        LoopReportsInOrder(step, start, n - 1, bound);
        var run := step(before, n - 1);
        assert run.error.Some? ==> run.reports == before.reports;
      }
    }
  }

  /** A pass whose item is reported unchanged accepts no effect and leaves the state alone. */
  ghost predicate UnchangedPassIsNoop(step: (FolderRun, nat) -> FolderRun, n: nat)
  {
    forall run: FolderRun, i: nat | i < n ::
      step(run, i).error.None? && |step(run, i).reports| > |run.reports| &&
      !step(run, i).reports[|run.reports|].changed ==>
        step(run, i).effects == run.effects && step(run, i).state == run.state
  }

  /** A loop in which nothing was reported changed accepted no effect and left the state alone. */
  lemma {:induction false} LoopUnchangedIsNoop(step: (FolderRun, nat) -> FolderRun, start: FolderRun, n: nat, bound: nat)
    requires ReportsOnePass(step, bound) && UnchangedPassIsNoop(step, bound) && n <= bound
    ensures var run := RunLoop(step, start, n);
      run.error.None? && (forall k :: |start.reports| <= k < |run.reports| ==> !run.reports[k].changed) ==>
        run.effects == start.effects && run.state == start.state
  {
    if n > 0 {
      var before := RunLoop(step, start, n - 1);
      var run := RunLoop(step, start, n);
      LoopUnchangedIsNoop(step, start, n - 1, bound);
      if run.error.None? && (forall k :: |start.reports| <= k < |run.reports| ==> !run.reports[k].changed) {
        assert before.error.None? && run == step(before, n - 1);
        assert |run.reports| == |before.reports| + 1 && run.reports[..|before.reports|] == before.reports;
        LoopReportsGrow(step, start, 0, n - 1, bound);
        assert forall k :: |start.reports| <= k < |before.reports| ==> before.reports[k] == run.reports[k];
        assert !run.reports[|before.reports|].changed;
      }
    }
  }

  /** File.OpenRead and the preprocessing of a file's content, which depend only on the local file and the preprocessors. */
  function PrepareLocal(ps: seq<Preprocessor>, site: Site, host: LocalHost, path: string): Result<seq<byte>>
    reads Footprint(ps)
  {
    match OpenRead(host, path)
    case Fail(e) => Fail(e)
    case Ok(input) => Prepared(ps, site, host.utf8, input)
  }

  /** The preprocessed content of every file of the folder, as the run will see it. */
  function PrepareAll(ps: seq<Preprocessor>, site: Site, host: LocalHost, paths: seq<string>): (prepared: seq<Result<seq<byte>>>)
    reads Footprint(ps)
    ensures |prepared| == |paths|
    ensures forall i :: 0 <= i < |paths| ==> prepared[i] == PrepareLocal(ps, site, host, paths[i])
  {
    seq(|paths|, i requires 0 <= i < |paths| reads Footprint(ps) => PrepareLocal(ps, site, host, paths[i]))
  }

  /**
   * One file of the foreach: File.OpenRead, then UploadFileInternal on the
   * stream, whose preprocessed content is given.
   */
  function OpenAndSync(site: Site, hp: Option<HashProvider>, cache: Option<seq<Entry>>, s: SiteState, host: LocalHost,
                       dest: string, path: string, prepared: Result<seq<byte>>, level: FileLevel): FileRun
  {
    match OpenRead(host, path)
    case Fail(e) => FileRun(Fail(e), [], s, cache)
    case Ok(_) => SyncFile(site, hp, cache, s, FileUrl(dest, path), level, prepared, host.digest)
  }

  /** One file of the foreach as a function of the state, the provider's map, the path and the prepared content. */
  type FileSync = (SiteState, Option<seq<Entry>>, string, Result<seq<byte>>) -> FileRun

  /** The file step SynchronizeFolderInternal takes: File.OpenRead, then UploadFileInternal. */
  function FileSyncOf(site: Site, hp: Option<HashProvider>, host: LocalHost, dest: string, level: FileLevel): FileSync
  {
    (s: SiteState, cache: Option<seq<Entry>>, path: string, prepared: Result<seq<byte>>) =>
      OpenAndSync(site, hp, cache, s, host, dest, path, prepared, level)
  }

  /** A pass of the foreach: a completed file is reported; an exception ends the loop. */
  function Absorb(before: FolderRun, f: FileRun): (r: FolderRun)
    ensures r.error.Some? ==> r.reports == before.reports
    ensures r.error.None? ==> |r.reports| == |before.reports| + 1 && r.reports[..|before.reports|] == before.reports
    ensures r.effects == before.effects + f.effects && r.state == f.state && r.cache == f.cache
  {
    if f.result.Fail? then FolderRun(before.reports, Some(f.result.error), before.effects + f.effects, f.state, f.cache)
    else FolderRun(before.reports + [f.result.value], None, before.effects + f.effects, f.state, f.cache)
  }

  /** The body of the foreach over the enumerated files, as a step of RunLoop. */
  function StepWith(file: FileSync, paths: seq<string>, prepared: seq<Result<seq<byte>>>): (FolderRun, nat) -> FolderRun
  {
    (run: FolderRun, i: nat) =>
      if i < |paths| && i < |prepared| then Absorb(run, file(run.state, run.cache, paths[i], prepared[i])) else run
  }

  /** A pass of the foreach over the files reports the file it completed, and only that. */
  lemma StepReportsOnePass(file: FileSync, paths: seq<string>, prepared: seq<Result<seq<byte>>>)
    requires |prepared| == |paths|
    ensures ReportsOnePass(StepWith(file, paths, prepared), |paths|)
  {
    var step := StepWith(file, paths, prepared);
    forall run: FolderRun, i: nat | i < |paths|
      ensures (step(run, i).error.Some? ==> step(run, i).reports == run.reports) &&
              (step(run, i).error.None? ==> |step(run, i).reports| == |run.reports| + 1 &&
                                            step(run, i).reports[..|run.reports|] == run.reports)
    {
      var r := Absorb(run, file(run.state, run.cache, paths[i], prepared[i]));
      assert step(run, i) == r;
    }
  }

  /** A file reported unchanged left the server as it was. */
  lemma SyncStepUnchangedIsNoop(site: Site, hp: Option<HashProvider>, host: LocalHost, dest: string, paths: seq<string>,
                                prepared: seq<Result<seq<byte>>>, level: FileLevel)
    requires |prepared| == |paths|
    ensures UnchangedPassIsNoop(StepWith(FileSyncOf(site, hp, host, dest, level), paths, prepared), |paths|)
  {
    var step := StepWith(FileSyncOf(site, hp, host, dest, level), paths, prepared);
    forall run: FolderRun, i: nat | i < |paths|
      ensures step(run, i).error.None? && |step(run, i).reports| > |run.reports| &&
              !step(run, i).reports[|run.reports|].changed ==>
                step(run, i).effects == run.effects && step(run, i).state == run.state
    {
      var f := OpenAndSync(site, hp, run.cache, run.state, host, dest, paths[i], prepared[i], level);
      var r := Absorb(run, f);
      assert step(run, i) == r;
      if r.error.None? && !r.reports[|run.reports|].changed {
        var url := FileUrl(dest, paths[i]);
        var read := ReadHash(site, hp.value, run.cache, run.state, url);
        assert f.result.Ok? && !f.result.value.changed;
        ChangedIffHashDiffers(site, hp.value, read.cache, run.state, url, level, prepared[i].value,
                              read.hash.value, host.digest);
        UnchangedFileUntouched(site, hp.value, read.cache, run.state, url, level, prepared[i].value,
                               read.hash.value, host.digest);
      }
    }
  }

  /** The foreach over the enumerated files, from the state and provider map before it. */
  function SyncFiles(site: Site, hp: Option<HashProvider>, cache: Option<seq<Entry>>, s: SiteState, host: LocalHost,
                     dest: string, paths: seq<string>, prepared: seq<Result<seq<byte>>>, level: FileLevel): FolderRun
  {
    RunLoop(StepWith(FileSyncOf(site, hp, host, dest, level), paths, prepared), FolderRun([], None, [], s, cache), |paths|)
  }

  /** The body of the foreach: open the file and upload it. */
  method OpenAndUpload(site: Site, hp: Option<HashProvider>, host: LocalHost, ps: seq<Preprocessor>, dest: string,
                       path: string, level: FileLevel) returns (r: Result<UploadInfo>)
    requires ProviderValid(hp)
    modifies site, ProviderRepr(hp)
    ensures ProviderValid(hp)
    ensures var f := OpenAndSync(site, hp, old(ProviderCache(hp)), old(site.state), host, dest, path,
                                 old(PrepareLocal(ps, site, host, path)), level);
      site.state == f.state && site.history == old(site.history) + f.effects && ProviderCache(hp) == f.cache &&
      (f.result.Fail? ==> r == Fail(f.result.error)) &&
      (f.result.Ok? ==> r.Ok? && fresh(r.value) && fresh(r.value.hashValue) &&
                        Describes(r.value, Some(path), FileUrl(dest, path), f.result.value))
  {
    var localStream := OpenRead(host, path);
    if localStream.Fail? {
      return Fail(localStream.error);
    }
    r := UploadFileInternal(site, hp, ps, host.utf8, host.digest, localStream.value, Some(path), FileUrl(dest, path), level);
  }

  /** UploadInfos that report, in order, the files of a run that completed them. */
  ghost predicate Reports(infos: seq<UploadInfo>, paths: seq<string>, dest: string, reports: seq<Synced>)
    reads set k | 0 <= k < |infos| :: infos[k].hashValue
  {
    |infos| == |reports| && |reports| <= |paths| &&
    (|infos| > 0 ==>
       var n := |infos| - 1;
       Reports(infos[..n], paths, dest, reports[..n]) &&
       Describes(infos[n], Some(paths[n]), FileUrl(dest, paths[n]), reports[n]))
  }

  /** The k-th UploadInfo of a report describes the k-th file and what the run did to it. */
  lemma {:induction false} ReportsDescribeEach(infos: seq<UploadInfo>, paths: seq<string>, dest: string,
                                               reports: seq<Synced>, k: nat)
    requires Reports(infos, paths, dest, reports) && k < |infos|
    ensures Describes(infos[k], Some(paths[k]), FileUrl(dest, paths[k]), reports[k])
    decreases |infos|
  {
    var n := |infos| - 1;
    if k < n {
      ReportsDescribeEach(infos[..n], paths, dest, reports[..n], k);
    }
  }

  /** One more completed file extends the reports. */
  lemma ReportsExtend(infos: seq<UploadInfo>, paths: seq<string>, dest: string, reports: seq<Synced>,
                      info: UploadInfo, synced: Synced)
    requires Reports(infos, paths, dest, reports) && |infos| < |paths|
    requires Describes(info, Some(paths[|infos|]), FileUrl(dest, paths[|infos|]), synced)
    ensures Reports(infos + [info], paths, dest, reports + [synced])
  {
    assert (infos + [info])[..|infos|] == infos;
    assert (reports + [synced])[..|infos|] == reports;
  }

  /**
   * That file is the file step of SynchronizeFolderInternal, stated so that it
   * is used only where OpenAndSync itself is mentioned.
   */
  ghost predicate IsFileSync(file: FileSync, site: Site, hp: Option<HashProvider>, host: LocalHost, dest: string,
                             level: FileLevel)
  {
    forall s: SiteState, cache: Option<seq<Entry>>, path: string, prepared: Result<seq<byte>>
      {:trigger OpenAndSync(site, hp, cache, s, host, dest, path, prepared, level)} ::
      file(s, cache, path, prepared) == OpenAndSync(site, hp, cache, s, host, dest, path, prepared, level)
  }

  /** What the foreach loop of SynchronizeFolderInternal keeps true: the server, the provider and the reports agree with the run so far. */
  ghost predicate LoopMatchesRun(site: Site, hp: Option<HashProvider>, dest: string, paths: seq<string>,
                                 history: seq<Effect>, run: FolderRun, infos: seq<UploadInfo>)
    reads site, ProviderRepr(hp), set k | 0 <= k < |infos| :: infos[k].hashValue
  {
    ProviderValid(hp) && site.state == run.state && site.history == history + run.effects &&
    ProviderCache(hp) == run.cache && Reports(infos, paths, dest, run.reports)
  }

  /**
   * One pass of the foreach loop of SynchronizeFolderInternal, once the files
   * before it completed: the file's UploadInfo is added when its upload completes.
   */
  method SyncPass(site: Site, hp: Option<HashProvider>, host: LocalHost, ps: seq<Preprocessor>, dest: string,
                  paths: seq<string>, level: FileLevel, ghost file: FileSync, ghost prepared: Result<seq<byte>>,
                  ghost history: seq<Effect>, ghost run: FolderRun, i: nat, infos: seq<UploadInfo>)
    returns (infos': seq<UploadInfo>, error: Option<Exception>)
    requires IsFileSync(file, site, hp, host, dest, level)
    requires i < |paths| && |infos| == i && PrepareLocal(ps, site, host, paths[i]) == prepared
    requires LoopMatchesRun(site, hp, dest, paths, history, run, infos)
    modifies site, ProviderRepr(hp)
    ensures var next := Absorb(run, file(run.state, run.cache, paths[i], prepared));
      LoopMatchesRun(site, hp, dest, paths, history, next, infos') &&
      error == next.error && (error.None? ==> |infos'| == i + 1)
  {
    ghost var f := OpenAndSync(site, hp, run.cache, run.state, host, dest, paths[i], prepared, level);
    var uploaded := OpenAndUpload(site, hp, host, ps, dest, paths[i], level);
    assert Reports(infos, paths, dest, run.reports);
    AppendAssoc(history, run.effects, f.effects);
    if uploaded.Fail? {
      infos' := infos;
      error := Some(uploaded.error);
    } else {
      ReportsExtend(infos, paths, dest, run.reports, uploaded.value, f.result.value);
      infos' := infos + [uploaded.value];
      error := None;
    }
  }

  /** A pass of the foreach over the files that have not thrown absorbs the next file's run. */
  lemma LoopTakesStep(file: FileSync, paths: seq<string>, prepared: seq<Result<seq<byte>>>, start: FolderRun, i: nat)
    requires i < |paths| == |prepared| && RunLoop(StepWith(file, paths, prepared), start, i).error.None?
    ensures var run := RunLoop(StepWith(file, paths, prepared), start, i);
      RunLoop(StepWith(file, paths, prepared), start, i + 1) == Absorb(run, file(run.state, run.cache, paths[i], prepared[i]))
  {
  }

  /** The foreach loop of SynchronizeFolderInternal, for a file step given by IsFileSync. */
  method SyncEach(site: Site, hp: Option<HashProvider>, host: LocalHost, ps: seq<Preprocessor>, dest: string,
                  paths: seq<string>, level: FileLevel, ghost file: FileSync, ghost prepared: seq<Result<seq<byte>>>)
    returns (infos: seq<UploadInfo>, error: Option<Exception>)
    requires ProviderValid(hp) && IsFileSync(file, site, hp, host, dest, level)
    requires prepared == PrepareAll(ps, site, host, paths)
    modifies site, ProviderRepr(hp)
    ensures var run := RunLoop(StepWith(file, paths, prepared),
                               FolderRun([], None, [], old(site.state), old(ProviderCache(hp))), |paths|);
      error == run.error && LoopMatchesRun(site, hp, dest, paths, old(site.history), run, infos)
  {
    assert ProviderRepr(hp) !! Footprint(ps);
    ghost var step := StepWith(file, paths, prepared);
    ghost var start := FolderRun([], None, [], site.state, ProviderCache(hp));
    infos := [];
    error := None;
    var i := 0;
    ghost var run := start;
    while i < |paths| && error.None?
      invariant i <= |paths| && run == RunLoop(step, start, i) && error == run.error
      invariant LoopMatchesRun(site, hp, dest, paths, old(site.history), run, infos)
      invariant error.None? ==> |infos| == i
    {
      assert PrepareLocal(ps, site, host, paths[i]) == old(PrepareLocal(ps, site, host, paths[i]));
      LoopTakesStep(file, paths, prepared, start, i);
      infos, error := SyncPass(site, hp, host, ps, dest, paths, level, file, prepared[i], old(site.history), run, i, infos);
      run := RunLoop(step, start, i + 1);
      i := i + 1;
    }
    if error.Some? {
      LoopErrorPersists(step, start, i, |paths|);
    }
    assert run == RunLoop(step, start, |paths|);
    assert start == FolderRun([], None, [], old(site.state), old(ProviderCache(hp)));
  }

  /** The foreach loop of SynchronizeFolderInternal: a file's UploadInfo is added once its upload completed. */
  method SyncFilesLoop(site: Site, hp: Option<HashProvider>, host: LocalHost, ps: seq<Preprocessor>, dest: string,
                       paths: seq<string>, level: FileLevel) returns (infos: seq<UploadInfo>, error: Option<Exception>)
    requires ProviderValid(hp)
    modifies site, ProviderRepr(hp)
    ensures ProviderValid(hp)
    ensures var run := SyncFiles(site, hp, old(ProviderCache(hp)), old(site.state), host, dest, paths,
                                 old(PrepareAll(ps, site, host, paths)), level);
      error == run.error && site.state == run.state && site.history == old(site.history) + run.effects &&
      ProviderCache(hp) == run.cache && Reports(infos, paths, dest, run.reports)
  {
    ghost var file := FileSyncOf(site, hp, host, dest, level);
    infos, error := SyncEach(site, hp, host, ps, dest, paths, level, file, PrepareAll(ps, site, host, paths));
  }

  // ---------------------------------------------------------------------------
  // SynchronizeFolderInternal

  /** The files Directory.EnumerateFiles lists; none when the folder cannot be enumerated. */
  function Listed(host: LocalHost, sourcePath: string): seq<string>
  {
    var listed := EnumerateFiles(host, sourcePath);
    if listed.Ok? then listed.value else []
  }

  /** The destination folder, resolved against the context site and web. */
  function Destination(site: Site, destinationPrefixedUrl: string): string
  {
    ResolveServerRelativeUrl(site.siteUrl, site.webUrl, destinationPrefixedUrl)
  }

  /**
   * SynchronizeFolderInternal from the state and the provider's map before it:
   * a null argument throws before anything is done; otherwise the run of the
   * try block, which enumerates the local folder and then runs the foreach, and
   * whose first exception ends it.
   */
  function FolderSync(site: Site, hp: Option<HashProvider>, cache: Option<seq<Entry>>, s: SiteState, host: LocalHost,
                      ps: seq<Preprocessor>, sourcePath: Option<string>, destinationPrefixedUrl: Option<string>,
                      level: FileLevel): (r: Result<FolderRun>)
    reads Footprint(ps)
    ensures sourcePath.None? ==> r == Fail(ArgumentNullException("sourcePath"))
    ensures sourcePath.Some? && destinationPrefixedUrl.None? ==> r == Fail(ArgumentNullException("destinationPrefixedUrl"))
    ensures r.Ok? <==> sourcePath.Some? && destinationPrefixedUrl.Some?
    ensures r.Ok? && EnumerateFiles(host, sourcePath.value).Fail? ==>
      r.value == FolderRun([], Some(EnumerateFiles(host, sourcePath.value).error), [], s, cache)
  {
    if sourcePath.None? then Fail(ArgumentNullException("sourcePath"))
    else if destinationPrefixedUrl.None? then Fail(ArgumentNullException("destinationPrefixedUrl"))
    else
      match EnumerateFiles(host, sourcePath.value)
      case Fail(e) => Ok(FolderRun([], Some(e), [], s, cache))
      case Ok(paths) =>
        Ok(SyncFiles(site, hp, cache, s, host, Destination(site, destinationPrefixedUrl.value), paths,
                     PrepareAll(ps, site, host, paths), level))
  }

  /** The synchronisation succeeds exactly when the folder was enumerated and every file in it was reported. */
  lemma FolderSyncSucceedsIffAllReported(site: Site, hp: Option<HashProvider>, cache: Option<seq<Entry>>, s: SiteState,
                                         host: LocalHost, ps: seq<Preprocessor>, sourcePath: string,
                                         destinationPrefixedUrl: string, level: FileLevel)
    ensures var run := FolderSync(site, hp, cache, s, host, ps, Some(sourcePath), Some(destinationPrefixedUrl), level).value;
      (run.error.None? <==> EnumerateFiles(host, sourcePath).Ok? && |run.reports| == |Listed(host, sourcePath)|) &&
      |run.reports| <= |Listed(host, sourcePath)|
  {
    if EnumerateFiles(host, sourcePath).Ok? {
      var paths := Listed(host, sourcePath);
      var file := FileSyncOf(site, hp, host, Destination(site, destinationPrefixedUrl), level);
      var prepared := PrepareAll(ps, site, host, paths);
      StepReportsOnePass(file, paths, prepared);
      LoopReportsInOrder(StepWith(file, paths, prepared), FolderRun([], None, [], s, cache), |paths|, |paths|);
    }
  }

  /** The first m passes of the foreach see only the first n <= |paths| files. */
  lemma {:induction false} LoopOnPrefix(file: FileSync, paths: seq<string>, prepared: seq<Result<seq<byte>>>,
                                        start: FolderRun, m: nat, n: nat)
    requires |prepared| == |paths| && m <= n <= |paths|
    ensures RunLoop(StepWith(file, paths, prepared), start, m) ==
            RunLoop(StepWith(file, paths[..n], prepared[..n]), start, m)
  {
    if m > 0 {
      LoopOnPrefix(file, paths, prepared, start, m - 1, n);
      var before := RunLoop(StepWith(file, paths, prepared), start, m - 1);
      assert StepWith(file, paths, prepared)(before, m - 1) == StepWith(file, paths[..n], prepared[..n])(before, m - 1);
    }
  }

  /**
   * A pass that throws ends the foreach: the run over all files is the run
   * over the files up to the failing one, and the files before it completed.
   */
  lemma {:induction false} LoopStopsOnPrefix(file: FileSync, paths: seq<string>, prepared: seq<Result<seq<byte>>>, start: FolderRun)
    requires |prepared| == |paths| && start.reports == [] && start.error.None?
    ensures var run := RunLoop(StepWith(file, paths, prepared), start, |paths|);
      var k := |run.reports|;
      run.error.Some? ==>
        k < |paths| &&
        RunLoop(StepWith(file, paths[..k], prepared[..k]), start, k).error.None? &&
        RunLoop(StepWith(file, paths[..k + 1], prepared[..k + 1]), start, k + 1) == run
  {
    var step := StepWith(file, paths, prepared);
    var run := RunLoop(step, start, |paths|);
    if run.error.Some? {
      var k := |run.reports|;
      StepReportsOnePass(file, paths, prepared);
      LoopStopsAtFirstError(step, start, |paths|, |paths|);
      assert k < |paths| && RunLoop(step, start, k).error.None? && RunLoop(step, start, k + 1) == run;
      LoopOnPrefix(file, paths, prepared, start, k, k);
      LoopOnPrefix(file, paths, prepared, start, k + 1, k + 1);
    }
  }

  /** Preparing the first n files is the first n preparations. */
  lemma PrepareAllPrefix(ps: seq<Preprocessor>, site: Site, host: LocalHost, paths: seq<string>, n: nat)
    requires n <= |paths|
    ensures PrepareAll(ps, site, host, paths[..n]) == PrepareAll(ps, site, host, paths)[..n]
  {
    var all := PrepareAll(ps, site, host, paths);
    var some := PrepareAll(ps, site, host, paths[..n]);
    assert forall i :: 0 <= i < n ==> some[i] == all[i];
  }

  /** The run over the first n files, stated on the prefix of the prepared contents. */
  lemma SyncFilesOnPrefix(site: Site, hp: Option<HashProvider>, cache: Option<seq<Entry>>, s: SiteState,
                          host: LocalHost, ps: seq<Preprocessor>, dest: string, paths: seq<string>,
                          level: FileLevel, n: nat)
    requires n <= |paths|
    ensures SyncFiles(site, hp, cache, s, host, dest, paths[..n], PrepareAll(ps, site, host, paths[..n]), level) ==
            RunLoop(StepWith(FileSyncOf(site, hp, host, dest, level), paths[..n], PrepareAll(ps, site, host, paths)[..n]),
                    FolderRun([], None, [], s, cache), n)
  {
    PrepareAllPrefix(ps, site, host, paths, n);
  }

  /** The foreach over a folder's files ends at the first file that throws (see LoopStopsOnPrefix). */
  lemma SyncFilesStopsAtFirstFailure(site: Site, hp: Option<HashProvider>, cache: Option<seq<Entry>>, s: SiteState,
                                     host: LocalHost, ps: seq<Preprocessor>, dest: string, paths: seq<string>,
                                     level: FileLevel)
    ensures var run := SyncFiles(site, hp, cache, s, host, dest, paths, PrepareAll(ps, site, host, paths), level);
      var k := |run.reports|;
      run.error.Some? ==>
        k < |paths| &&
        SyncFiles(site, hp, cache, s, host, dest, paths[..k], PrepareAll(ps, site, host, paths[..k]), level).error.None? &&
        SyncFiles(site, hp, cache, s, host, dest, paths[..k + 1], PrepareAll(ps, site, host, paths[..k + 1]), level) == run
  {
    var prepared := PrepareAll(ps, site, host, paths);
    var run := SyncFiles(site, hp, cache, s, host, dest, paths, prepared, level);
    var file := FileSyncOf(site, hp, host, dest, level);
    var start := FolderRun([], None, [], s, cache);
    LoopStopsOnPrefix(file, paths, prepared, start);
    if run.error.Some? {
      var k := |run.reports|;
      assert RunLoop(StepWith(file, paths[..k + 1], prepared[..k + 1]), start, k + 1) == run;
      SyncFilesOnPrefix(site, hp, cache, s, host, ps, dest, paths, level, k);
      SyncFilesOnPrefix(site, hp, cache, s, host, ps, dest, paths, level, k + 1);
    }
  }

  /**
   * A file that throws ends the synchronisation: the files before it
   * completed, and the run is exactly the run over a folder that held only
   * the files up to and including it, so no later file is touched.
   */
  lemma FolderSyncStopsAtFirstFailure(site: Site, hp: Option<HashProvider>, cache: Option<seq<Entry>>, s: SiteState,
                                      host: LocalHost, ps: seq<Preprocessor>, sourcePath: string,
                                      destinationPrefixedUrl: string, level: FileLevel)
    ensures var run := FolderSync(site, hp, cache, s, host, ps, Some(sourcePath), Some(destinationPrefixedUrl), level).value;
      var paths := Listed(host, sourcePath);
      var dest := Destination(site, destinationPrefixedUrl);
      var k := |run.reports|;
      run.error.Some? && EnumerateFiles(host, sourcePath).Ok? ==>
        k < |paths| &&
        SyncFiles(site, hp, cache, s, host, dest, paths[..k], PrepareAll(ps, site, host, paths[..k]), level).error.None? &&
        SyncFiles(site, hp, cache, s, host, dest, paths[..k + 1], PrepareAll(ps, site, host, paths[..k + 1]), level) == run
  {
    if EnumerateFiles(host, sourcePath).Ok? {
      var paths := Listed(host, sourcePath);
      var dest := Destination(site, destinationPrefixedUrl);
      assert FolderSync(site, hp, cache, s, host, ps, Some(sourcePath), Some(destinationPrefixedUrl), level).value ==
             SyncFiles(site, hp, cache, s, host, dest, paths, PrepareAll(ps, site, host, paths), level);
      SyncFilesStopsAtFirstFailure(site, hp, cache, s, host, ps, dest, paths, level);
    }
  }

  /** A synchronisation that completed and found every file unchanged left the server as it was. */
  lemma FolderSyncUnchangedIsNoop(site: Site, hp: Option<HashProvider>, cache: Option<seq<Entry>>, s: SiteState,
                                  host: LocalHost, ps: seq<Preprocessor>, sourcePath: string,
                                  destinationPrefixedUrl: string, level: FileLevel)
    ensures var run := FolderSync(site, hp, cache, s, host, ps, Some(sourcePath), Some(destinationPrefixedUrl), level).value;
      run.error.None? && (forall k :: 0 <= k < |run.reports| ==> !run.reports[k].changed) ==>
        run.effects == [] && run.state == s
  {
    if EnumerateFiles(host, sourcePath).Ok? {
      var paths := Listed(host, sourcePath);
      var dest := Destination(site, destinationPrefixedUrl);
      var prepared := PrepareAll(ps, site, host, paths);
      var file := FileSyncOf(site, hp, host, dest, level);
      StepReportsOnePass(file, paths, prepared);
      SyncStepUnchangedIsNoop(site, hp, host, dest, paths, prepared, level);
      LoopUnchangedIsNoop(StepWith(file, paths, prepared), FolderRun([], None, [], s, cache), |paths|, |paths|);
    }
  }

  /** A SynchronizationResult for a run: the files it completed, and success exactly when nothing was thrown. */
  ghost predicate Summarises(result: SynchronizationResult, run: FolderRun, paths: seq<string>, dest: string)
    reads set k | 0 <= k < |result.files| :: result.files[k].hashValue
  {
    result.successful == run.error.None? && result.error == run.error && Reports(result.files, paths, dest, run.reports)
  }

  /**
   * What SynchronizeFolderInternal leaves behind, given what FolderSync
   * computes from the state before it: an exception thrown out of it, with
   * nothing done, or the result for the run, whose effects the server has
   * accepted.
   */
  ghost predicate FolderSynchronized(site: Site, hp: Option<HashProvider>, host: LocalHost, sourcePath: Option<string>,
                                     destinationPrefixedUrl: Option<string>, sync: Result<FolderRun>,
                                     history: seq<Effect>, before: SiteState, cache: Option<seq<Entry>>,
                                     r: Result<SynchronizationResult>)
    reads site, ProviderRepr(hp)
    reads if r.Ok? then set k | 0 <= k < |r.value.files| :: r.value.files[k].hashValue else {}
  {
    match sync
    case Fail(e) =>
      r == Fail(e) && site.state == before && site.history == history && ProviderCache(hp) == cache
    case Ok(run) =>
      sourcePath.Some? && destinationPrefixedUrl.Some? && r.Ok? &&
      Summarises(r.value, run, Listed(host, sourcePath.value), Destination(site, destinationPrefixedUrl.value)) &&
      site.state == run.state && site.history == history + run.effects && ProviderCache(hp) == run.cache
  }

  /**
   * SynchronizeFolderInternal: null arguments throw; every exception of the
   * try block is caught and reported in the result with the files completed
   * before it.
   */
  method SynchronizeFolderInternal(site: Site, hp: Option<HashProvider>, host: LocalHost, ps: seq<Preprocessor>,
                                   sourcePath: Option<string>, destinationPrefixedUrl: Option<string>, level: FileLevel)
    returns (r: Result<SynchronizationResult>)
    requires ProviderValid(hp)
    modifies site, ProviderRepr(hp)
    ensures ProviderValid(hp)
    ensures FolderSynchronized(site, hp, host, sourcePath, destinationPrefixedUrl,
                               old(FolderSync(site, hp, ProviderCache(hp), site.state, host, ps, sourcePath,
                                              destinationPrefixedUrl, level)),
                               old(site.history), old(site.state), old(ProviderCache(hp)), r)
  {
    if sourcePath.None? {
      return Fail(ArgumentNullException("sourcePath"));
    }
    if destinationPrefixedUrl.None? {
      return Fail(ArgumentNullException("destinationPrefixedUrl"));
    }
    var dest := ResolveServerRelativeUrl(site.siteUrl, site.webUrl, destinationPrefixedUrl.value);
    var listed := EnumerateFiles(host, sourcePath.value);
    if listed.Fail? {
      var failed := new SynchronizationResult([], false, Some(listed.error));
      return Ok(failed);
    }
    var infos, error := SyncFilesLoop(site, hp, host, ps, dest, listed.value, level);
    var result := new SynchronizationResult(infos, error.None?, error);
    r := Ok(result);
  }

  // ---------------------------------------------------------------------------
  // UploadFile

  /**
   * UploadFile once the destination is resolved: the folder is the URL up to
   * its last '/' (Substring(0, -1) throws when there is none), then the
   * stream is read and UploadFileInternal synchronises it.
   */
  function UploadRun(site: Site, hp: Option<HashProvider>, cache: Option<seq<Entry>>, s: SiteState, host: LocalHost,
                     ps: seq<Preprocessor>, url: string, input: Result<seq<byte>>, level: FileLevel): FileRun
    reads Footprint(ps)
  {
    if LastIndexOf(url, '/') < 0 then FileRun(Fail(ArgumentOutOfRangeException("length")), [], s, cache)
    else if input.Fail? then FileRun(Fail(input.error), [], s, cache)
    else SyncFile(site, hp, cache, s, url, level, Prepared(ps, site, host.utf8, input.value), host.digest)
  }

  /** The File UploadFile returns: the uploaded file's URL, or null when its hash had not changed. */
  function UploadedFile(url: string, f: FileRun): Result<Option<string>>
  {
    if f.result.Fail? then Fail(f.result.error)
    else if f.result.value.changed then Ok(Some(url))
    else Ok(None)
  }

  /**
   * Uploading one file of a folder by itself does exactly what the folder's
   * synchronisation does for that file, when the destination folder is
   * server-relative.
   */
  lemma UploadFileIsFolderStep(site: Site, hp: Option<HashProvider>, cache: Option<seq<Entry>>, s: SiteState,
                               host: LocalHost, ps: seq<Preprocessor>, dest: string, path: string, level: FileLevel)
    requires StartsWith(dest, "/")
    ensures UploadRun(site, hp, cache, s, host, ps, FileUrl(dest, path), OpenRead(host, path), level) ==
            OpenAndSync(site, hp, cache, s, host, dest, path, PrepareLocal(ps, site, host, path), level)
  {
    var url := FileUrl(dest, path);
    assert url[0] == '/';
    assert LastIndexOf(url, '/') >= 0;
  }

  /** UploadFile reports a file exactly when its hash differed from the stored one and it was uploaded. */
  lemma UploadedFileIffChanged(site: Site, hp: HashProvider, cache: Option<seq<Entry>>, s: SiteState, host: LocalHost,
                               url: string, content: seq<byte>, level: FileLevel)
    requires LastIndexOf(url, '/') >= 0
    ensures var read := ReadHash(site, hp, cache, s, url);
      var f := UploadRun(site, Some(hp), cache, s, host, [], url, Ok(content), level);
      read.hash.Ok? && f.result.Ok? ==>
        (UploadedFile(url, f) == Ok(Some(url)) <==> host.digest(content) != read.hash.value)
  {
    var read := ReadHash(site, hp, cache, s, url);
    if read.hash.Ok? {
      ChangedIffHashDiffers(site, hp, read.cache, s, url, level, content, read.hash.value, host.digest);
    }
  }

  /**
   * The body of both UploadFile overloads: resolve the destination against
   * the context site and web, cut the folder off it, then run
   * UploadFileInternal on the stream and return its File.
   */
  method UploadResolved(site: Site, hp: Option<HashProvider>, ps: seq<Preprocessor>, host: LocalHost,
                        input: Result<seq<byte>>, sourceFilePath: Option<string>, destinationPrefixedUrl: string,
                        level: FileLevel) returns (r: Result<Option<string>>)
    requires ProviderValid(hp)
    modifies site, ProviderRepr(hp)
    ensures ProviderValid(hp)
    ensures var url := Destination(site, destinationPrefixedUrl);
      var f := old(UploadRun(site, hp, ProviderCache(hp), site.state, host, ps, url, input, level));
      r == UploadedFile(url, f) && site.state == f.state && site.history == old(site.history) + f.effects &&
      ProviderCache(hp) == f.cache
  {
    var destinationFileServerRelativeUrl := ResolveServerRelativeUrl(site.siteUrl, site.webUrl, destinationPrefixedUrl);
    if LastIndexOf(destinationFileServerRelativeUrl, '/') < 0 {
      return Fail(ArgumentOutOfRangeException("length"));
    }
    if input.Fail? {
      return Fail(input.error);
    }
    var uploaded := UploadFileInternal(site, hp, ps, host.utf8, host.digest, input.value, sourceFilePath,
                                       destinationFileServerRelativeUrl, level);
    if uploaded.Fail? {
      return Fail(uploaded.error);
    }
    r := Ok(if uploaded.value.changed then Some(destinationFileServerRelativeUrl) else None);
  }

  /**
   * The body of SynchronizeFolder's using block, run once the scope is open;
   * leaving the block closes it. The ghost parameters are what the folder's
   * run and the server looked like before the block.
   */
  method SynchronizeThenClose(cm: ContextManager, hp: Option<HashProvider>, host: LocalHost, ps: seq<Preprocessor>,
                              sourcePath: Option<string>, destinationPrefixedUrl: Option<string>, level: FileLevel,
                              ghost sync: Result<FolderRun>, ghost history: seq<Effect>, ghost before: SiteState,
                              ghost cache: Option<seq<Entry>>)
    returns (r: Result<SynchronizationResult>)
    requires ProviderValid(hp) && cm.HasCurrentContext()
    requires history == cm.site.history && before == cm.site.state && cache == ProviderCache(hp)
    requires sync == FolderSync(cm.site, hp, cache, before, host, ps, sourcePath, destinationPrefixedUrl, level)
    modifies cm, cm.site, ProviderRepr(hp)
    ensures ProviderValid(hp) && cm.context == (cm.kind == ExistingContext && old(cm.context))
    ensures FolderSynchronized(cm.site, hp, host, sourcePath, destinationPrefixedUrl, sync, history, before, cache, r)
  {
    r := SynchronizeFolderInternal(cm.site, hp, host, ps, sourcePath, destinationPrefixedUrl, level);
    var closed := cm.CloseScope();
    assert closed == Pass;
  }

  /** The using block of SynchronizeFolder: open a scope, synchronise the folder, close the scope. */
  method SynchronizeInScope(cm: ContextManager, hp: Option<HashProvider>, host: LocalHost, ps: seq<Preprocessor>,
                            sourcePath: Option<string>, destinationPrefixedUrl: Option<string>, level: FileLevel)
    returns (r: Result<SynchronizationResult>)
    requires ProviderValid(hp)
    modifies cm, cm.site, ProviderRepr(hp)
    ensures ProviderValid(hp) && cm.context == cm.AfterScope(old(cm.context))
    ensures cm.connectFails ==>
      r == Fail(ConnectionException(ConnectFailureMessage)) && unchanged(cm.site) && unchanged(ProviderRepr(hp))
    ensures !cm.connectFails ==>
      FolderSynchronized(cm.site, hp, host, sourcePath, destinationPrefixedUrl,
                         old(FolderSync(cm.site, hp, ProviderCache(hp), cm.site.state, host, ps, sourcePath,
                                        destinationPrefixedUrl, level)),
                         old(cm.site.history), old(cm.site.state), old(ProviderCache(hp)), r)
  {
    ghost var history := cm.site.history;
    ghost var before := cm.site.state;
    ghost var cache := ProviderCache(hp);
    ghost var sync := FolderSync(cm.site, hp, cache, before, host, ps, sourcePath, destinationPrefixedUrl, level);
    assert cm !in Footprint(ps) && cm !in ProviderRepr(hp);
    var connected := cm.OpenScope();
    if connected.Throw? {
      return Fail(connected.error);
    }
    r := SynchronizeThenClose(cm, hp, host, ps, sourcePath, destinationPrefixedUrl, level, sync, history, before, cache);
  }

  // ---------------------------------------------------------------------------
  // The Synchronizer

  /** The objects a Synchronizer's operations may change: the context manager, its site and the hash provider. */
  ghost function SynchronizerFrame(c: SynchronizerConfiguration): set<object>
    reads c
  {
    (if c.contextManager != null then {c.contextManager, c.contextManager.site} else {}) + ProviderRepr(c.hashProvider)
  }

  class Synchronizer {
    const configuration: SynchronizerConfiguration

    constructor (configuration: SynchronizerConfiguration)
      ensures this.configuration == configuration
    {
      this.configuration := configuration;
    }

    /**
     * EnsureFolder: inside a context scope, EnsureFolderInternal on the
     * context web; a missing context manager is a null reference and a
     * failed connection throws before anything is done. A missing folder is
     * created through a nested EnsureFolder, whose scope leaves a basic or
     * app-only manager without a current context.
     */
    method EnsureFolder(folderPrefixedUrl: Option<string>) returns (r: Result<string>)
      requires configuration.contextManager != null ==> StartsWith(configuration.contextManager.site.webUrl, "/")
      modifies SynchronizerFrame(configuration)
      ensures var cm := configuration.contextManager;
        cm == null ==> r == Fail(NullReferenceException)
      ensures var cm := configuration.contextManager;
        cm != null && cm.connectFails ==>
          r == Fail(ConnectionException(ConnectFailureMessage)) && unchanged(cm.site)
      ensures var cm := configuration.contextManager;
        cm != null && !cm.connectFails && cm.kind == ExistingContext ==>
          var x := Execute(cm.site, old(cm.site.state), FolderPlan(cm.site, old(cm.site.state), folderPrefixedUrl));
          r == Ensured(cm.site, folderPrefixedUrl, x) &&
          cm.site.state == x.state && cm.site.history == old(cm.site.history) + x.effects
      ensures var cm := configuration.contextManager;
        cm != null && !cm.connectFails && cm.kind != ExistingContext ==>
          r == ClearingEnsured(cm.site, old(cm.site.state), folderPrefixedUrl) && unchanged(cm.site)
      ensures var cm := configuration.contextManager;
        cm != null ==> cm.context == cm.AfterScope(old(cm.context))
    {
      var cm := configuration.contextManager;
      if cm == null {
        return Fail(NullReferenceException);
      }
      r := EnsureFolderInScope(cm, folderPrefixedUrl);
    }

    /** EnsureSiteScriptLink: inside a context scope, add the ScriptLink or update the one of that name. */
    method EnsureSiteScriptLink(name: string, scriptPrefixedUrl: string, sequence: int) returns (r: Result<UserCustomAction>)
      modifies SynchronizerFrame(configuration)
      ensures var cm := configuration.contextManager;
        cm == null ==> r == Fail(NullReferenceException)
      ensures var cm := configuration.contextManager;
        cm != null && cm.connectFails ==>
          r == Fail(ConnectionException(ConnectFailureMessage)) && unchanged(cm.site)
      ensures var cm := configuration.contextManager;
        cm != null && !cm.connectFails ==>
          var x := Execute(cm.site, old(cm.site.state), ScriptLinkPlan(cm.site, old(cm.site.state), name, scriptPrefixedUrl, sequence));
          r == LinkResult(x, name, scriptPrefixedUrl, sequence) &&
          cm.site.state == x.state && cm.site.history == old(cm.site.history) + x.effects
      ensures var cm := configuration.contextManager;
        cm != null ==> cm.context == cm.AfterScope(old(cm.context))
    {
      var cm := configuration.contextManager;
      if cm == null {
        return Fail(NullReferenceException);
      }
      var connected := cm.OpenScope();
      if connected.Throw? {
        return Fail(connected.error);
      }
      r := EnsureScriptLinkInScope(cm.site, name, scriptPrefixedUrl, sequence);
      var closed := cm.CloseScope();
      assert closed == Pass;
    }

    /**
     * SynchronizeFolder: inside a context scope, SynchronizeFolderInternal on
     * the context web with the configured hash provider and preprocessors.
     */
    method SynchronizeFolder(host: LocalHost, sourcePath: Option<string>, destinationPrefixedUrl: Option<string>,
                             publishingLevel: FileLevel) returns (r: Result<SynchronizationResult>)
      requires ProviderValid(configuration.hashProvider)
      modifies SynchronizerFrame(configuration)
      ensures ProviderValid(configuration.hashProvider)
      ensures var cm := configuration.contextManager;
        cm == null ==> r == Fail(NullReferenceException)
      ensures var cm := configuration.contextManager;
        cm != null && cm.connectFails ==>
          r == Fail(ConnectionException(ConnectFailureMessage)) && unchanged(cm.site) &&
          unchanged(ProviderRepr(configuration.hashProvider))
      ensures var cm := configuration.contextManager;
        var hp := configuration.hashProvider;
        cm != null && !cm.connectFails ==>
          FolderSynchronized(cm.site, hp, host, sourcePath, destinationPrefixedUrl,
                             old(FolderSync(cm.site, hp, ProviderCache(hp), cm.site.state, host, configuration.preprocessors,
                                            sourcePath, destinationPrefixedUrl, publishingLevel)),
                             old(cm.site.history), old(cm.site.state), old(ProviderCache(hp)), r)
      ensures var cm := configuration.contextManager;
        cm != null ==> cm.context == cm.AfterScope(old(cm.context))
    {
      var cm := configuration.contextManager;
      if cm == null {
        return Fail(NullReferenceException);
      }
      assert configuration !in SynchronizerFrame(configuration);
      r := SynchronizeInScope(cm, configuration.hashProvider, host, configuration.preprocessors, sourcePath,
                              destinationPrefixedUrl, publishingLevel);
    }

    /** SynchronizeFolder without a level: the files are published. */
    method SynchronizeFolderPublished(host: LocalHost, sourcePath: Option<string>, destinationPrefixedUrl: Option<string>)
      returns (r: Result<SynchronizationResult>)
      requires ProviderValid(configuration.hashProvider)
      modifies SynchronizerFrame(configuration)
      ensures ProviderValid(configuration.hashProvider)
      ensures var cm := configuration.contextManager;
        cm == null ==> r == Fail(NullReferenceException)
      ensures var cm := configuration.contextManager;
        var hp := configuration.hashProvider;
        cm != null && !cm.connectFails ==>
          FolderSynchronized(cm.site, hp, host, sourcePath, destinationPrefixedUrl,
                             old(FolderSync(cm.site, hp, ProviderCache(hp), cm.site.state, host, configuration.preprocessors,
                                            sourcePath, destinationPrefixedUrl, FileLevel.Published)),
                             old(cm.site.history), old(cm.site.state), old(ProviderCache(hp)), r)
    {
      r := SynchronizeFolder(host, sourcePath, destinationPrefixedUrl, FileLevel.Published);
    }

    /**
     * UploadFile from a local path, outside any context scope: the file is
     * synchronised as one file of a folder is, and returned when it was
     * uploaded. The destination is resolved against the manager's current
     * context, so without one the call is a null reference.
     */
    method UploadFile(host: LocalHost, sourcePath: string, destinationPrefixedUrl: string, publishingLevel: FileLevel)
      returns (r: Result<Option<string>>)
      requires ProviderValid(configuration.hashProvider)
      modifies SynchronizerFrame(configuration)
      ensures ProviderValid(configuration.hashProvider)
      ensures var cm := configuration.contextManager;
        cm == null || !cm.HasCurrentContext() ==> r == Fail(NullReferenceException)
      ensures var cm := configuration.contextManager;
        cm != null && !cm.HasCurrentContext() ==> unchanged(cm.site) && unchanged(ProviderRepr(configuration.hashProvider))
      ensures var cm := configuration.contextManager;
        var hp := configuration.hashProvider;
        cm != null && cm.HasCurrentContext() ==>
          var url := Destination(cm.site, destinationPrefixedUrl);
          var f := old(UploadRun(cm.site, hp, ProviderCache(hp), cm.site.state, host, configuration.preprocessors, url,
                                 OpenRead(host, sourcePath), publishingLevel));
          r == UploadedFile(url, f) && cm.site.state == f.state && cm.site.history == old(cm.site.history) + f.effects &&
          ProviderCache(hp) == f.cache
      ensures var cm := configuration.contextManager;
        cm != null ==> cm.context == old(cm.context)
    {
      var cm := configuration.contextManager;
      if cm == null || !cm.HasCurrentContext() {
        return Fail(NullReferenceException);
      }
      r := UploadResolved(cm.site, configuration.hashProvider, configuration.preprocessors, host, OpenRead(host, sourcePath),
                          Some(sourcePath), destinationPrefixedUrl, publishingLevel);
    }

    /** UploadFile from a stream, outside any context scope; without a current context it is a null reference. */
    method UploadStream(host: LocalHost, stream: seq<byte>, destinationPrefixedUrl: string, publishingLevel: FileLevel)
      returns (r: Result<Option<string>>)
      requires ProviderValid(configuration.hashProvider)
      modifies SynchronizerFrame(configuration)
      ensures ProviderValid(configuration.hashProvider)
      ensures var cm := configuration.contextManager;
        cm == null || !cm.HasCurrentContext() ==> r == Fail(NullReferenceException)
      ensures var cm := configuration.contextManager;
        cm != null && !cm.HasCurrentContext() ==> unchanged(cm.site) && unchanged(ProviderRepr(configuration.hashProvider))
      ensures var cm := configuration.contextManager;
        var hp := configuration.hashProvider;
        cm != null && cm.HasCurrentContext() ==>
          var url := Destination(cm.site, destinationPrefixedUrl);
          var f := old(UploadRun(cm.site, hp, ProviderCache(hp), cm.site.state, host, configuration.preprocessors, url,
                                 Ok(stream), publishingLevel));
          r == UploadedFile(url, f) && cm.site.state == f.state && cm.site.history == old(cm.site.history) + f.effects &&
          ProviderCache(hp) == f.cache
      ensures var cm := configuration.contextManager;
        cm != null ==> cm.context == old(cm.context)
    {
      var cm := configuration.contextManager;
      if cm == null || !cm.HasCurrentContext() {
        return Fail(NullReferenceException);
      }
      r := UploadResolved(cm.site, configuration.hashProvider, configuration.preprocessors, host, Ok(stream),
                          None, destinationPrefixedUrl, publishingLevel);
    }
  }
}
