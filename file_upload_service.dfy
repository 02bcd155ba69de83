/**
 * The FileUploadService: the older provisioning service over one client
 * context. It ensures folders, uploads a single file under a given name
 * (checking it out first on request, then checking it in or publishing it),
 * and uploads a local folder, skipping files whose hash the hash provider
 * already holds. Unlike the Synchronizer it runs no preprocessors, always
 * publishes, and lets every exception escape.
 */
module FileUploads {
  import opened Errors
  import opened Text
  import opened OrderedMaps
  import opened Remote
  import opened SPUrlUtility
  import opened HashProviders
  import opened Plans
  import opened UploadPlans
  import opened Folders
  import opened Synchronizers

  /** IUpgradeLog: the trace log the service falls back to, or the one the caller gave. */
  datatype UpgradeLog = TraceUpgradeLog | CallerLog(id: nat)

  // ---------------------------------------------------------------------------
  // UploadFile

  /** File.OpenRead on a path that may be null. */
  function ReadSource(host: LocalHost, sourcePath: Option<string>): Result<seq<byte>>
  {
    if sourcePath.None? then Fail(ArgumentNullException("path")) else OpenRead(host, sourcePath.value)
  }

  /** After the upload: a file left checked out gets a major check-in; any other file is published. */
  function FinishStep(s: SiteState, url: string): Step
  {
    if url in s.files && s.files[url].checkedOut then Request(CheckIn(url), CheckedIn(url, MajorCheckIn))
    else Request(Publish(url), Effect.Published(url))
  }

  /** Upload the content, then check the new version in or publish it. */
  function UploadSteps(site: Site, s: SiteState, url: string, content: seq<byte>): seq<Step>
  {
    [Request(AddFile(url), Uploaded(url, content)), FinishStep(site.Apply(s, Uploaded(url, content)), url)]
  }

  /** What follows the checkout: File.OpenRead, which may throw, then the upload steps. */
  function ReadAndUploadSteps(site: Site, s: SiteState, url: string, content: Result<seq<byte>>): seq<Step>
  {
    if content.Fail? then [Raise(content.error)] else UploadSteps(site, s, url, content.value)
  }

  /**
   * UploadFile once the file's URL is known, as requests computed from the
   * state before the first one: loading the existing file may fail only with
   * "file not found"; an existing file is checked out when asked; the local
   * file is opened only then; the upload follows.
   */
  function ServiceUploadPlan(site: Site, s: SiteState, url: string, content: Result<seq<byte>>, checkout: bool): seq<Step>
  {
    var existing := site.FileQuery(s, url);
    if existing.Fail? && !IsServerError(existing.error, FileNotFound) then [Raise(existing.error)]
    else
      var checkOut := existing.Ok? && checkout;
      var s1 := if checkOut then site.Apply(s, CheckedOut(url)) else s;
      [StepIf(checkOut, Request(CheckOut(url), CheckedOut(url)))] + ReadAndUploadSteps(site, s1, url, content)
  }

  /** A plan whose checkout step passed goes on with the rest from the state it left. */
  lemma ServicePlanSplits(site: Site, s: SiteState, url: string, content: Result<seq<byte>>, checkout: bool)
    requires site.FileQuery(s, url).Ok? || IsServerError(site.FileQuery(s, url).error, FileNotFound)
    ensures var checkOut := site.FileQuery(s, url).Ok? && checkout;
      var first := StepIf(checkOut, Request(CheckOut(url), CheckedOut(url)));
      var x1 := Execute(site, s, [first]);
      Execute(site, s, ServiceUploadPlan(site, s, url, content, checkout)) ==
        if x1.outcome.Throw? then x1 else After(x1.effects, Execute(site, x1.state, ReadAndUploadSteps(site, x1.state, url, content)))
  {
    var checkOut := site.FileQuery(s, url).Ok? && checkout;
    var first := StepIf(checkOut, Request(CheckOut(url), CheckedOut(url)));
    var x1 := Execute(site, s, [first]);
    ExecuteSingle(site, s, first);
    var s1 := if checkOut then site.Apply(s, CheckedOut(url)) else s;
    var rest := ReadAndUploadSteps(site, s1, url, content);
    assert ServiceUploadPlan(site, s, url, content, checkout) == [first] + rest;
    if x1.outcome.Throw? {
      ExecuteThrowFirst(site, s, [first], rest);
    } else {
      ExecutePassFirst(site, s, [first], rest);
    }
  }

  /** Carrying out the upload steps: the upload, then the check-in or publish, each stopping at a fault. */
  lemma UploadStepsRun(site: Site, s: SiteState, url: string, content: seq<byte>)
    ensures var s2 := site.Apply(s, Uploaded(url, content));
      var finish := FinishStep(s2, url);
      Execute(site, s, UploadSteps(site, s, url, content)) ==
        if AddFile(url) in site.faults then Executed([], Throw(site.FaultOf(AddFile(url))), s)
        else if finish.call in site.faults then Executed([Uploaded(url, content)], Throw(site.FaultOf(finish.call)), s2)
        else Executed([Uploaded(url, content), finish.effect], Pass, site.Apply(s2, finish.effect))
  {
    var up := Request(AddFile(url), Uploaded(url, content));
    var finish := FinishStep(site.Apply(s, Uploaded(url, content)), url);
    assert UploadSteps(site, s, url, content) == [up] + [Request(finish.call, finish.effect)];
    ExecuteSingle(site, s, up);
    ExecuteThenRequest(site, s, [up], finish.call, finish.effect);
  }

  /**
   * A server error other than "file not found" while loading the existing
   * file escapes with nothing done.
   */
  lemma ServiceUploadOtherErrorsEscape(site: Site, s: SiteState, url: string, content: Result<seq<byte>>, checkout: bool)
    requires site.FileQuery(s, url).Fail? && !IsServerError(site.FileQuery(s, url).error, FileNotFound)
    ensures Execute(site, s, ServiceUploadPlan(site, s, url, content, checkout)) ==
            Executed([], Throw(site.FileQuery(s, url).error), s)
  {
    ExecuteSingle(site, s, Raise(site.FileQuery(s, url).error));
  }

  /**
   * An upload that completed leaves the file holding the new content and not
   * checked out; it was checked out first exactly when it existed and
   * checkout was asked for, and it was given a major check-in exactly when
   * the upload left it checked out (it was checked out before, or its
   * library forces checkout); otherwise it was published.
   */
  lemma ServiceUploadCompletes(site: Site, s: SiteState, url: string, content: seq<byte>, checkout: bool)
    ensures var x := Execute(site, s, ServiceUploadPlan(site, s, url, Ok(content), checkout));
      var existed := url in s.files;
      var checkedOut := (existed && (checkout || s.files[url].checkedOut)) || site.ForcesCheckout(url);
      x.outcome.Pass? ==>
        url in x.state.files && x.state.files[url] == RemoteFile(content, false) &&
        x.effects == (if existed && checkout then [CheckedOut(url)] else []) +
                     [Uploaded(url, content),
                      if checkedOut then CheckedIn(url, MajorCheckIn) else Effect.Published(url)]
  {
    var x := Execute(site, s, ServiceUploadPlan(site, s, url, Ok(content), checkout));
    if x.outcome.Pass? {
      var existing := site.FileQuery(s, url);
      if existing.Fail? && !IsServerError(existing.error, FileNotFound) {
        ServiceUploadOtherErrorsEscape(site, s, url, Ok(content), checkout);
        assert false;
      }
      ServicePlanSplits(site, s, url, Ok(content), checkout);
      var checkOut := existing.Ok? && checkout;
      var x1 := Execute(site, s, [StepIf(checkOut, Request(CheckOut(url), CheckedOut(url)))]);
      ExecuteSingle(site, s, StepIf(checkOut, Request(CheckOut(url), CheckedOut(url))));
      UploadStepsRun(site, x1.state, url, content);
      assert existing.Ok? <==> url in s.files;
    }
  }

  /**
   * A local file that cannot be read is only opened after the checkout: an
   * existing file checked out on request is left checked out.
   */
  lemma ServiceReadFailureKeepsCheckout(site: Site, s: SiteState, url: string, e: Exception)
    requires url in s.files && LoadFile(url) !in site.faults && CheckOut(url) !in site.faults
    ensures var x := Execute(site, s, ServiceUploadPlan(site, s, url, Fail(e), true));
      x.outcome == Throw(e) && x.effects == [CheckedOut(url)] &&
      url in x.state.files && x.state.files[url].checkedOut
  {
    ServicePlanSplits(site, s, url, Fail(e), true);
    ExecuteSingle(site, s, Request(CheckOut(url), CheckedOut(url)));
    ExecuteSingle(site, site.Apply(s, CheckedOut(url)), Raise(e));
  }

  /** Every check-in among the effects is a major one. */
  ghost predicate CheckInsMajor(effects: seq<Effect>)
  {
    forall k :: 0 <= k < |effects| && effects[k].CheckedIn? ==> effects[k].kind == MajorCheckIn
  }

  /** The read-and-upload steps only ever check in as major. */
  lemma ReadAndUploadChecksInMajor(site: Site, s: SiteState, url: string, content: Result<seq<byte>>)
    ensures CheckInsMajor(Execute(site, s, ReadAndUploadSteps(site, s, url, content)).effects)
  {
    if content.Fail? {
      ExecuteSingle(site, s, Raise(content.error));
    } else {
      UploadStepsRun(site, s, url, content.value);
    }
  }

  /** Every check-in UploadFile makes is a major one. */
  lemma ServiceUploadChecksInMajor(site: Site, s: SiteState, url: string, content: Result<seq<byte>>, checkout: bool)
    ensures CheckInsMajor(Execute(site, s, ServiceUploadPlan(site, s, url, content, checkout)).effects)
  {
    var existing := site.FileQuery(s, url);
    if existing.Fail? && !IsServerError(existing.error, FileNotFound) {
      ServiceUploadOtherErrorsEscape(site, s, url, content, checkout);
    } else {
      ServicePlanSplits(site, s, url, content, checkout);
      var first := StepIf(existing.Ok? && checkout, Request(CheckOut(url), CheckedOut(url)));
      ExecuteSingle(site, s, first);
      var x1 := Execute(site, s, [first]);
      assert CheckInsMajor(x1.effects);
      if x1.outcome.Pass? {
        var y := Execute(site, x1.state, ReadAndUploadSteps(site, x1.state, url, content));
        ReadAndUploadChecksInMajor(site, x1.state, url, content);
        assert CheckInsMajor(x1.effects + y.effects);
      }
    }
  }

  /** The upload steps, performed: the upload, then the check-in or publish its CheckOutType calls for. */
  method UploadContent(site: Site, url: string, content: seq<byte>) returns (o: Outcome)
    modifies site
    ensures var x := Execute(site, old(site.state), UploadSteps(site, old(site.state), url, content));
      o == x.outcome && site.state == x.state && site.history == old(site.history) + x.effects
  {
    UploadStepsRun(site, site.state, url, content);
    o := site.Perform(AddFile(url), Uploaded(url, content));
    if o.Throw? {
      return;
    }
    var checkedOut := site.state.files[url].checkedOut;
    if checkedOut {
      o := site.Perform(CheckIn(url), CheckedIn(url, MajorCheckIn));
    } else {
      o := site.Perform(Publish(url), Effect.Published(url));
    }
  }

  /** Open the local file, then upload it. */
  method ReadAndUpload(site: Site, host: LocalHost, sourcePath: Option<string>, url: string) returns (o: Outcome)
    modifies site
    ensures var x := Execute(site, old(site.state), ReadAndUploadSteps(site, old(site.state), url, ReadSource(host, sourcePath)));
      o == x.outcome && site.state == x.state && site.history == old(site.history) + x.effects
  {
    var sourceStream := ReadSource(host, sourcePath);
    if sourceStream.Fail? {
      ExecuteSingle(site, site.state, Raise(sourceStream.error));
      return Throw(sourceStream.error);
    }
    o := UploadContent(site, url, sourceStream.value);
  }

  /** UploadFile once the file's URL is known: the plan above, carried out request by request. */
  method UploadToUrl(site: Site, host: LocalHost, sourcePath: Option<string>, url: string, checkout: bool)
    returns (o: Outcome)
    modifies site
    ensures var x := Execute(site, old(site.state), ServiceUploadPlan(site, old(site.state), url, ReadSource(host, sourcePath), checkout));
      o == x.outcome && site.state == x.state && site.history == old(site.history) + x.effects
  {
    ghost var s0 := site.state;
    ghost var content := ReadSource(host, sourcePath);
    var existing := site.FileQuery(site.state, url);
    if existing.Fail? && !IsServerError(existing.error, FileNotFound) {
      ServiceUploadOtherErrorsEscape(site, s0, url, content, checkout);
      return Throw(existing.error);
    }
    ServicePlanSplits(site, s0, url, content, checkout);
    o := RequestIf(site, existing.Ok? && checkout, CheckOut(url), CheckedOut(url));
    if o.Throw? {
      return;
    }
    ghost var h1 := site.history;
    o := ReadAndUpload(site, host, sourcePath, url);
    AppendAssoc(old(site.history), h1[|old(site.history)|..], site.history[|h1|..]);
  }

  // ---------------------------------------------------------------------------
  // UploadFolder

  /** A null hash provider argument is replaced by a NullHashProvider. */
  function ProviderOrNull(hashProvider: Option<HashProvider>): HashProvider
  {
    if hashProvider.None? then NullProvider else hashProvider.value
  }

  /** A pass of a foreach whose file is reported is reported changed. */
  ghost predicate PassReportsChanged(step: (FolderRun, nat) -> FolderRun, n: nat)
  {
    forall run: FolderRun, i: nat | i < n ::
      step(run, i).error.None? && |step(run, i).reports| > |run.reports| ==> step(run, i).reports[|run.reports|].changed
  }

  /** Every report says its file was uploaded. */
  ghost predicate AllChanged(reports: seq<Synced>)
  {
    forall k :: 0 <= k < |reports| ==> reports[k].changed
  }

  /** When every pass reports its file changed, every file the loop reports is changed. */
  lemma {:induction false} LoopReportsAllChanged(step: (FolderRun, nat) -> FolderRun, start: FolderRun, n: nat, bound: nat)
    requires ReportsOnePass(step, bound) && PassReportsChanged(step, bound) && n <= bound
    requires AllChanged(start.reports)
    ensures AllChanged(RunLoop(step, start, n).reports)
  {
    if n > 0 {
      LoopReportsAllChanged(step, start, n - 1, bound);
      var before := RunLoop(step, start, n - 1);
      if before.error.None? {
        var run := step(before, n - 1);
        assert RunLoop(step, start, n) == run;
        assert run.error.Some? ==> run.reports == before.reports;
        if run.error.None? {
          assert |run.reports| == |before.reports| + 1 && run.reports[..|before.reports|] == before.reports;
          assert run.reports[|before.reports|].changed;
          assert forall k :: 0 <= k < |before.reports| ==> run.reports[k] == before.reports[k];
        }
      }
    }
  }

  /**
   * With the null provider no hash is stored, so a file whose digest is empty
   * fails the "no change" log line and every other file is uploaded.
   */
  lemma NullProviderPassChanges(site: Site, host: LocalHost, dest: string, paths: seq<string>,
                                prepared: seq<Result<seq<byte>>>, level: FileLevel)
    requires |prepared| == |paths|
    ensures PassReportsChanged(StepWith(FileSyncOf(site, Some(NullProvider), host, dest, level), paths, prepared), |paths|)
  {
    var step := StepWith(FileSyncOf(site, Some(NullProvider), host, dest, level), paths, prepared);
    forall run: FolderRun, i: nat | i < |paths|
      ensures step(run, i).error.None? && |step(run, i).reports| > |run.reports| ==> step(run, i).reports[|run.reports|].changed
    {
      var f := OpenAndSync(site, Some(NullProvider), run.cache, run.state, host, dest, paths[i], prepared[i], level);
      assert step(run, i) == Absorb(run, f);
      if f.result.Ok? {
        var content := prepared[i].value;
        HexPrefixFitsIff([]);
        ChangedIffHashDiffers(site, NullProvider, run.cache, run.state, FileUrl(dest, paths[i]), level, content, [],
                              host.digest);
      }
    }
  }

  /** UploadFolder without a hash provider uploads every file it gets through. */
  lemma NullProviderUploadsEveryFile(site: Site, cache: Option<seq<Entry>>, s: SiteState, host: LocalHost,
                                     sourcePath: string, destinationPrefixedUrl: string)
    ensures AllChanged(FolderSync(site, Some(ProviderOrNull(None)), cache, s, host, [], Some(sourcePath),
                                  Some(destinationPrefixedUrl), FileLevel.Published).value.reports)
  {
    if EnumerateFiles(host, sourcePath).Ok? {
      var paths := Listed(host, sourcePath);
      var dest := Destination(site, destinationPrefixedUrl);
      var prepared := PrepareAll([], site, host, paths);
      var file := FileSyncOf(site, Some(NullProvider), host, dest, FileLevel.Published);
      assert FolderSync(site, Some(NullProvider), cache, s, host, [], Some(sourcePath), Some(destinationPrefixedUrl),
                        FileLevel.Published).value == RunLoop(StepWith(file, paths, prepared), FolderRun([], None, [], s, cache), |paths|);
      StepReportsOnePass(file, paths, prepared);
      NullProviderPassChanges(site, host, dest, paths, prepared, FileLevel.Published);
      LoopReportsAllChanged(StepWith(file, paths, prepared), FolderRun([], None, [], s, cache), |paths|, |paths|);
    }
  }

  /** UploadFolder hashes the bytes of each local file as they are: nothing is preprocessed. */
  lemma ServiceHashesRawContent(site: Site, host: LocalHost, paths: seq<string>, i: nat)
    requires i < |paths|
    ensures PrepareAll([], site, host, paths)[i] == OpenRead(host, paths[i])
  {
  }

  /** What UploadFolder's foreach keeps true: the server and the provider agree with the run so far. */
  ghost predicate UploadMatchesRun(site: Site, hp: HashProvider, history: seq<Effect>, run: FolderRun)
    reads site, hp.Repr()
  {
    hp.Valid() && site.state == run.state && site.history == history + run.effects && HashCache(hp) == run.cache
  }

  /**
   * One pass of UploadFolder's foreach, once the files before it completed:
   * open the file and synchronise its bytes at the Published level.
   */
  method UploadOne(site: Site, hp: HashProvider, host: LocalHost, dest: string, paths: seq<string>, i: nat,
                   ghost prepared: seq<Result<seq<byte>>>, ghost history: seq<Effect>, ghost start: FolderRun)
    returns (error: Option<Exception>)
    requires i < |paths| == |prepared| && prepared[i] == OpenRead(host, paths[i])
    requires var run := RunLoop(StepWith(FileSyncOf(site, Some(hp), host, dest, FileLevel.Published), paths, prepared), start, i);
      run.error.None? && UploadMatchesRun(site, hp, history, run)
    modifies site, hp.Repr()
    ensures var next := RunLoop(StepWith(FileSyncOf(site, Some(hp), host, dest, FileLevel.Published), paths, prepared), start, i + 1);
      UploadMatchesRun(site, hp, history, next) && error == next.error
  {
    ghost var file := FileSyncOf(site, Some(hp), host, dest, FileLevel.Published);
    ghost var run := RunLoop(StepWith(file, paths, prepared), start, i);
    LoopTakesStep(file, paths, prepared, start, i);
    ghost var f := OpenAndSync(site, Some(hp), run.cache, run.state, host, dest, paths[i], OpenRead(host, paths[i]),
                               FileLevel.Published);
    AppendAssoc(history, run.effects, f.effects);
    var localStream := OpenRead(host, paths[i]);
    if localStream.Fail? {
      return Some(localStream.error);
    }
    var synced := ReadAndSync(site, hp, [], host.utf8, host.digest, localStream.value, FileUrl(dest, paths[i]),
                              FileLevel.Published);
    error := if synced.Fail? then Some(synced.error) else None;
  }

  /** The foreach of UploadFolder: the first exception ends it. */
  method UploadEach(site: Site, hp: HashProvider, host: LocalHost, dest: string, paths: seq<string>)
    returns (error: Option<Exception>)
    requires hp.Valid()
    modifies site, hp.Repr()
    ensures var run := SyncFiles(site, Some(hp), old(HashCache(hp)), old(site.state), host, dest, paths,
                                 old(PrepareAll([], site, host, paths)), FileLevel.Published);
      error == run.error && UploadMatchesRun(site, hp, old(site.history), run)
  {
    ghost var prepared := PrepareAll([], site, host, paths);
    ghost var step := StepWith(FileSyncOf(site, Some(hp), host, dest, FileLevel.Published), paths, prepared);
    ghost var start := FolderRun([], None, [], site.state, HashCache(hp));
    error := None;
    var i := 0;
    while i < |paths| && error.None?
      invariant i <= |paths| && error == RunLoop(step, start, i).error
      invariant UploadMatchesRun(site, hp, old(site.history), RunLoop(step, start, i))
    {
      ServiceHashesRawContent(site, host, paths, i);
      error := UploadOne(site, hp, host, dest, paths, i, prepared, old(site.history), start);
      i := i + 1;
    }
    if error.Some? {
      LoopErrorPersists(step, start, i, |paths|);
    }
    assert start == FolderRun([], None, [], old(site.state), old(HashCache(hp)));
  }

  // ---------------------------------------------------------------------------
  // The service

  class FileUploadService {
    const clientContext: Site
    const logger: UpgradeLog

    /** A null logger is replaced by the trace log. */
    constructor (clientContext: Site, logger: Option<UpgradeLog>)
      ensures this.clientContext == clientContext
      ensures this.logger == if logger.None? then TraceUpgradeLog else logger.value
    {
      this.clientContext := clientContext;
      this.logger := if logger.None? then TraceUpgradeLog else logger.value;
    }

    /** EnsureFolder on the context web: the folder plan, each missing parent ensured through the string overload first. */
    method EnsureFolder(folderPrefixedUrl: Option<string>) returns (r: Result<string>)
      requires StartsWith(clientContext.webUrl, "/")
      modifies clientContext
      ensures var x := Execute(clientContext, old(clientContext.state),
                               FolderPlan(clientContext, old(clientContext.state), folderPrefixedUrl));
        r == Ensured(clientContext, folderPrefixedUrl, x) &&
        clientContext.state == x.state && clientContext.history == old(clientContext.history) + x.effects
    {
      r := EnsureFolderInternal(clientContext, folderPrefixedUrl);
    }

    /**
     * UploadFile into the context web: the file's URL is the resolved folder
     * combined with the destination name; the plan is then carried out
     * request by request, and the first exception escapes.
     */
    method UploadFile(host: LocalHost, sourcePath: Option<string>, folderPrefixedUrl: Option<string>,
                      destinationName: Option<string>, checkout: bool) returns (r: Result<string>)
      modifies clientContext
      ensures folderPrefixedUrl.None? ==> r == Fail(NullReferenceException) && unchanged(clientContext)
      ensures folderPrefixedUrl.Some? && destinationName.None? ==>
        r == Fail(ArgumentNullException("path2")) && unchanged(clientContext)
      ensures folderPrefixedUrl.Some? && destinationName.Some? ==>
        var url := CombinePaths(Destination(clientContext, folderPrefixedUrl.value), destinationName.value);
        var x := Execute(clientContext, old(clientContext.state),
                         ServiceUploadPlan(clientContext, old(clientContext.state), url, ReadSource(host, sourcePath), checkout));
        r == (if x.outcome.Pass? then Ok(url) else Fail(x.outcome.error)) &&
        clientContext.state == x.state && clientContext.history == old(clientContext.history) + x.effects
    {
      var site := clientContext;
      if folderPrefixedUrl.None? {
        return Fail(NullReferenceException);
      }
      var folderServerRelativeUrl := ResolveServerRelativeUrl(site.siteUrl, site.webUrl, folderPrefixedUrl.value);
      var fileUrl := Combine(Some(folderServerRelativeUrl), destinationName);
      if fileUrl.Fail? {
        return Fail(fileUrl.error);
      }
      var url := fileUrl.value;
      var o := UploadToUrl(site, host, sourcePath, url, checkout);
      r := if o.Pass? then Ok(url) else Fail(o.error);
    }

    /**
     * UploadFolder into the context web: the folder synchronisation with no
     * preprocessors, at the Published level, with a NullHashProvider when no
     * provider is given; the first exception escapes.
     */
    method UploadFolder(host: LocalHost, sourcePath: Option<string>, destinationPrefixedUrl: Option<string>,
                        hashProvider: Option<HashProvider>) returns (o: Outcome)
      requires hashProvider.Some? ==> hashProvider.value.Valid()
      modifies clientContext, if hashProvider.Some? then hashProvider.value.Repr() else {}
      ensures hashProvider.Some? ==> hashProvider.value.Valid()
      ensures var hp := ProviderOrNull(hashProvider);
        var sync := old(FolderSync(clientContext, Some(hp), HashCache(hp), clientContext.state, host, [], sourcePath,
                                   destinationPrefixedUrl, FileLevel.Published));
        (sync.Fail? ==> o == Throw(sync.error) && unchanged(clientContext) && HashCache(hp) == old(HashCache(hp))) &&
        (sync.Ok? ==>
           o == (if sync.value.error.Some? then Throw(sync.value.error.value) else Pass) &&
           clientContext.state == sync.value.state &&
           clientContext.history == old(clientContext.history) + sync.value.effects &&
           HashCache(hp) == sync.value.cache)
    {
      var site := clientContext;
      if sourcePath.None? {
        return Throw(ArgumentNullException("sourcePath"));
      }
      if destinationPrefixedUrl.None? {
        return Throw(ArgumentNullException("destinationPrefixedUrl"));
      }
      var hp := ProviderOrNull(hashProvider);
      var destinationServerRelativeUrl := ResolveServerRelativeUrl(site.siteUrl, site.webUrl, destinationPrefixedUrl.value);
      var filePaths := EnumerateFiles(host, sourcePath.value);
      if filePaths.Fail? {
        return Throw(filePaths.error);
      }
      var error := UploadEach(site, hp, host, destinationServerRelativeUrl, filePaths.value);
      o := if error.Some? then Throw(error.value) else Pass;
    }
  }
}
