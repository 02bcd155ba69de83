/**
 * The server round trips that publish one changed file: the optional checkout,
 * the upload, and the check-in, publish and approval that the document
 * library's versioning settings call for. The decisions form a plan of
 * requests computed from the site's state before the first of them; carrying
 * the plan out stops at the first request the server refuses or the first
 * exception the client raises. The byte-by-byte hash comparison that decides
 * whether a file is published at all is here too.
 */
module UploadPlans {
  import opened Errors
  import opened Text
  import opened Remote
  import opened HashProviders
  import opened Plans

  /** Microsoft.SharePoint.Client.FileLevel: the state an uploaded file should be left in. */
  datatype FileLevel = Published | Draft | Checkout

  // ---------------------------------------------------------------------------
  // The log line

  /** The "updating" and "no change" log lines print the first 12 characters of BitConverter.ToString(hash). */
  const LogPrefixLength: nat := 12

  /** String.Substring(0, 12) throws on a shorter text. */
  const LogPrefixError: Exception := ArgumentOutOfRangeException("length")

  predicate HexPrefixFits(h: seq<byte>)
  {
    |ToHexString(h)| >= LogPrefixLength
  }

  /** The log line can be written exactly when the hash has at least five bytes (a SHA-1 digest has 20). */
  lemma HexPrefixFitsIff(h: seq<byte>)
    ensures HexPrefixFits(h) <==> |h| >= 5
  {
    HexTextLength(h);
  }

  // ---------------------------------------------------------------------------
  // The plan

  /**
   * Whether to check the file out before uploading it: only when its library
   * forces checkout and it is not checked out already. A missing file and a
   * file outside any library need no checkout; other server errors escape.
   */
  function CheckOutDecision(site: Site, s: SiteState, url: string): Result<bool>
  {
    match site.FileQuery(s, url)
    case Fail(e) => if IsServerError(e, FileNotFound) then Ok(false) else Fail(e)
    case Ok(checkedOut) =>
      match site.ListQuery(url)
      case Fail(e) => if IsServerError(e, NotInList) then Ok(false) else Fail(e)
      case Ok(list) => Ok(list.forceCheckout && !checkedOut)
  }

  function CheckInKind(minorVersions: bool): CheckinType
  {
    if minorVersions then MinorCheckIn else MajorCheckIn
  }

  /** Check in, then publish and approve at the Published level, once the library's settings are known. */
  function PublishingSteps(url: string, level: FileLevel, checkIn: bool, minorVersions: bool, moderation: bool): seq<Step>
  {
    [StepIf(checkIn, Request(CheckIn(url), CheckedIn(url, CheckInKind(minorVersions)))),
     StepIf(level.Published? && minorVersions, Request(Publish(url), Effect.Published(url))),
     StepIf(level.Published? && moderation, Request(Approve(url), Approved(url)))]
  }

  /**
   * After the upload, for the Draft and Published levels: the library's
   * settings are read again (outside a library the earlier checkout decision
   * stands and nothing is published or approved), and the file is checked in
   * when it is checked out or its library forces checkout.
   */
  function CheckInSteps(site: Site, url: string, level: FileLevel, checkedOut: bool, forced: bool): seq<Step>
  {
    if !level.Draft? && !level.Published? then []
    else
      match site.ListQuery(url)
      case Fail(e) =>
        if IsServerError(e, NotInList) then PublishingSteps(url, level, checkedOut || forced, false, false)
        else [Raise(e)]
      case Ok(list) =>
        PublishingSteps(url, level, checkedOut || list.forceCheckout, list.enableMinorVersions, list.enableModeration)
  }

  /** The upload itself, or the exception the "updating" log line throws before it. */
  function UploadStep(url: string, content: seq<byte>, localHash: seq<byte>): Step
  {
    if HexPrefixFits(localHash) then Request(AddFile(url), Uploaded(url, content)) else Raise(LogPrefixError)
  }

  /** The steps once the checkout decision `forced` is made, from the site's state s. */
  function DecidedPlan(site: Site, s: SiteState, url: string, level: FileLevel, content: seq<byte>,
                       localHash: seq<byte>, forced: bool): seq<Step>
  {
    var s1 := if forced then site.Apply(s, CheckedOut(url)) else s;
    [StepIf(forced, Request(CheckOut(url), CheckedOut(url))), UploadStep(url, content, localHash)] +
    CheckInSteps(site, url, level, site.Apply(s1, Uploaded(url, content)).files[url].checkedOut, forced)
  }

  /** The steps that publish a changed file, decided from the site's state s before the first of them. */
  function UploadPlan(site: Site, s: SiteState, url: string, level: FileLevel, content: seq<byte>,
                      localHash: seq<byte>): seq<Step>
  {
    match CheckOutDecision(site, s, url)
    case Fail(e) => [Raise(e)]
    case Ok(forced) => DecidedPlan(site, s, url, level, content, localHash, forced)
  }

  // ---------------------------------------------------------------------------
  // What the plan asks for

  /** Server errors other than the two recognised ones escape before anything is changed. */
  lemma PlanPropagatesServerErrors(site: Site, s: SiteState, url: string, level: FileLevel,
                                   content: seq<byte>, localHash: seq<byte>)
    ensures var f := site.FileQuery(s, url);
      f.Fail? && !IsServerError(f.error, FileNotFound) ==>
        UploadPlan(site, s, url, level, content, localHash) == [Raise(f.error)]
    ensures var l := site.ListQuery(url);
      site.FileQuery(s, url).Ok? && l.Fail? && !IsServerError(l.error, NotInList) ==>
        UploadPlan(site, s, url, level, content, localHash) == [Raise(l.error)]
  {
  }

  /** A checkout is requested exactly when the file exists unchecked-out in a library that forces checkout, and then first. */
  lemma PlanChecksOutOnlyWhenForced(site: Site, s: SiteState, url: string, level: FileLevel,
                                    content: seq<byte>, localHash: seq<byte>)
    ensures var plan := UploadPlan(site, s, url, level, content, localHash);
      var forced := site.FileQuery(s, url) == Ok(false) && site.ListQuery(url).Ok? && site.ListQuery(url).value.forceCheckout;
      (Request(CheckOut(url), CheckedOut(url)) in plan <==> forced) &&
      (forced ==> plan[0] == Request(CheckOut(url), CheckedOut(url)))
  {
  }

  /** The preprocessed content is uploaded whenever no error escapes the checkout decision and the log line. */
  lemma PlanUploadsContent(site: Site, s: SiteState, url: string, level: FileLevel,
                           content: seq<byte>, localHash: seq<byte>)
    ensures Request(AddFile(url), Uploaded(url, content)) in UploadPlan(site, s, url, level, content, localHash) <==>
      CheckOutDecision(site, s, url).Ok? && HexPrefixFits(localHash)
  {
  }

  /** Which of the check-in, publish and approve requests the publishing steps hold. */
  lemma PublishingStepsHold(url: string, level: FileLevel, checkIn: bool, minorVersions: bool, moderation: bool)
    ensures var p := PublishingSteps(url, level, checkIn, minorVersions, moderation);
      (Request(CheckIn(url), CheckedIn(url, CheckInKind(minorVersions))) in p <==> checkIn) &&
      Request(CheckIn(url), CheckedIn(url, CheckInKind(!minorVersions))) !in p &&
      (Request(Publish(url), Effect.Published(url)) in p <==> level.Published? && minorVersions) &&
      (Request(Approve(url), Approved(url)) in p <==> level.Published? && moderation)
  {
  }

  /**
   * Inside a library: at the Draft and Published levels the file is checked in
   * when it was checked out already or the library forces checkout, as a minor
   * version exactly when minor versions are enabled; at the Published level it
   * is published when minor versions are enabled and approved when moderation
   * is enabled. The Checkout level asks for none of these.
   */
  lemma PlanFollowsLibrarySettings(site: Site, s: SiteState, url: string, level: FileLevel,
                                   content: seq<byte>, localHash: seq<byte>)
    requires CheckOutDecision(site, s, url).Ok? && HexPrefixFits(localHash) && site.ListQuery(url).Ok?
    ensures var plan := UploadPlan(site, s, url, level, content, localHash);
      var list := site.ListQuery(url).value;
      var drafted := level.Draft? || level.Published?;
      (Request(CheckIn(url), CheckedIn(url, CheckInKind(list.enableMinorVersions))) in plan <==>
         drafted && (list.forceCheckout || site.FileQuery(s, url) == Ok(true))) &&
      Request(CheckIn(url), CheckedIn(url, CheckInKind(!list.enableMinorVersions))) !in plan &&
      (Request(Publish(url), Effect.Published(url)) in plan <==> level.Published? && list.enableMinorVersions) &&
      (Request(Approve(url), Approved(url)) in plan <==> level.Published? && list.enableModeration)
  {
    var list := site.ListQuery(url).value;
    var forced := CheckOutDecision(site, s, url).value;
    var s1 := if forced then site.Apply(s, CheckedOut(url)) else s;
    var checkedOut := site.Apply(s1, Uploaded(url, content)).files[url].checkedOut;
    assert site.ForcesCheckout(url) == list.forceCheckout;
    assert checkedOut || list.forceCheckout <==> list.forceCheckout || site.FileQuery(s, url) == Ok(true);
    PublishingStepsHold(url, level, checkedOut || list.forceCheckout, list.enableMinorVersions, list.enableModeration);
  }

  /**
   * Outside any library nothing is published or approved, and the file is
   * checked in, as a major version, only when it was checked out already.
   */
  lemma PlanOutsideLibraries(site: Site, s: SiteState, url: string, level: FileLevel,
                             content: seq<byte>, localHash: seq<byte>)
    requires CheckOutDecision(site, s, url).Ok? && HexPrefixFits(localHash)
    requires site.ListQuery(url) == Fail(ServerException(NotInList))
    ensures var plan := UploadPlan(site, s, url, level, content, localHash);
      (Request(CheckIn(url), CheckedIn(url, MajorCheckIn)) in plan <==>
         (level.Draft? || level.Published?) && site.FileQuery(s, url) == Ok(true)) &&
      Request(CheckIn(url), CheckedIn(url, MinorCheckIn)) !in plan &&
      Request(Publish(url), Effect.Published(url)) !in plan &&
      Request(Approve(url), Approved(url)) !in plan
  {
  }

  /**
   * A hash too short for the "uploading" log line makes the plan throw before
   * the upload is requested (after the checkout, when one was needed).
   */
  lemma ShortHashPlanThrows(site: Site, s: SiteState, url: string, level: FileLevel,
                            content: seq<byte>, localHash: seq<byte>)
    requires !HexPrefixFits(localHash)
    ensures Execute(site, s, UploadPlan(site, s, url, level, content, localHash)).outcome.Throw?
  {
    if CheckOutDecision(site, s, url).Ok? {
      var forced := CheckOutDecision(site, s, url).value;
      var s1 := if forced then site.Apply(s, CheckedOut(url)) else s;
      var a := [StepIf(forced, Request(CheckOut(url), CheckedOut(url))), UploadStep(url, content, localHash)];
      var c := CheckInSteps(site, url, level, site.Apply(s1, Uploaded(url, content)).files[url].checkedOut, forced);
      assert UploadPlan(site, s, url, level, content, localHash) == a + c;
      ExecuteAppend(site, s, a, c);
      ExecuteStopsAtFirstRefusal(site, s, a, if Accepted(site, a[0]) then 1 else 0);
    }
  }

  /**
   * When every request succeeds at the Draft or Published level, the file
   * holds the uploaded content and is left checked in.
   */
  lemma AcceptedPlanLeavesFileCheckedIn(site: Site, s: SiteState, url: string, level: FileLevel,
                                        content: seq<byte>, localHash: seq<byte>)
    requires level.Draft? || level.Published?
    requires Execute(site, s, UploadPlan(site, s, url, level, content, localHash)).outcome == Pass
    ensures var x := Execute(site, s, UploadPlan(site, s, url, level, content, localHash));
      url in x.state.files && x.state.files[url] == RemoteFile(content, false)
  {
    var forced := CheckOutDecision(site, s, url).value;
    var s1 := if forced then site.Apply(s, CheckedOut(url)) else s;
    var s2 := site.Apply(s1, Uploaded(url, content));
    var a := [StepIf(forced, Request(CheckOut(url), CheckedOut(url))), UploadStep(url, content, localHash)];
    var c := CheckInSteps(site, url, level, s2.files[url].checkedOut, forced);
    assert UploadPlan(site, s, url, level, content, localHash) == a + c;
    ExecuteAppend(site, s, a, c);
    assert a[1..] == [UploadStep(url, content, localHash)];
    ExecuteSingle(site, s1, UploadStep(url, content, localHash));
    assert Execute(site, s, a).state == s2;
    if site.ListQuery(url).Ok? {
      var list := site.ListQuery(url).value;
      assert site.ForcesCheckout(url) == list.forceCheckout;
      PublishingLeavesCheckedIn(site, s2, url, level, s2.files[url].checkedOut || list.forceCheckout,
                                list.enableMinorVersions, list.enableModeration);
    } else {
      assert !site.ForcesCheckout(url);
      PublishingLeavesCheckedIn(site, s2, url, level, s2.files[url].checkedOut || forced, false, false);
    }
  }

  /** Checking in, publishing and approving keep the content and leave the file checked in. */
  lemma PublishingLeavesCheckedIn(site: Site, s: SiteState, url: string, level: FileLevel,
                                  checkIn: bool, minorVersions: bool, moderation: bool)
    requires url in s.files && (s.files[url].checkedOut ==> checkIn)
    requires Execute(site, s, PublishingSteps(url, level, checkIn, minorVersions, moderation)).outcome == Pass
    ensures var x := Execute(site, s, PublishingSteps(url, level, checkIn, minorVersions, moderation));
      url in x.state.files && x.state.files[url] == s.files[url].(checkedOut := false)
  {
    var steps := PublishingSteps(url, level, checkIn, minorVersions, moderation);
    var rest := steps[1..];
    assert rest == [steps[1], steps[2]];
    ExecuteRestKeepsState(site, s, rest);
    if checkIn {
      ExecuteRestKeepsState(site, site.Apply(s, CheckedIn(url, CheckInKind(minorVersions))), rest);
    }
  }

  /** Publishing and approving change nothing the model keeps. */
  lemma ExecuteRestKeepsState(site: Site, s: SiteState, steps: seq<Step>)
    requires forall i :: 0 <= i < |steps| ==> steps[i].Skip? || (steps[i].Request? && (steps[i].effect.Published? || steps[i].effect.Approved?))
    ensures Execute(site, s, steps).state == s
    decreases |steps|
  {
    if |steps| > 0 {
      ExecuteRestKeepsState(site, s, steps[1..]);
    }
  }

  // ---------------------------------------------------------------------------
  // The comparison and the imperative steps

  /** Equal lengths, then byte by byte until the first difference. */
  method CompareHashes(localHash: seq<byte>, serverHash: seq<byte>) returns (contentsMatch: bool)
    ensures contentsMatch <==> localHash == serverHash
  {
    contentsMatch := false;
    if |localHash| == |serverHash| {
      contentsMatch := true;
      var index := 0;
      while index < |serverHash|
        invariant 0 <= index <= |serverHash|
        invariant forall j :: 0 <= j < index ==> serverHash[j] == localHash[j]
      {
        if serverHash[index] != localHash[index] {
          contentsMatch := false;
          break;
        }
        index := index + 1;
      }
      if contentsMatch {
        assert localHash == serverHash;
      }
    }
  }

  /** Publish, then approve, as far as the server accepts. */
  method PublishAndApprove(site: Site, url: string, publish: bool, approve: bool) returns (o: Outcome)
    modifies site
    ensures var x := Execute(site, old(site.state), [StepIf(publish, Request(Publish(url), Effect.Published(url))),
                                                     StepIf(approve, Request(Approve(url), Approved(url)))]);
      o == x.outcome && site.state == x.state && site.history == old(site.history) + x.effects
  {
    ghost var s0 := site.state;
    ghost var a := [StepIf(publish, Request(Publish(url), Effect.Published(url)))];
    ghost var b := [StepIf(approve, Request(Approve(url), Approved(url)))];
    assert a + b == [a[0], b[0]];
    o := RequestIf(site, publish, Publish(url), Effect.Published(url));
    if o.Throw? {
      ExecuteThrowFirst(site, s0, a, b);
      return;
    }
    ExecutePassFirst(site, s0, a, b);
    o := RequestIf(site, approve, Approve(url), Approved(url));
    AppendAssoc(old(site.history), Execute(site, s0, a).effects, Execute(site, Execute(site, s0, a).state, b).effects);
  }

  /** Check in, publish and approve, as far as the server accepts. */
  method FinishPublishing(site: Site, url: string, level: FileLevel, checkIn: bool, minorVersions: bool,
                          moderation: bool) returns (o: Outcome)
    modifies site
    ensures var x := Execute(site, old(site.state), PublishingSteps(url, level, checkIn, minorVersions, moderation));
      o == x.outcome && site.state == x.state && site.history == old(site.history) + x.effects
  {
    ghost var s0 := site.state;
    ghost var steps := PublishingSteps(url, level, checkIn, minorVersions, moderation);
    ghost var a := [steps[0]];
    ghost var bc := [steps[1], steps[2]];
    assert steps == a + bc;
    o := RequestIf(site, checkIn, CheckIn(url), CheckedIn(url, CheckInKind(minorVersions)));
    if o.Throw? {
      ExecuteThrowFirst(site, s0, a, bc);
      return;
    }
    ExecutePassFirst(site, s0, a, bc);
    o := PublishAndApprove(site, url, level.Published? && minorVersions, level.Published? && moderation);
    AppendAssoc(old(site.history), Execute(site, s0, a).effects, Execute(site, Execute(site, s0, a).state, bc).effects);
  }

  /** For the Draft and Published levels, the library's settings decide the check-in, publish and approval. */
  method CheckInAndPublish(site: Site, url: string, level: FileLevel, forced: bool) returns (o: Outcome)
    requires url in site.state.files
    modifies site
    ensures var x := Execute(site, old(site.state),
                             CheckInSteps(site, url, level, old(site.state).files[url].checkedOut, forced));
      o == x.outcome && site.state == x.state && site.history == old(site.history) + x.effects
  {
    if level.Draft? || level.Published? {
      var checkOutRequired := forced;
      var publishingRequired := false;
      var approvalRequired := false;
      var list := site.ListQuery(url);
      if list.Fail? {
        if !IsServerError(list.error, NotInList) {
          return Throw(list.error);
        }
      } else {
        checkOutRequired := list.value.forceCheckout;
        publishingRequired := list.value.enableMinorVersions;
        approvalRequired := list.value.enableModeration;
      }
      o := FinishPublishing(site, url, level, site.state.files[url].checkedOut || checkOutRequired,
                            publishingRequired, approvalRequired);
    } else {
      o := Pass;
    }
  }

  /** The upload, then the check-in and publishing that the library's settings call for. */
  method UploadAndCheckIn(site: Site, url: string, level: FileLevel, content: seq<byte>, localHash: seq<byte>,
                          checkOutRequired: bool) returns (o: Outcome)
    modifies site
    ensures var x := Execute(site, old(site.state),
                             [UploadStep(url, content, localHash)] +
                             CheckInSteps(site, url, level,
                                          site.Apply(old(site.state), Uploaded(url, content)).files[url].checkedOut,
                                          checkOutRequired));
      o == x.outcome && site.state == x.state && site.history == old(site.history) + x.effects
  {
    ghost var s0 := site.state;
    ghost var c := CheckInSteps(site, url, level, site.Apply(s0, Uploaded(url, content)).files[url].checkedOut,
                                checkOutRequired);
    ExecuteAppend(site, s0, [UploadStep(url, content, localHash)], c);
    if !HexPrefixFits(localHash) {
      return Throw(LogPrefixError);
    }
    o := site.Perform(AddFile(url), Uploaded(url, content));
    if o.Throw? {
      return;
    }
    o := CheckInAndPublish(site, url, level, checkOutRequired);
  }

  /** Once the checkout decision is made: checkout if needed, upload, then check in and publish. */
  method UploadDecided(site: Site, url: string, level: FileLevel, content: seq<byte>, localHash: seq<byte>,
                       checkOutRequired: bool) returns (o: Outcome)
    modifies site
    ensures var x := Execute(site, old(site.state),
                             DecidedPlan(site, old(site.state), url, level, content, localHash, checkOutRequired));
      o == x.outcome && site.state == x.state && site.history == old(site.history) + x.effects
  {
    ghost var s0 := site.state;
    ghost var a := [StepIf(checkOutRequired, Request(CheckOut(url), CheckedOut(url)))];
    ghost var s1 := if checkOutRequired then site.Apply(s0, CheckedOut(url)) else s0;
    ghost var rest := [UploadStep(url, content, localHash)] +
                      CheckInSteps(site, url, level, site.Apply(s1, Uploaded(url, content)).files[url].checkedOut,
                                   checkOutRequired);
    assert DecidedPlan(site, s0, url, level, content, localHash, checkOutRequired) == a + rest;
    o := RequestIf(site, checkOutRequired, CheckOut(url), CheckedOut(url));
    if o.Throw? {
      ExecuteThrowFirst(site, s0, a, rest);
      return;
    }
    ExecutePassFirst(site, s0, a, rest);
    o := UploadAndCheckIn(site, url, level, content, localHash, checkOutRequired);
    AppendAssoc(old(site.history), Execute(site, s0, a).effects, Execute(site, Execute(site, s0, a).state, rest).effects);
  }

  /** Publishes a file whose hash differs from the stored one. */
  method PublishChangedFile(site: Site, url: string, level: FileLevel, content: seq<byte>, localHash: seq<byte>)
    returns (o: Outcome)
    modifies site
    ensures var x := Execute(site, old(site.state), UploadPlan(site, old(site.state), url, level, content, localHash));
      o == x.outcome && site.state == x.state && site.history == old(site.history) + x.effects
  {
    var checkOutRequired := false;
    var existing := site.FileQuery(site.state, url);
    if existing.Fail? {
      if !IsServerError(existing.error, FileNotFound) {
        return Throw(existing.error);
      }
    } else {
      var list := site.ListQuery(url);
      if list.Fail? {
        if !IsServerError(list.error, NotInList) {
          return Throw(list.error);
        }
      } else if list.value.forceCheckout && !existing.value {
        checkOutRequired := true;
      }
    }
    assert CheckOutDecision(site, site.state, url) == Ok(checkOutRequired);
    o := UploadDecided(site, url, level, content, localHash, checkOutRequired);
  }
}
