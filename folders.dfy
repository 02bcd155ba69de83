/**
 * EnsureFolder: make sure a folder of the context web exists, creating every
 * missing folder on its path. The path is resolved ("~site/" and
 * "~sitecollection/" prefixes), must lie under the web's server-relative URL,
 * and is looked up; when the lookup fails with a server error the parent path
 * (the path minus its last '/'-separated segment) is ensured first and the
 * last segment is then added under it. All lookups happen before the first
 * folder is added, so the folders to add form a plan decided on the site's
 * state at the start.
 */
module Folders {
  import opened Errors
  import opened Text
  import opened Remote
  import opened SPUrlUtility
  import opened Plans

  function AboveWebRootMessage(webRoot: string, folder: string): string
  {
    "You should not create a folder above the current Web root (web root: " + webRoot + ", folder: " + folder + ")"
  }

  /** The folder a prefixed path names, as a server-relative URL. */
  function FolderUrl(site: Site, folderPrefixedUrl: string): string
  {
    ResolveServerRelativeUrl(site.siteUrl, site.webUrl, folderPrefixedUrl)
  }

  /** Everything before the last '/': String.Join("/", all segments of Split('/') but the last). */
  function ParentPath(url: string): string
  {
    var segments := Split(url, '/');
    Join(segments[..|segments| - 1], '/')
  }

  /** The last '/'-separated segment. */
  function LastSegment(url: string): string
  {
    var segments := Split(url, '/');
    segments[|segments| - 1]
  }

  lemma {:induction false} SplitHasTwoParts(s: string, sep: char)
    requires sep in s
    ensures |Split(s, sep)| >= 2
  {
    var i := IndexOf(s, sep);
    assert i >= 0 by {
      var j :| 0 <= j < |s| && s[j] == sep;
    }
  }

  /** Adding the last segment under the parent path gives the path back. */
  lemma ParentPathAddsLastSegment(url: string)
    requires '/' in url
    ensures ParentPath(url) + "/" + LastSegment(url) == url
  {
    var segments := Split(url, '/');
    SplitHasTwoParts(url, '/');
    JoinSplit(url, '/');
    assert segments == segments[..|segments| - 1] + [segments[|segments| - 1]];
    JoinSnoc(segments[..|segments| - 1], segments[|segments| - 1], '/');
  }

  /** The parent of a server-relative path is shorter and resolves to itself. */
  lemma ParentPathResolves(site: Site, url: string)
    requires StartsWith(url, "/")
    ensures |ParentPath(url)| < |url|
    ensures FolderUrl(site, ParentPath(url)) == ParentPath(url)
  {
    assert url[0] == '/';
    ParentPathAddsLastSegment(url);
    var parent := ParentPath(url);
    if |parent| > 0 {
      assert parent[0] == url[0];
      ResolveUnprefixed(site.siteUrl, site.webUrl, parent);
    }
  }

  /** The measure that shrinks with each recursive EnsureFolder. */
  function FolderDepth(site: Site, folderPrefixedUrl: Option<string>): nat
  {
    if folderPrefixedUrl.None? then 0 else |FolderUrl(site, folderPrefixedUrl.value)|
  }

  /**
   * The steps EnsureFolder takes from the site's state s: the argument check,
   * the web-root guard, and, for a folder the server cannot load, the steps for
   * its parent followed by adding the folder itself.
   */
  function FolderPlan(site: Site, s: SiteState, folderPrefixedUrl: Option<string>): seq<Step>
    requires StartsWith(site.webUrl, "/")
    decreases FolderDepth(site, folderPrefixedUrl)
  {
    match folderPrefixedUrl
    case None => [Raise(ArgumentNullException("folderPrefixedUrl"))]
    case Some(p) =>
      var u := FolderUrl(site, p);
      if !StartsWith(u, site.webUrl) then [Raise(GeneralException(AboveWebRootMessage(site.webUrl, u)))]
      else if site.FolderQuery(s, u).Pass? then []
      else
        ParentPathResolves(site, u);
        FolderPlan(site, s, Some(ParentPath(u))) + [Request(AddFolder(u), FolderAdded(u))]
  }

  // ---------------------------------------------------------------------------
  // What the plan does

  /** A folder outside the web is refused before anything is looked up. */
  lemma EnsureFolderRejectsOutsideWeb(site: Site, s: SiteState, p: string)
    requires StartsWith(site.webUrl, "/")
    requires !StartsWith(FolderUrl(site, p), site.webUrl)
    ensures Execute(site, s, FolderPlan(site, s, Some(p))) ==
      Executed([], Throw(GeneralException(AboveWebRootMessage(site.webUrl, FolderUrl(site, p)))), s)
  {
  }

  /** A folder the server loads is left alone. */
  lemma EnsureFolderKeepsExisting(site: Site, s: SiteState, p: string)
    requires StartsWith(site.webUrl, "/")
    requires StartsWith(FolderUrl(site, p), site.webUrl)
    requires FolderUrl(site, p) in s.folders && LoadFolder(FolderUrl(site, p)) !in site.faults
    ensures FolderPlan(site, s, Some(p)) == []
    ensures Execute(site, s, FolderPlan(site, s, Some(p))) == Executed([], Pass, s)
  {
  }

  /** One level of the recursion: a folder under the web root that cannot be loaded. */
  lemma FolderPlanUnfolds(site: Site, s: SiteState, p: string)
    requires StartsWith(site.webUrl, "/")
    requires StartsWith(FolderUrl(site, p), site.webUrl) && site.FolderQuery(s, FolderUrl(site, p)).Throw?
    ensures var u := FolderUrl(site, p);
      FolderPlan(site, s, Some(p)) == FolderPlan(site, s, Some(ParentPath(u))) + [Request(AddFolder(u), FolderAdded(u))]
    ensures var u := FolderUrl(site, p);
      |ParentPath(u)| < |u| && FolderUrl(site, ParentPath(u)) == ParentPath(u) && u[..|ParentPath(u)|] == ParentPath(u)
  {
    var u := FolderUrl(site, p);
    ParentPathResolves(site, u);
    ParentPathAddsLastSegment(u);
  }

  /** An exception can only be the first step: the guard or the argument check of the outermost ancestor looked at. */
  lemma {:induction false} FolderPlanRaisesFirst(site: Site, s: SiteState, p: string)
    requires StartsWith(site.webUrl, "/")
    ensures var plan := FolderPlan(site, s, Some(p));
      forall i :: 0 <= i < |plan| && plan[i].Raise? ==> i == 0
    decreases |FolderUrl(site, p)|
  {
    var u := FolderUrl(site, p);
    if StartsWith(u, site.webUrl) && site.FolderQuery(s, u).Throw? {
      FolderPlanUnfolds(site, s, p);
      FolderPlanRaisesFirst(site, s, ParentPath(u));
      assert var pp := FolderPlan(site, s, Some(ParentPath(u)));
        forall k :: 0 <= k < |pp| && pp[k].Raise? ==> k == 0;
      var pp := FolderPlan(site, s, Some(ParentPath(u)));
      var plan := pp + [Request(AddFolder(u), FolderAdded(u))];
      forall i | 0 <= i < |plan| && plan[i].Raise?
        ensures i == 0
      {
        if i < |pp| {
          assert pp[i] == plan[i];
        }
      }
    }
  }

  /** A step of the plan for u that, if it is a request, adds a folder on u's path, under the web root, that could not be loaded. */
  ghost predicate AddsMissingAncestor(site: Site, s: SiteState, u: string, step: Step)
  {
    step.Request? ==>
      step.call.AddFolder? && step.effect == FolderAdded(step.call.url) &&
      StartsWith(u, step.call.url) && StartsWith(step.call.url, site.webUrl) &&
      site.FolderQuery(s, step.call.url).Throw?
  }

  /** What adds a missing folder on the parent's path adds one on the child's path. */
  lemma AncestorOfParent(site: Site, s: SiteState, u: string, parent: string, step: Step)
    requires StartsWith(u, parent) && AddsMissingAncestor(site, s, parent, step)
    ensures AddsMissingAncestor(site, s, u, step)
  {
    if step.Request? {
      var v := step.call.url;
      assert u[..|v|] == u[..|parent|][..|v|];
    }
  }

  /**
   * Every folder the plan adds lies on the path of the requested one, under
   * the web root, and could not be loaded.
   */
  lemma {:induction false} FolderPlanAddsAncestors(site: Site, s: SiteState, p: string)
    requires StartsWith(site.webUrl, "/")
    ensures var plan := FolderPlan(site, s, Some(p));
      forall i :: 0 <= i < |plan| ==> AddsMissingAncestor(site, s, FolderUrl(site, p), plan[i])
    decreases |FolderUrl(site, p)|
  {
    var u := FolderUrl(site, p);
    if StartsWith(u, site.webUrl) && site.FolderQuery(s, u).Throw? {
      FolderPlanUnfolds(site, s, p);
      var parent := ParentPath(u);
      FolderPlanAddsAncestors(site, s, parent);
      var pp := FolderPlan(site, s, Some(parent));
      var plan := pp + [Request(AddFolder(u), FolderAdded(u))];
      assert StartsWith(u, parent);
      forall i | 0 <= i < |plan|
        ensures AddsMissingAncestor(site, s, u, plan[i])
      {
        if i < |pp| {
          assert plan[i] == pp[i];
          AncestorOfParent(site, s, u, parent, pp[i]);
        }
      }
    }
  }

  /** Parents are added before their children: the URLs of the added folders grow strictly longer. */
  lemma {:induction false} FolderPlanParentsFirst(site: Site, s: SiteState, p: string)
    requires StartsWith(site.webUrl, "/")
    ensures var plan := FolderPlan(site, s, Some(p));
      forall i, j :: 0 <= i < j < |plan| && plan[i].Request? && plan[j].Request? ==>
        plan[i].call.AddFolder? && plan[j].call.AddFolder? && |plan[i].call.url| < |plan[j].call.url|
    decreases |FolderUrl(site, p)|
  {
    var u := FolderUrl(site, p);
    if StartsWith(u, site.webUrl) && site.FolderQuery(s, u).Throw? {
      FolderPlanUnfolds(site, s, p);
      var parent := ParentPath(u);
      FolderPlanParentsFirst(site, s, parent);
      FolderPlanAddsAncestors(site, s, parent);
      assert var pp := FolderPlan(site, s, Some(parent));
        forall i, j :: 0 <= i < j < |pp| && pp[i].Request? && pp[j].Request? ==>
          pp[i].call.AddFolder? && pp[j].call.AddFolder? && |pp[i].call.url| < |pp[j].call.url|;
      var pp := FolderPlan(site, s, Some(parent));
      var plan := pp + [Request(AddFolder(u), FolderAdded(u))];
      forall i, j | 0 <= i < j < |plan| && plan[i].Request? && plan[j].Request?
        ensures plan[i].call.AddFolder? && plan[j].call.AddFolder? && |plan[i].call.url| < |plan[j].call.url|
      {
        assert plan[i] == pp[i];
        if j < |pp| {
          assert plan[j] == pp[j];
        }
      }
    }
  }

  /** A plan that ends by adding a folder, and succeeds, leaves that folder on the site. */
  lemma AddedFolderExists(site: Site, s: SiteState, pp: seq<Step>, u: string)
    requires Execute(site, s, pp + [Request(AddFolder(u), FolderAdded(u))]).outcome == Pass
    ensures u in Execute(site, s, pp + [Request(AddFolder(u), FolderAdded(u))]).state.folders
  {
    var add := [Request(AddFolder(u), FolderAdded(u))];
    ExecuteAppend(site, s, pp, add);
    ExecuteSingle(site, Execute(site, s, pp).state, add[0]);
  }

  /** When the plan succeeds, the requested folder exists. */
  lemma {:induction false} EnsuredFolderExists(site: Site, s: SiteState, p: string)
    requires StartsWith(site.webUrl, "/")
    requires Execute(site, s, FolderPlan(site, s, Some(p))).outcome == Pass
    ensures FolderUrl(site, p) in Execute(site, s, FolderPlan(site, s, Some(p))).state.folders
  {
    var u := FolderUrl(site, p);
    if StartsWith(u, site.webUrl) && site.FolderQuery(s, u).Throw? {
      FolderPlanUnfolds(site, s, p);
      AddedFolderExists(site, s, FolderPlan(site, s, Some(ParentPath(u))), u);
    } else if StartsWith(u, site.webUrl) {
      assert FolderPlan(site, s, Some(p)) == [];
    }
  }

  /** Ensuring a folder again after a successful run adds nothing. */
  lemma EnsureFolderIdempotent(site: Site, s: SiteState, p: string)
    requires StartsWith(site.webUrl, "/")
    requires Execute(site, s, FolderPlan(site, s, Some(p))).outcome == Pass
    requires LoadFolder(FolderUrl(site, p)) !in site.faults
    ensures var t := Execute(site, s, FolderPlan(site, s, Some(p))).state;
      FolderPlan(site, t, Some(p)) == []
  {
    var u := FolderUrl(site, p);
    if !StartsWith(u, site.webUrl) {
      assert false;
    }
    EnsuredFolderExists(site, s, p);
  }

  // ---------------------------------------------------------------------------
  // The imperative steps

  /** What EnsureFolder returns for a run: the folder's URL, or the exception. */
  function Ensured(site: Site, folderPrefixedUrl: Option<string>, x: Executed): Result<string>
  {
    if x.outcome.Pass? && folderPrefixedUrl.Some? then Ok(FolderUrl(site, folderPrefixedUrl.value))
    else if x.outcome.Throw? then Fail(x.outcome.error)
    else Fail(ArgumentNullException("folderPrefixedUrl"))
  }

  /** FileUploadService.EnsureFolder (the web is always the context web). */
  method EnsureFolderInternal(site: Site, folderPrefixedUrl: Option<string>) returns (r: Result<string>)
    requires StartsWith(site.webUrl, "/")
    modifies site
    ensures var x := Execute(site, old(site.state), FolderPlan(site, old(site.state), folderPrefixedUrl));
      r == Ensured(site, folderPrefixedUrl, x) && site.state == x.state && site.history == old(site.history) + x.effects
    decreases FolderDepth(site, folderPrefixedUrl), 1
  {
    if folderPrefixedUrl.None? {
      return Fail(ArgumentNullException("folderPrefixedUrl"));
    }
    var folderServerRelativeUrl := ResolveServerRelativeUrl(site.siteUrl, site.webUrl, folderPrefixedUrl.value);
    if !StartsWith(folderServerRelativeUrl, site.webUrl) {
      return Fail(GeneralException(AboveWebRootMessage(site.webUrl, folderServerRelativeUrl)));
    }
    var loaded := site.FolderQuery(site.state, folderServerRelativeUrl);
    if loaded.Pass? {
      return Ok(folderServerRelativeUrl);
    }
    FolderPlanUnfolds(site, site.state, folderPrefixedUrl.value);
    r := CreateFolder(site, folderServerRelativeUrl);
  }

  /**
   * The recursive part of FileUploadService.EnsureFolder for a folder that
   * could not be loaded: ensure its parent, then add the folder under it.
   */
  method CreateFolder(site: Site, folderServerRelativeUrl: string) returns (r: Result<string>)
    requires StartsWith(site.webUrl, "/") && StartsWith(folderServerRelativeUrl, "/")
    modifies site
    ensures var u := folderServerRelativeUrl;
      var x := Execute(site, old(site.state),
        FolderPlan(site, old(site.state), Some(ParentPath(u))) + [Request(AddFolder(u), FolderAdded(u))]);
      r == (if x.outcome.Pass? then Ok(u) else Fail(x.outcome.error)) &&
      site.state == x.state && site.history == old(site.history) + x.effects
    decreases |folderServerRelativeUrl|, 0
  {
    var lastSegment := LastSegment(folderServerRelativeUrl);
    var parentFolderPath := ParentPath(folderServerRelativeUrl);
    ParentPathResolves(site, folderServerRelativeUrl);
    ParentPathAddsLastSegment(folderServerRelativeUrl);
    ghost var s0 := site.state;
    ExecuteThenRequest(site, s0, FolderPlan(site, s0, Some(parentFolderPath)),
                       AddFolder(folderServerRelativeUrl), FolderAdded(folderServerRelativeUrl));
    var parentFolder := EnsureFolderInternal(site, Some(parentFolderPath));
    if parentFolder.Fail? {
      return parentFolder;
    }
    var folderUrl := parentFolder.value + "/" + lastSegment;
    assert folderUrl == folderServerRelativeUrl;
    var o := site.Perform(AddFolder(folderUrl), FolderAdded(folderUrl));
    if o.Throw? {
      return Fail(o.error);
    }
    r := Ok(folderUrl);
  }

  // ---------------------------------------------------------------------------
  // The Synchronizer's EnsureFolder: the recursion for a missing folder goes
  // through the public EnsureFolder, which opens and disposes a scope of its own

  /** The folder is under the web root and cannot be loaded, so EnsureFolder must create it. */
  predicate FolderMissing(site: Site, s: SiteState, folderPrefixedUrl: Option<string>)
  {
    folderPrefixedUrl.Some? &&
    var u := FolderUrl(site, folderPrefixedUrl.value);
    StartsWith(u, site.webUrl) && site.FolderQuery(s, u).Throw?
  }

  /**
   * What the Synchronizer's EnsureFolder gives with a manager that clears its
   * context when a scope is disposed: the argument check, the web-root guard
   * and an existing folder behave as the plan does, and a folder that must be
   * created ends in a null reference, because the nested scope has cleared
   * the context before the folder is added.
   */
  function ClearingEnsured(site: Site, s: SiteState, folderPrefixedUrl: Option<string>): Result<string>
  {
    match folderPrefixedUrl
    case None => Fail(ArgumentNullException("folderPrefixedUrl"))
    case Some(p) =>
      var u := FolderUrl(site, p);
      if !StartsWith(u, site.webUrl) then Fail(GeneralException(AboveWebRootMessage(site.webUrl, u)))
      else if site.FolderQuery(s, u).Pass? then Ok(u)
      else Fail(NullReferenceException)
  }

  /**
   * The two kinds of manager agree exactly when no folder has to be created;
   * when one has, the plan adds it and the clearing manager throws instead.
   */
  lemma ClearingAgreesUnlessCreating(site: Site, s: SiteState, folderPrefixedUrl: Option<string>)
    requires StartsWith(site.webUrl, "/")
    ensures var plan := FolderPlan(site, s, folderPrefixedUrl);
      (FolderMissing(site, s, folderPrefixedUrl) <==> exists i :: 0 <= i < |plan| && plan[i].Request?) &&
      (!FolderMissing(site, s, folderPrefixedUrl) ==>
         ClearingEnsured(site, s, folderPrefixedUrl) == Ensured(site, folderPrefixedUrl, Execute(site, s, plan))) &&
      (FolderMissing(site, s, folderPrefixedUrl) ==> ClearingEnsured(site, s, folderPrefixedUrl) == Fail(NullReferenceException))
  {
    var plan := FolderPlan(site, s, folderPrefixedUrl);
    if FolderMissing(site, s, folderPrefixedUrl) {
      var u := FolderUrl(site, folderPrefixedUrl.value);
      FolderPlanUnfolds(site, s, folderPrefixedUrl.value);
      assert plan[|plan| - 1].Request?;
    }
  }

  /**
   * The Synchronizer's public EnsureFolder: a using block around
   * EnsureFolderInContext. Disposing the block throws when a nested scope has
   * already cleared the context, and that exception replaces the block's
   * outcome.
   */
  method EnsureFolderInScope(cm: ContextManager, folderPrefixedUrl: Option<string>) returns (r: Result<string>)
    requires StartsWith(cm.site.webUrl, "/")
    modifies cm, cm.site
    ensures cm.connectFails ==>
      r == Fail(ConnectionException(ConnectFailureMessage)) && unchanged(cm.site) && cm.context == old(cm.context)
    ensures !cm.connectFails && cm.kind == ExistingContext ==>
      var x := Execute(cm.site, old(cm.site.state), FolderPlan(cm.site, old(cm.site.state), folderPrefixedUrl));
      r == Ensured(cm.site, folderPrefixedUrl, x) &&
      cm.site.state == x.state && cm.site.history == old(cm.site.history) + x.effects && cm.context == old(cm.context)
    ensures !cm.connectFails && cm.kind != ExistingContext ==>
      r == ClearingEnsured(cm.site, old(cm.site.state), folderPrefixedUrl) && unchanged(cm.site) && !cm.context
    decreases FolderDepth(cm.site, folderPrefixedUrl), 2
  {
    var connected := cm.OpenScope();
    if connected.Throw? {
      return Fail(connected.error);
    }
    r := EnsureFolderInContext(cm, folderPrefixedUrl);
    var closed := cm.CloseScope();
    if closed.Throw? {
      r := Fail(closed.error);
    }
  }

  /** The Synchronizer's EnsureFolderInternal on the context web, entered with a current context. */
  method EnsureFolderInContext(cm: ContextManager, folderPrefixedUrl: Option<string>) returns (r: Result<string>)
    requires StartsWith(cm.site.webUrl, "/") && !cm.connectFails && cm.HasCurrentContext()
    modifies cm, cm.site
    ensures cm.kind == ExistingContext ==>
      var x := Execute(cm.site, old(cm.site.state), FolderPlan(cm.site, old(cm.site.state), folderPrefixedUrl));
      r == Ensured(cm.site, folderPrefixedUrl, x) &&
      cm.site.state == x.state && cm.site.history == old(cm.site.history) + x.effects && cm.context == old(cm.context)
    ensures cm.kind != ExistingContext ==> unchanged(cm.site)
    ensures cm.kind != ExistingContext && !FolderMissing(cm.site, old(cm.site.state), folderPrefixedUrl) ==>
      r == ClearingEnsured(cm.site, old(cm.site.state), folderPrefixedUrl) && cm.context
    ensures cm.kind != ExistingContext && FolderMissing(cm.site, old(cm.site.state), folderPrefixedUrl) ==>
      r.Fail? && !cm.context
    decreases FolderDepth(cm.site, folderPrefixedUrl), 1
  {
    var site := cm.site;
    if folderPrefixedUrl.None? {
      return Fail(ArgumentNullException("folderPrefixedUrl"));
    }
    var folderServerRelativeUrl := ResolveServerRelativeUrl(site.siteUrl, site.webUrl, folderPrefixedUrl.value);
    if !StartsWith(folderServerRelativeUrl, site.webUrl) {
      return Fail(GeneralException(AboveWebRootMessage(site.webUrl, folderServerRelativeUrl)));
    }
    var loaded := site.FolderQuery(site.state, folderServerRelativeUrl);
    if loaded.Pass? {
      return Ok(folderServerRelativeUrl);
    }
    FolderPlanUnfolds(site, site.state, folderPrefixedUrl.value);
    r := CreateFolderInContext(cm, folderServerRelativeUrl);
  }

  /**
   * A folder that could not be loaded: the parent is ensured through the
   * public EnsureFolder, then the folder is added under it on the current
   * context, which a clearing manager no longer has.
   */
  method CreateFolderInContext(cm: ContextManager, folderServerRelativeUrl: string) returns (r: Result<string>)
    requires StartsWith(cm.site.webUrl, "/") && StartsWith(folderServerRelativeUrl, "/") && !cm.connectFails
    modifies cm, cm.site
    ensures cm.kind == ExistingContext ==>
      var u := folderServerRelativeUrl;
      var x := Execute(cm.site, old(cm.site.state),
        FolderPlan(cm.site, old(cm.site.state), Some(ParentPath(u))) + [Request(AddFolder(u), FolderAdded(u))]);
      r == (if x.outcome.Pass? then Ok(u) else Fail(x.outcome.error)) &&
      cm.site.state == x.state && cm.site.history == old(cm.site.history) + x.effects && cm.context == old(cm.context)
    ensures cm.kind != ExistingContext ==> r.Fail? && unchanged(cm.site) && !cm.context
    decreases |folderServerRelativeUrl|, 0
  {
    var site := cm.site;
    var lastSegment := LastSegment(folderServerRelativeUrl);
    var parentFolderPath := ParentPath(folderServerRelativeUrl);
    ParentPathResolves(site, folderServerRelativeUrl);
    ParentPathAddsLastSegment(folderServerRelativeUrl);
    ghost var s0 := site.state;
    ExecuteThenRequest(site, s0, FolderPlan(site, s0, Some(parentFolderPath)),
                       AddFolder(folderServerRelativeUrl), FolderAdded(folderServerRelativeUrl));
    var parentFolder := EnsureFolderInScope(cm, Some(parentFolderPath));
    if parentFolder.Fail? {
      return parentFolder;
    }
    if !cm.HasCurrentContext() {
      return Fail(NullReferenceException);
    }
    var folderUrl := parentFolder.value + "/" + lastSegment;
    assert folderUrl == folderServerRelativeUrl;
    var o := site.Perform(AddFolder(folderUrl), FolderAdded(folderUrl));
    if o.Throw? {
      return Fail(o.error);
    }
    r := Ok(folderUrl);
  }
}
