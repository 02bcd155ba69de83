/**
 * The remote SharePoint site that both engines act on, reduced to what they
 * read and write: the web property bag, files (content and checkout state),
 * folders, the document libraries with their versioning flags, and the site's
 * user custom actions. Every change the client asks for is an Effect; the
 * site records the effects it has accepted in its history, and Replay gives
 * the state a sequence of effects leads to. A fixed set of server calls fails with a generic server error; the two
 * errors the engines recognise ("File Not Found." and "does not belong to a
 * list.") follow from the state itself.
 */
module Remote {
  import opened Errors
  import opened Text
  import opened OrderedMaps

  datatype ListPolicy = ListPolicy(forceCheckout: bool, enableMinorVersions: bool, enableModeration: bool)

  datatype RemoteFile = RemoteFile(content: seq<byte>, checkedOut: bool)

  datatype CheckinType = MinorCheckIn | MajorCheckIn

  datatype UserCustomAction = UserCustomAction(location: string, name: string, scriptSrc: string, sequence: int)

  /** A client request that ends in ExecuteQuery. */
  datatype Call =
    | LoadProperties
    | UpdateProperties
    | LoadFile(url: string)
    | LoadList(url: string)
    | CheckOut(url: string)
    | AddFile(url: string)
    | CheckIn(url: string)
    | Publish(url: string)
    | Approve(url: string)
    | LoadFolder(url: string)
    | AddFolder(url: string)
    | LoadCustomActions
    | LoadCustomAction(name: string)
    | SaveCustomAction(name: string)

  /** A change the server has accepted. */
  datatype Effect =
    | PropertySet(key: string, value: string)
    | CheckedOut(url: string)
    | Uploaded(url: string, content: seq<byte>)
    | CheckedIn(url: string, kind: CheckinType)
    | Published(url: string)
    | Approved(url: string)
    | FolderAdded(url: string)
    | CustomActionAdded(action: UserCustomAction)
    | CustomActionUpdated(index: nat, action: UserCustomAction)
    | MigrationApplied(name: string)

  datatype SiteState = SiteState(
    properties: seq<Entry>,
    files: map<string, RemoteFile>,
    folders: set<string>,
    customActions: seq<UserCustomAction>)

  const FaultMessage: string := "The server reported an error."

  const ConnectFailureMessage: string := "Could not connect to SharePoint."

  /** The server-relative URL of the folder holding a file: everything before the last '/'. */
  function FolderOf(url: string): string
  {
    var i := LastIndexOf(url, '/');
    if i < 0 then "" else url[..i]
  }

  class Site {
    const siteUrl: string                     // Site.ServerRelativeUrl
    const webUrl: string                      // Web.ServerRelativeUrl of the context web
    const libraries: map<string, ListPolicy>  // folder URL -> its document library's flags
    const faults: set<Call>
    var state: SiteState
    var history: seq<Effect>

    constructor (siteUrl: string, webUrl: string, libraries: map<string, ListPolicy>,
                 faults: set<Call>, initial: SiteState)
      ensures this.siteUrl == siteUrl && this.webUrl == webUrl
      ensures this.libraries == libraries && this.faults == faults
      ensures state == initial && history == []
    {
      this.siteUrl := siteUrl;
      this.webUrl := webUrl;
      this.libraries := libraries;
      this.faults := faults;
      state := initial;
      history := [];
    }

    predicate ForcesCheckout(url: string)
    {
      FolderOf(url) in libraries && libraries[FolderOf(url)].forceCheckout
    }

    /** How the server state changes when it accepts an effect. */
    function Apply(s: SiteState, e: Effect): SiteState
    {
      match e
      case PropertySet(k, v) => s.(properties := Set(s.properties, Ordinal, k, v))
      case CheckedOut(u) =>
        if u in s.files then s.(files := s.files[u := s.files[u].(checkedOut := true)]) else s
      case Uploaded(u, c) =>
        var co := (u in s.files && s.files[u].checkedOut) || ForcesCheckout(u);
        s.(files := s.files[u := RemoteFile(c, co)])
      case CheckedIn(u, _) =>
        if u in s.files then s.(files := s.files[u := s.files[u].(checkedOut := false)]) else s
      case FolderAdded(u) => s.(folders := s.folders + {u})
      case CustomActionAdded(a) => s.(customActions := s.customActions + [a])
      case CustomActionUpdated(i, a) =>
        if i < |s.customActions| then s.(customActions := s.customActions[i := a]) else s
      case _ => s
    }

    function Replay(s: SiteState, es: seq<Effect>): SiteState
      decreases |es|
    {
      if |es| == 0 then s else Replay(Apply(s, es[0]), es[1..])
    }

    /** Replaying one effect applies it. */
    lemma ReplayOne(s: SiteState, e: Effect)
      ensures Replay(s, [e]) == Apply(s, e)
    {
      assert [e][1..] == [];
    }

    /** Replaying a concatenation replays its parts one after the other. */
    lemma {:induction false} ReplayAppend(s: SiteState, a: seq<Effect>, b: seq<Effect>)
      ensures Replay(s, a + b) == Replay(Replay(s, a), b)
      decreases |a|
    {
      if |a| == 0 {
        assert a + b == b;
      } else {
        assert (a + b)[0] == a[0];
        assert (a + b)[1..] == a[1..] + b;
        ReplayAppend(Apply(s, a[0]), a[1..], b);
      }
    }

    // -------------------------------------------------------------------------
    // Queries: Load + ExecuteQuery, no change on the server

    function FaultOf(call: Call): Exception
    {
      ServerException(OtherServerError(FaultMessage))
    }

    /** Web.AllProperties, in a given state. */
    function PropertiesIn(s: SiteState): Result<seq<Entry>>
    {
      if LoadProperties in faults then Fail(FaultOf(LoadProperties)) else Ok(s.properties)
    }

    /** Web.AllProperties, now. */
    function PropertiesQuery(): Result<seq<Entry>>
      reads this
    {
      PropertiesIn(state)
    }

    /** The file's CheckOutType != None; a missing file is "File Not Found.". */
    function FileQuery(s: SiteState, url: string): Result<bool>
    {
      if LoadFile(url) in faults then Fail(FaultOf(LoadFile(url)))
      else if url !in s.files then Fail(ServerException(FileNotFound))
      else Ok(s.files[url].checkedOut)
    }

    /** The parent list of a file; outside a library it "does not belong to a list". */
    function ListQuery(url: string): Result<ListPolicy>
    {
      if LoadList(url) in faults then Fail(FaultOf(LoadList(url)))
      else if FolderOf(url) !in libraries then Fail(ServerException(NotInList))
      else Ok(libraries[FolderOf(url)])
    }

    /** Web.GetFolderByServerRelativeUrl + Load: a missing folder is a server error. */
    function FolderQuery(s: SiteState, url: string): Outcome
    {
      if LoadFolder(url) in faults then Throw(FaultOf(LoadFolder(url)))
      else if url !in s.folders then Throw(ServerException(FileNotFound))
      else Pass
    }

    /** Site.UserCustomActions. */
    function CustomActionsQuery(s: SiteState): Result<seq<UserCustomAction>>
    {
      if LoadCustomActions in faults then Fail(FaultOf(LoadCustomActions)) else Ok(s.customActions)
    }

    // -------------------------------------------------------------------------
    // Changes: one ExecuteQuery that either fails or is accepted as one effect

    method Perform(call: Call, effect: Effect) returns (o: Outcome)
      modifies this
      ensures call in faults ==> o == Throw(FaultOf(call)) && state == old(state) && history == old(history)
      ensures call !in faults ==> o == Pass && history == old(history) + [effect]
      ensures call !in faults ==> state == Apply(old(state), effect)
    {
      if call in faults {
        return Throw(FaultOf(call));
      }
      history := history + [effect];
      state := Apply(state, effect);
      o := Pass;
    }

    /** The work of code outside the engines (a migration's body), recorded once that code has completed. */
    method Record(effect: Effect)
      modifies this
      ensures history == old(history) + [effect] && state == Apply(old(state), effect)
    {
      history := history + [effect];
      state := Apply(state, effect);
    }
  }

  /**
   * Which IContextManager is configured: BasicContextManager and
   * AppOnlyContextManager create a ClientContext when a scope opens and set
   * their context to null when the scope is disposed; ExistingContextManager
   * always hands out the context it was given, and its scopes do nothing.
   */
  datatype ContextKind = BasicContext | AppOnlyContext | ExistingContext

  /**
   * The connection manager, reduced to whether it has a current context and
   * the credentials it hands to script migrations. For the two managers that
   * create their own context, opening a scope fails when that context cannot
   * be created.
   */
  class ContextManager {
    const site: Site
    const kind: ContextKind
    const url: string                  // CurrentContext.Url, the absolute URL of the web
    const userName: Option<string>
    const password: Option<string>
    const securePassword: Option<string>
    const connectFails: bool           // creating the ClientContext of a scope fails
    var context: bool                  // the _context field of a Basic or AppOnly manager is not null

    /**
     * The Basic manager creates no context until a scope opens; the AppOnly
     * manager creates one at once; an existing context is never re-created,
     * so it cannot fail to be.
     */
    constructor (site: Site, kind: ContextKind, url: string, userName: Option<string>, password: Option<string>,
                 securePassword: Option<string>, connectFails: bool)
      ensures this.site == site && this.kind == kind && this.url == url
      ensures this.userName == userName && this.password == password && this.securePassword == securePassword
      ensures this.connectFails == (connectFails && kind != ExistingContext)
      ensures context == (kind == AppOnlyContext)
      ensures HasCurrentContext() <==> kind != BasicContext
    {
      this.site := site;
      this.kind := kind;
      this.url := url;
      this.userName := userName;
      this.password := password;
      this.securePassword := securePassword;
      this.connectFails := connectFails && kind != ExistingContext;
      context := kind == AppOnlyContext;
    }

    /** CurrentContext is not null. */
    predicate HasCurrentContext()
      reads this
    {
      kind == ExistingContext || context
    }

    /** Whether a context is current after a using block that did not nest another scope. */
    function AfterScope(before: bool): bool
    {
      if kind == ExistingContext || connectFails then before else false
    }

    /** ContextScope(log): entering a using block; the Basic and AppOnly managers install a new context. */
    method OpenScope() returns (o: Outcome)
      modifies this
      ensures connectFails ==> o == Throw(ConnectionException(ConnectFailureMessage))
      ensures !connectFails ==> o == Pass && HasCurrentContext()
      ensures context == (if kind == ExistingContext || connectFails then old(context) else true)
    {
      if connectFails {
        return Throw(ConnectionException(ConnectFailureMessage));
      }
      if kind == ExistingContext {
        return Pass;
      }
      context := true;
      o := Pass;
    }

    /**
     * Disposing the scope at the end of the using block: the Basic and
     * AppOnly disposers set the context to null and then log its URL, which
     * throws when the context was already null (a nested scope cleared it).
     */
    method CloseScope() returns (o: Outcome)
      modifies this
      ensures o == (if kind == ExistingContext || old(context) then Pass else Throw(NullReferenceException))
      ensures context == (if kind == ExistingContext then old(context) else false)
    {
      if kind == ExistingContext {
        return Pass;
      }
      if !context {
        return Throw(NullReferenceException);
      }
      context := false;
      o := Pass;
    }
  }
}
