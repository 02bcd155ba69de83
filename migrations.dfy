/**
 * A migration as the migration engine sees it: a name, an optional note and a
 * body that either is code compiled into an assembly or is a PowerShell script
 * on disk. Applying a script migration scans the script's tokens for the names
 * in its param(...) block, passes the connection values the script declares,
 * and turns the host's exit code and error flag into success or a
 * ScriptException.
 *
 * The PowerShell tokenizer, the runspace and the script itself are inputs: a
 * script file is its token list together with the host result it produces for
 * the arguments it is given. The server-side work of a migration body is one
 * MigrationApplied effect on the site, recorded when the body completes.
 */
module Migrations {
  import opened Errors
  import opened Text
  import opened Remote
  import opened Preprocessors

  // ---------------------------------------------------------------------------
  // Paths (System.IO.Path on Windows)

  predicate IsPathSeparator(c: char)
  {
    c == '\\' || c == '/' || c == ':'
  }

  /** The index of the last directory or volume separator, or -1. */
  function LastSeparator(path: string): (i: int)
    ensures -1 <= i < |path|
    ensures i >= 0 ==> IsPathSeparator(path[i])
    ensures forall j :: i < j < |path| ==> !IsPathSeparator(path[j])
  {
    if |path| == 0 then -1
    else if IsPathSeparator(path[|path| - 1]) then |path| - 1
    else LastSeparator(path[..|path| - 1])
  }

  /** Path.GetFileName: everything after the last separator. */
  function GetFileName(path: string): (name: string)
    ensures EndsWith(path, name)
    ensures forall j :: 0 <= j < |name| ==> !IsPathSeparator(name[j])
  {
    path[LastSeparator(path) + 1..]
  }

  /** Path.GetExtension: the file name from its last '.', or "" when there is no dot or the dot ends the name. */
  function GetExtension(path: string): string
  {
    var name := GetFileName(path);
    var dot := LastIndexOf(name, '.');
    if dot < 0 || dot == |name| - 1 then "" else name[dot..]
  }

  const ScriptExtension: string := ".ps1"

  /** String.Equals(ext, ".ps1", OrdinalIgnoreCase), letter by letter. */
  predicate IsScriptExtension(ext: string)
  {
    |ext| == 4 && ext[0] == '.' && LowerChar(ext[1]) == 'p' && LowerChar(ext[2]) == 's' && ext[3] == '1'
  }

  lemma ScriptExtensionIgnoresCase(ext: string)
    ensures IsScriptExtension(ext) <==> EqualsIgnoreCase(ext, ScriptExtension)
  {
    assert Lower(ScriptExtension) == ".ps1";
    if EqualsIgnoreCase(ext, ScriptExtension) {
      assert LowerChar(ext[0]) == '.' && LowerChar(ext[3]) == '1';
    }
  }

  /** The test both script providers apply to each listed file. */
  predicate IsScriptFile(path: string)
  {
    IsScriptExtension(GetExtension(path))
  }

  /** A file name whose last four characters are ".ps1" in any letter case has that as its extension. */
  lemma ScriptSuffixIsExtension(path: string)
    requires var name := GetFileName(path); |name| >= 4 && IsScriptExtension(name[|name| - 4..])
    ensures IsScriptFile(path)
  {
    var name := GetFileName(path);
    var ext := name[|name| - 4..];
    assert name[|name| - 4] == '.';
    forall j | |name| - 4 < j < |name|
      ensures name[j] != '.'
    {
      assert name[j] == ext[j - (|name| - 4)];
    }
    assert LastIndexOf(name, '.') == |name| - 4;
    assert GetExtension(path) == ext;
  }

  /** A listed file is a script migration exactly when its file name ends in ".ps1" in any letter case. */
  lemma ScriptFileByName(path: string)
    ensures IsScriptFile(path) <==>
      (var name := GetFileName(path);
       |name| >= 4 && IsScriptExtension(name[|name| - 4..]))
  {
    var name := GetFileName(path);
    if IsScriptFile(path) {
      var dot := LastIndexOf(name, '.');
      assert GetExtension(path) == name[dot..];
      assert dot == |name| - 4;
    } else if |name| >= 4 && IsScriptExtension(name[|name| - 4..]) {
      ScriptSuffixIsExtension(path);
    }
  }

  // ---------------------------------------------------------------------------
  // Migrations

  /** A token of PSParser.Tokenize, reduced to its type and its content. */
  datatype TokenType = Operator | NewLine | Comment | Command | Keyword | GroupStart | GroupEnd | Variable | OtherToken
  datatype Token = Token(kind: TokenType, content: string)

  /** What the PowerShell host reports once a script has run. */
  datatype HostResult = HostResult(exitCode: int, hadErrors: bool, state: string, reason: string)

  datatype Credential = Credential(userName: string, securePassword: string)

  /** A named argument added to the script command. */
  datatype ScriptArgument =
    | ContextArgument
    | UrlArgument(url: string)
    | UserNameArgument(userName: Option<string>)
    | PasswordArgument(password: Option<string>)
    | SecurePasswordArgument(securePassword: Option<string>)
    | CredentialsArgument(credential: Option<Credential>)

  /** A script on disk: its tokens, and how the host finishes it for given arguments. */
  datatype ScriptFile = ScriptFile(tokens: seq<Token>, run: seq<ScriptArgument> -> HostResult)

  /** The local file system: folder listings (full paths, in enumeration order) and readable scripts. */
  datatype FileSystem = FileSystem(listings: map<string, seq<string>>, scripts: map<string, ScriptFile>)

  datatype MigrationBody =
    | CodeBody(outcome: Outcome)                                          // a compiled IMigration; its Apply completes or throws
    | ScriptBody(path: string, variables: Option<VariableDictionary>)    // a PowerShell script migration
    | UnimplementedBody                                                   // the script migration of the older provider

  datatype Migration = Migration(name: string, note: Option<string>, body: MigrationBody)

  /** ScriptMigration(filePath): Name is the file name, Note the full path. */
  function ScriptMigration(path: string, variables: Option<VariableDictionary>): (m: Migration)
    ensures m.name == GetFileName(path) && EndsWith(path, m.name)
    ensures m.note == Some(path) && m.body.ScriptBody? && m.body.path == path
  {
    Migration(GetFileName(path), Some(path), ScriptBody(path, variables))
  }

  // ---------------------------------------------------------------------------
  // Parameter names of a script

  predicate IsOperator(t: Token, op: string)
  {
    t.kind == Operator && t.content == op
  }

  predicate IsParamKeyword(t: Token)
  {
    t.kind == Keyword && EqualsIgnoreCase(t.content, "param")
  }

  /**
   * Where a bracketed span ends: starting at i inside `level` open brackets,
   * the index of the ']' that closes the outermost one, or |tokens|.
   */
  function BracketEnd(tokens: seq<Token>, i: nat, level: int): (r: nat)
    requires i <= |tokens|
    ensures i <= r <= |tokens|
    ensures r < |tokens| ==> IsOperator(tokens[r], "]")
    decreases |tokens| - i
  {
    if i == |tokens| then i
    else if IsOperator(tokens[i], "[") then BracketEnd(tokens, i + 1, level + 1)
    else if IsOperator(tokens[i], "]") then
      if level - 1 <= 0 then i else BracketEnd(tokens, i + 1, level - 1)
    else BracketEnd(tokens, i + 1, level)
  }

  /**
   * The names the scan reports from index i on, in state (mode, param): mode 0
   * before the param keyword, 1 after it, 2 inside its parentheses, more in
   * nested groups; param is set while the next variable at depth 2 is a name.
   */
  function Scan(tokens: seq<Token>, i: nat, mode: int, param: bool): seq<string>
    requires i <= |tokens|
    decreases |tokens| - i
  {
    if i == |tokens| then []
    else
      var t := tokens[i];
      if IsOperator(t, "[") then
        var e := BracketEnd(tokens, i + 1, 1);
        if e == |tokens| then [] else Scan(tokens, e + 1, mode, param)
      else
        match t.kind
        case Keyword =>
          if mode == 0 && EqualsIgnoreCase(t.content, "param") then Scan(tokens, i + 1, 1, param)
          else Scan(tokens, i + 1, mode, param)
        case GroupStart =>
          if mode > 0 then Scan(tokens, i + 1, mode + 1, param) else []
        case GroupEnd =>
          if mode - 1 < 2 then [] else Scan(tokens, i + 1, mode - 1, param)
        case Variable =>
          if mode == 2 && param then [t.content] + Scan(tokens, i + 1, mode, false)
          else Scan(tokens, i + 1, mode, param)
        case Operator =>
          if mode == 2 && t.content == "," then Scan(tokens, i + 1, mode, true)
          else Scan(tokens, i + 1, mode, param)
        case _ => Scan(tokens, i + 1, mode, param)
  }

  /** The parameter names declared by a script, in declaration order. */
  function ParameterNames(tokens: seq<Token>): seq<string>
  {
    Scan(tokens, 0, 0, true)
  }

  /** GetScriptParameterNames: the token loop, with the nested loop that skips "[...]". */
  method GetScriptParameterNames(tokens: seq<Token>) returns (names: seq<string>)
    ensures names == ParameterNames(tokens)
  {
    var mode := 0;
    var param := true;
    names := [];
    var i := 0;
    while i < |tokens|
      invariant 0 <= i <= |tokens|
      invariant names + Scan(tokens, i, mode, param) == ParameterNames(tokens)
      decreases |tokens| - i
    {
      var t := tokens[i];
      if IsOperator(t, "[") {
        ghost var start := i;
        var level := 1;
        i := i + 1;
        while i < |tokens|
          invariant start < i <= |tokens|
          invariant level >= 1
          invariant BracketEnd(tokens, i, level) == BracketEnd(tokens, start + 1, 1)
          decreases |tokens| - i
        {
          t := tokens[i];
          if t.kind == Operator {
            if t.content == "[" {
              level := level + 1;
            } else if t.content == "]" {
              level := level - 1;
              if level <= 0 {
                break;
              }
            }
          }
          i := i + 1;
        }
        assert i == BracketEnd(tokens, start + 1, 1);
        if i == |tokens| {
          return;
        }
        i := i + 1;
      } else {
        match t.kind {
          case Keyword =>
            if mode == 0 && EqualsIgnoreCase(t.content, "param") {
              mode := 1;
            }
          case GroupStart =>
            if mode > 0 {
              mode := mode + 1;
            } else {
              return;
            }
          case GroupEnd =>
            mode := mode - 1;
            if mode < 2 {
              return;
            }
          case Variable =>
            if mode == 2 && param {
              param := false;
              names := names + [t.content];
            }
          case Operator =>
            if mode == 2 && t.content == "," {
              param := true;
            }
          case _ =>
        }
        i := i + 1;
      }
    }
  }

  /** Every reported name is the content of a variable token of the script. */
  lemma {:induction false} ScanReportsVariables(tokens: seq<Token>, i: nat, mode: int, param: bool)
    requires i <= |tokens|
    ensures forall n :: n in Scan(tokens, i, mode, param) ==>
              exists k :: i <= k < |tokens| && tokens[k].kind == Variable && tokens[k].content == n
    decreases |tokens| - i
  {
    if i < |tokens| {
      var t := tokens[i];
      if IsOperator(t, "[") {
        var e := BracketEnd(tokens, i + 1, 1);
        if e < |tokens| {
          ScanReportsVariables(tokens, e + 1, mode, param);
        }
      } else {
        match t.kind
        case Keyword =>
          if mode == 0 && EqualsIgnoreCase(t.content, "param") {
            ScanReportsVariables(tokens, i + 1, 1, param);
          } else {
            ScanReportsVariables(tokens, i + 1, mode, param);
          }
        case GroupStart =>
          if mode > 0 {
            ScanReportsVariables(tokens, i + 1, mode + 1, param);
          }
        case GroupEnd =>
          if mode - 1 >= 2 {
            ScanReportsVariables(tokens, i + 1, mode - 1, param);
          }
        case Variable =>
          if mode == 2 && param {
            ScanReportsVariables(tokens, i + 1, mode, false);
          } else {
            ScanReportsVariables(tokens, i + 1, mode, param);
          }
        case Operator =>
          if mode == 2 && t.content == "," {
            ScanReportsVariables(tokens, i + 1, mode, true);
          } else {
            ScanReportsVariables(tokens, i + 1, mode, param);
          }
        case _ =>
          ScanReportsVariables(tokens, i + 1, mode, param);
      }
    }
  }

  lemma ParameterNamesAreVariables(tokens: seq<Token>)
    ensures forall n :: n in ParameterNames(tokens) ==>
              exists k :: 0 <= k < |tokens| && tokens[k].kind == Variable && tokens[k].content == n
  {
    ScanReportsVariables(tokens, 0, 0, true);
  }

  /** In mode 0 nothing is reported until a param keyword is seen. */
  lemma {:induction false} ScanBeforeParam(tokens: seq<Token>, i: nat, param: bool)
    requires i <= |tokens|
    requires forall k :: i <= k < |tokens| ==> !IsParamKeyword(tokens[k])
    ensures Scan(tokens, i, 0, param) == []
    decreases |tokens| - i
  {
    if i < |tokens| {
      var t := tokens[i];
      if IsOperator(t, "[") {
        var e := BracketEnd(tokens, i + 1, 1);
        if e < |tokens| {
          ScanBeforeParam(tokens, e + 1, param);
        }
      } else if t.kind != GroupStart && t.kind != GroupEnd {
        ScanBeforeParam(tokens, i + 1, param);
      }
    }
  }

  /** A script with no param keyword declares no parameters. */
  lemma NamesNeedParamKeyword(tokens: seq<Token>)
    ensures ParameterNames(tokens) != [] ==> exists k :: 0 <= k < |tokens| && IsParamKeyword(tokens[k])
  {
    if forall k :: 0 <= k < |tokens| ==> !IsParamKeyword(tokens[k]) {
      ScanBeforeParam(tokens, 0, true);
    }
  }

  /** A group that opens before any param keyword or bracket ends the scan with no names. */
  lemma {:induction false} GroupBeforeParamEndsScan(tokens: seq<Token>, g: nat)
    requires g < |tokens| && tokens[g].kind == GroupStart
    requires forall k :: 0 <= k < g ==> !IsParamKeyword(tokens[k]) && !IsOperator(tokens[k], "[")
    ensures ParameterNames(tokens) == []
  {
    var i := g;
    while i > 0
      invariant 0 <= i <= g
      invariant Scan(tokens, i, 0, true) == []
      decreases i
    {
      i := i - 1;
      var t := tokens[i];
      assert !IsOperator(t, "[") && !IsParamKeyword(t);
      assert Scan(tokens, i, 0, true) == [] by {
        if t.kind != GroupStart && t.kind != GroupEnd {
          assert Scan(tokens, i, 0, true) == Scan(tokens, i + 1, 0, true);
        }
      }
    }
  }

  /** The tokens of param([Parameter(Mandatory=$true)] $Url = $Default, $Count) $Later. */
  const TypedParamTokens: seq<Token> := [
    Token(Keyword, "param"), Token(GroupStart, "("),
    Token(Operator, "["), Token(OtherToken, "Parameter"), Token(GroupStart, "("),
    Token(OtherToken, "Mandatory"), Token(Operator, "="), Token(Variable, "true"),
    Token(GroupEnd, ")"), Token(Operator, "]"),
    Token(Variable, "Url"), Token(Operator, "="), Token(Variable, "Default"),
    Token(Operator, ","), Token(Variable, "Count"), Token(GroupEnd, ")"),
    Token(Variable, "Later")]

  /** After the attribute, $Url and $Count are declared; $Default and $Later are not. */
  lemma TypedParamAfterAttribute()
    ensures Scan(TypedParamTokens, 10, 2, true) == ["Url", "Count"]
  {
    var ts := TypedParamTokens;
    assert Scan(ts, 15, 2, false) == [];
    assert Scan(ts, 14, 2, true) == ["Count"];
    assert Scan(ts, 13, 2, false) == ["Count"];
    assert Scan(ts, 11, 2, false) == ["Count"];
  }

  /** The bracket opened at token 2 closes at token 9, past the nested parentheses. */
  lemma TypedParamBracketEnd()
    ensures BracketEnd(TypedParamTokens, 3, 1) == 9
  {
    var ts := TypedParamTokens;
    assert BracketEnd(ts, 9, 1) == 9;
    assert BracketEnd(ts, 8, 1) == 9;
    assert BracketEnd(ts, 7, 1) == 9;
    assert BracketEnd(ts, 6, 1) == 9;
    assert BracketEnd(ts, 5, 1) == 9;
    assert BracketEnd(ts, 4, 1) == 9;
  }

  /** The attribute [Parameter(Mandatory=$true)] is skipped as one bracket span, its variable unreported. */
  lemma TypedParamAttributeSkipped()
    ensures Scan(TypedParamTokens, 2, 2, true) == ["Url", "Count"]
  {
    TypedParamAfterAttribute();
    TypedParamBracketEnd();
  }

  /**
   * param([Parameter(Mandatory=$true)] $Url = $Default, $Count) $Later declares
   * Url and Count: the attribute's variable is inside a skipped bracket span,
   * the default value is not the first variable after the comma or the opening
   * parenthesis, and $Later follows the closing parenthesis.
   */
  lemma TypedParamBlock()
    ensures ParameterNames(TypedParamTokens) == ["Url", "Count"]
  {
    var ts := TypedParamTokens;
    TypedParamAttributeSkipped();
    assert EqualsIgnoreCase("param", "param");
    assert Scan(ts, 0, 0, true) == ["Url", "Count"];
  }

  // ---------------------------------------------------------------------------
  // Parameter binding

  /** A case-insensitive match against the declared parameter names. */
  predicate Declares(names: seq<string>, parameter: string)
  {
    exists k :: 0 <= k < |names| && EqualsIgnoreCase(names[k], parameter)
  }

  const BindableParameters: seq<string> := ["Context", "Url", "UserName", "Password", "SecurePassword", "Credentials"]

  /** The PSCredential built for the script: only with a non-blank user name and a secure password. */
  function CredentialOf(cm: ContextManager): Option<Credential>
  {
    if !IsNullOrWhiteSpace(cm.userName) && cm.securePassword.Some? then
      Some(Credential(cm.userName.value, cm.securePassword.value))
    else None
  }

  /** The argument a declared parameter receives. */
  function ArgumentFor(parameter: string, cm: ContextManager): ScriptArgument
  {
    match parameter
    case "Context" => ContextArgument
    case "Url" => UrlArgument(cm.url)
    case "UserName" => UserNameArgument(cm.userName)
    case "Password" => PasswordArgument(cm.password)
    case "SecurePassword" => SecurePasswordArgument(cm.securePassword)
    case _ => CredentialsArgument(CredentialOf(cm))
  }

  /** One AddParameter test per candidate parameter, in the order given. */
  function Bind(names: seq<string>, candidates: seq<string>, cm: ContextManager): seq<ScriptArgument>
  {
    if |candidates| == 0 then []
    else
      (if Declares(names, candidates[0]) then [ArgumentFor(candidates[0], cm)] else [])
      + Bind(names, candidates[1..], cm)
  }

  /** The named arguments added to the command, in the order the source adds them. */
  function ScriptArguments(names: seq<string>, cm: ContextManager): seq<ScriptArgument>
  {
    Bind(names, BindableParameters, cm)
  }

  lemma {:induction false} BindMembers(names: seq<string>, candidates: seq<string>, cm: ContextManager)
    ensures forall a :: a in Bind(names, candidates, cm) <==>
      exists p :: p in candidates && Declares(names, p) && a == ArgumentFor(p, cm)
  {
    if |candidates| > 0 {
      BindMembers(names, candidates[1..], cm);
      var head := if Declares(names, candidates[0]) then [ArgumentFor(candidates[0], cm)] else [];
      forall a | a in Bind(names, candidates, cm)
        ensures exists p :: p in candidates && Declares(names, p) && a == ArgumentFor(p, cm)
      {
        if a in head {
          assert candidates[0] in candidates;
        } else {
          var p :| p in candidates[1..] && Declares(names, p) && a == ArgumentFor(p, cm);
          assert p in candidates;
        }
      }
      forall p | p in candidates && Declares(names, p)
        ensures ArgumentFor(p, cm) in Bind(names, candidates, cm)
      {
        if p != candidates[0] {
          assert p in candidates[1..];
        }
      }
    }
  }

  /**
   * A connection value is passed exactly when the script declares a parameter
   * of that name, and it carries the context manager's value for it; the
   * credential exists only for a non-blank user name with a secure password.
   */
  lemma ArgumentsFollowDeclarations(names: seq<string>, cm: ContextManager)
    ensures forall a :: a in ScriptArguments(names, cm) <==>
      exists p :: p in BindableParameters && Declares(names, p) && a == ArgumentFor(p, cm)
    ensures forall a :: a in ScriptArguments(names, cm) && a.CredentialsArgument? ==>
      (a.credential.Some? <==> !IsNullOrWhiteSpace(cm.userName) && cm.securePassword.Some?)
  {
    BindMembers(names, BindableParameters, cm);
  }

  // ---------------------------------------------------------------------------
  // Outcome and Apply

  /** The host's exit code is checked first, then its error flag. */
  function ScriptOutcome(h: HostResult): (o: Outcome)
    ensures o == Pass <==> h.exitCode == 0 && !h.hadErrors
    ensures h.exitCode != 0 ==> o == Throw(ScriptException(NonZeroExitCode(h.exitCode)))
    ensures h.exitCode == 0 && h.hadErrors ==> o == Throw(ScriptException(HadErrors(h.state, h.reason)))
  {
    if h.exitCode != 0 then Throw(ScriptException(NonZeroExitCode(h.exitCode)))
    else if h.hadErrors then Throw(ScriptException(HadErrors(h.state, h.reason)))
    else Pass
  }

  /** How a migration's body completes, before anything is recorded on the site. */
  function BodyOutcome(m: Migration, cm: ContextManager, fs: FileSystem): Outcome
  {
    match m.body
    case CodeBody(o) => o
    case UnimplementedBody => Throw(NotImplementedException)
    case ScriptBody(path, _) =>
      if path !in fs.scripts then Throw(IOException(path))
      else
        var f := fs.scripts[path];
        ScriptOutcome(f.run(ScriptArguments(ParameterNames(f.tokens), cm)))
  }

  /** IMigration.Apply: run the body; when it completes, its work reaches the site. */
  method Apply(m: Migration, cm: ContextManager, fs: FileSystem) returns (o: Outcome)
    modifies cm.site
    ensures o == BodyOutcome(m, cm, fs)
    ensures o.Throw? ==> cm.site.history == old(cm.site.history) && cm.site.state == old(cm.site.state)
    ensures o == Pass ==>
      cm.site.history == old(cm.site.history) + [MigrationApplied(m.name)] &&
      cm.site.state == cm.site.Apply(old(cm.site.state), MigrationApplied(m.name))
  {
    match m.body {
      case CodeBody(outcome) =>
        if outcome.Throw? {
          return outcome;
        }
      case UnimplementedBody =>
        return Throw(NotImplementedException);
      case ScriptBody(path, _) =>
        if path !in fs.scripts {
          return Throw(IOException(path));
        }
        var file := fs.scripts[path];
        var parameters := GetScriptParameterNames(file.tokens);
        var host := file.run(ScriptArguments(parameters, cm));
        if host.exitCode != 0 {
          return Throw(ScriptException(NonZeroExitCode(host.exitCode)));
        }
        if host.hadErrors {
          return Throw(ScriptException(HadErrors(host.state, host.reason)));
        }
    }
    cm.site.Record(MigrationApplied(m.name));
    o := Pass;
  }
}
