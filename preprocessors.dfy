/**
 * The text-file preprocessors the synchronisation engine runs over a file
 * before hashing and uploading it: the URL token preprocessor ("~site/" and
 * "~sitecollection/" replaced by the server-relative URLs of the web and the
 * site collection), the variable substitution preprocessor ("$name$" replaced
 * by the value of a named variable), and the stream preprocessor that decodes
 * the file, folds the configured preprocessors over its text in list order and
 * encodes the result again.
 *
 * The two regular expressions of the source are replaced by direct scanners
 * that find the same leftmost, non-overlapping matches.
 */
module Preprocessors {
  import opened Errors
  import opened Text
  import opened SPUrlUtility
  import opened Remote

  // ---------------------------------------------------------------------------
  // "~site/" and "~sitecollection/" tokens

  const SiteToken: string := "~site/"
  const SiteCollectionToken: string := "~sitecollection/"

  /** The pattern ~site/|~sitecollection/ matches at position i (case-sensitively). */
  predicate UrlTokenAt(s: string, i: nat)
    requires i <= |s|
  {
    StartsWith(s[i..], SiteToken) || StartsWith(s[i..], SiteCollectionToken)
  }

  /**
   * Regex.Replace with the token pattern: every match, scanned left to right,
   * is replaced by webValue ("~site/") or siteValue ("~sitecollection/");
   * the replacement text is not scanned again.
   */
  function ReplaceUrlTokens(s: string, webValue: string, siteValue: string): string
    decreases |s|
  {
    if |s| == 0 then ""
    else if StartsWith(s, SiteToken) then webValue + ReplaceUrlTokens(s[|SiteToken|..], webValue, siteValue)
    else if StartsWith(s, SiteCollectionToken) then siteValue + ReplaceUrlTokens(s[|SiteCollectionToken|..], webValue, siteValue)
    else [s[0]] + ReplaceUrlTokens(s[1..], webValue, siteValue)
  }

  /** The URL with a '/' appended unless it already ends in one. */
  function EnsureTrailingSlash(url: string): (r: string)
    ensures EndsWith(r, "/")
    ensures EndsWith(url, "/") ==> r == url
    ensures !EndsWith(url, "/") ==> r == url + "/"
  {
    if EndsWith(url, "/") then url else url + "/"
  }

  /** A root web "/" is used as it is, with no doubled slash. */
  lemma RootWebValue()
    ensures EnsureTrailingSlash("/") == "/"
  {
  }

  /** Text with no token anywhere comes back unchanged. */
  lemma {:induction false} UrlTokensAbsent(s: string, webValue: string, siteValue: string)
    requires forall i :: 0 <= i < |s| ==> !UrlTokenAt(s, i)
    ensures ReplaceUrlTokens(s, webValue, siteValue) == s
    decreases |s|
  {
    if |s| > 0 {
      assert !UrlTokenAt(s, 0);
      assert s[0..] == s;
      forall i | 0 <= i < |s[1..]| ensures !UrlTokenAt(s[1..], i) {
        assert s[1..][i..] == s[i + 1..];
        assert !UrlTokenAt(s, i + 1);
      }
      UrlTokensAbsent(s[1..], webValue, siteValue);
      assert [s[0]] + s[1..] == s;
    }
  }

  /**
   * A prefix in which no token starts is copied through, and the scan resumes
   * after it.
   */
  lemma {:induction false} UrlTokensConcat(a: string, b: string, webValue: string, siteValue: string)
    requires forall i :: 0 <= i < |a| ==> !UrlTokenAt(a + b, i)
    ensures ReplaceUrlTokens(a + b, webValue, siteValue) == a + ReplaceUrlTokens(b, webValue, siteValue)
    decreases |a|
  {
    if |a| == 0 {
      assert a + b == b;
    } else {
      var s := a + b;
      assert !UrlTokenAt(s, 0);
      assert s[0..] == s;
      assert s[1..] == a[1..] + b;
      forall i | 0 <= i < |a[1..]| ensures !UrlTokenAt(a[1..] + b, i) {
        assert (a[1..] + b)[i..] == s[i + 1..];
        assert !UrlTokenAt(s, i + 1);
      }
      assert s[0] == a[0];
      var R := ReplaceUrlTokens(b, webValue, siteValue);
      assert ReplaceUrlTokens(s, webValue, siteValue) == [s[0]] + ReplaceUrlTokens(s[1..], webValue, siteValue);
      UrlTokensConcat(a[1..], b, webValue, siteValue);
      assert ReplaceUrlTokens(s[1..], webValue, siteValue) == a[1..] + R;
      assert [a[0]] + (a[1..] + R) == a + R;
    }
  }

  /** A "~site/" token becomes the web value, which is not scanned again. */
  lemma UrlTokenSiteReplaced(rest: string, webValue: string, siteValue: string)
    ensures ReplaceUrlTokens(SiteToken + rest, webValue, siteValue)
         == webValue + ReplaceUrlTokens(rest, webValue, siteValue)
  {
    var s := SiteToken + rest;
    assert s[..|SiteToken|] == SiteToken;
    assert s[|SiteToken|..] == rest;
  }

  /** A "~sitecollection/" token becomes the site value, which is not scanned again. */
  lemma UrlTokenSiteCollectionReplaced(rest: string, webValue: string, siteValue: string)
    ensures ReplaceUrlTokens(SiteCollectionToken + rest, webValue, siteValue)
         == siteValue + ReplaceUrlTokens(rest, webValue, siteValue)
  {
    var s := SiteCollectionToken + rest;
    assert s[..|SiteCollectionToken|] == SiteCollectionToken;
    assert s[|SiteCollectionToken|..] == rest;
    assert s[5] == 'c' != SiteToken[5];
  }

  /** The pattern has no ignore-case option: "~SITE/" is left as it is. */
  lemma UrlTokensCaseSensitive(webValue: string, siteValue: string)
    ensures ReplaceUrlTokens("~SITE/", webValue, siteValue) == "~SITE/"
  {
    var s := "~SITE/";
    forall i | 0 <= i < |s| ensures !UrlTokenAt(s, i) {
      if i == 0 {
        assert s[0..][1] == 'S';
      } else {
        assert s[i..][0] != '~';
      }
    }
    UrlTokensAbsent(s, webValue, siteValue);
  }

  /**
   * The values the URL token preprocessor substitutes: "~site/" and
   * "~sitecollection/" resolved against the site, each with a trailing '/'.
   */
  function WebTokenValue(siteUrl: string, webUrl: string): (r: string)
    ensures r == EnsureTrailingSlash(webUrl)
  {
    ResolveSiteRoot(siteUrl, webUrl, SitePrefix);
    EnsureTrailingSlash(ResolveServerRelativeUrl(siteUrl, webUrl, SitePrefix))
  }

  function SiteTokenValue(siteUrl: string, webUrl: string): (r: string)
    ensures r == EnsureTrailingSlash(siteUrl)
  {
    var p := SiteCollectionPrefix;
    PrefixesExclusive(p);
    assert p[..|p|] == p;
    assert p[|p|..] == [];
    EnsureTrailingSlash(ResolveServerRelativeUrl(siteUrl, webUrl, p))
  }

  // ---------------------------------------------------------------------------
  // "$name$" variables

  /** A dictionary of variables that is shared by reference and may grow after it is handed out. */
  class VariableDictionary {
    var entries: map<string, string>

    constructor (initial: map<string, string>)
      ensures entries == initial
    {
      entries := initial;
    }

    /** The indexer setter variables[name] = value. */
    method Set(name: string, value: string)
      modifies this
      ensures entries == old(entries)[name := value]
    {
      entries := entries[name := value];
    }
  }

  /** The end of the run of word characters that starts at i. */
  function WordEnd(s: string, i: nat): (j: nat)
    requires i <= |s|
    ensures i <= j <= |s|
    ensures forall k :: i <= k < j ==> IsWordChar(s[k])
    ensures j < |s| ==> !IsWordChar(s[j])
    decreases |s| - i
  {
    if i < |s| && IsWordChar(s[i]) then WordEnd(s, i + 1) else i
  }

  /**
   * The pattern \$(\w+)\$ matches at position 0: a '$', one or more word
   * characters and a '$'. The greedy run never needs to back off, since a
   * shorter run is followed by a word character, not '$'.
   */
  predicate VariableTokenAtStart(s: string)
  {
    |s| > 0 && s[0] == '$' &&
    var j := WordEnd(s, 1); j > 1 && j < |s| && s[j] == '$'
  }

  function MissingVariable(name: string): Exception
  {
    InvalidOperationException("Variable " + name + " has no value defined")
  }

  /**
   * Regex.Replace with the variable pattern and the ReplaceToken evaluator:
   * matches are replaced left to right; the first one whose name is not in
   * the dictionary throws.
   */
  function SubstituteVariables(s: string, variables: map<string, string>): Result<string>
    decreases |s|
  {
    if |s| == 0 then Ok("")
    else if VariableTokenAtStart(s) then
      var j := WordEnd(s, 1);
      var name := s[1..j];
      if name !in variables then Fail(MissingVariable(name))
      else match SubstituteVariables(s[j + 1..], variables) {
        case Fail(e) => Fail(e)
        case Ok(r) => Ok(variables[name] + r)
      }
    else match SubstituteVariables(s[1..], variables) {
      case Fail(e) => Fail(e)
      case Ok(r) => Ok([s[0]] + r)
    }
  }

  /** The names of the matches the scan finds, in order. */
  function VariableNames(s: string): seq<string>
    decreases |s|
  {
    if |s| == 0 then []
    else if VariableTokenAtStart(s) then
      var j := WordEnd(s, 1);
      [s[1..j]] + VariableNames(s[j + 1..])
    else VariableNames(s[1..])
  }

  /** The first name of the list that is missing from the dictionary. */
  function FirstMissing(names: seq<string>, variables: map<string, string>): (r: Option<string>)
    ensures r.None? <==> forall k :: 0 <= k < |names| ==> names[k] in variables
    ensures r.Some? ==> (r.value !in variables &&
      exists k :: 0 <= k < |names| && names[k] == r.value &&
        forall m :: 0 <= m < k ==> names[m] in variables)
  {
    if |names| == 0 then None
    else if names[0] !in variables then Some(names[0])
    else
      var r := FirstMissing(names[1..], variables);
      if r.Some? then
        ghost var k :| 0 <= k < |names[1..]| && names[1..][k] == r.value &&
                       forall m :: 0 <= m < k ==> names[1..][m] in variables;
        assert names[k + 1] == r.value;
        r
      else r
  }

  /**
   * Substitution succeeds iff every name the scan finds is defined, and
   * otherwise throws for the leftmost undefined one.
   */
  lemma {:induction false} SubstituteFailsOnFirstMissing(s: string, variables: map<string, string>)
    ensures var m := FirstMissing(VariableNames(s), variables);
      (m.None? <==> SubstituteVariables(s, variables).Ok?) &&
      (m.Some? ==> SubstituteVariables(s, variables) == Fail(MissingVariable(m.value)))
    decreases |s|
  {
    if |s| > 0 {
      if VariableTokenAtStart(s) {
        var j := WordEnd(s, 1);
        var names := VariableNames(s);
        assert names == [s[1..j]] + VariableNames(s[j + 1..]);
        assert names[1..] == VariableNames(s[j + 1..]);
        SubstituteFailsOnFirstMissing(s[j + 1..], variables);
      } else {
        SubstituteFailsOnFirstMissing(s[1..], variables);
      }
    }
  }

  /** Text in which the pattern never matches comes back unchanged, whatever the dictionary. */
  lemma {:induction false} SubstituteWithoutTokens(s: string, variables: map<string, string>)
    requires forall i :: 0 <= i < |s| ==> !VariableTokenAtStart(s[i..])
    ensures SubstituteVariables(s, variables) == Ok(s)
    decreases |s|
  {
    if |s| > 0 {
      assert s[0..] == s;
      forall i | 0 <= i < |s[1..]| ensures !VariableTokenAtStart(s[1..][i..]) {
        assert s[1..][i..] == s[i + 1..];
      }
      SubstituteWithoutTokens(s[1..], variables);
      assert [s[0]] + s[1..] == s;
    }
  }

  /** A defined variable is replaced by its value, and the value is not scanned again. */
  lemma SubstitutedValueNotRescanned(name: string, rest: string, variables: map<string, string>)
    requires |name| > 0 && forall k :: 0 <= k < |name| ==> IsWordChar(name[k])
    requires name in variables
    ensures var s := "$" + name + "$" + rest;
      SubstituteVariables(s, variables) ==
        match SubstituteVariables(rest, variables) {
          case Fail(e) => Fail(e)
          case Ok(r) => Ok(variables[name] + r)
        }
  {
    var s := "$" + name + "$" + rest;
    var j := WordEnd(s, 1);
    forall k | 1 <= k <= |name| ensures IsWordChar(s[k]) {
      assert s[k] == name[k - 1];
    }
    WordEndOfRun(s, 1, |name| + 1);
    assert s[1..j] == name;
    assert s[j + 1..] == rest;
  }

  lemma {:induction false} WordEndOfRun(s: string, i: nat, j: nat)
    requires i <= j < |s|
    requires forall k :: i <= k < j ==> IsWordChar(s[k])
    requires !IsWordChar(s[j])
    ensures WordEnd(s, i) == j
    decreases j - i
  {
    if i < j {
      WordEndOfRun(s, i + 1, j);
    }
  }

  /**
   * Matches do not overlap: in "$a$b$" only "$a$" is a token, so "b" need not
   * be defined and the last '$' stays.
   */
  lemma LeftmostNonOverlapping()
    ensures SubstituteVariables("$a$b$", map["a" := "X"]) == Ok("Xb$")
  {
    var vars := map["a" := "X"];
    var rest := "b$";
    forall i | 0 <= i < |rest| ensures !VariableTokenAtStart(rest[i..]) {
      if i == 1 {
        assert rest[1..] == "$";
        assert WordEnd(rest[1..], 1) == 1;
      }
    }
    SubstituteWithoutTokens(rest, vars);
    SubstitutedValueNotRescanned("a", rest, vars);
    assert "$" + "a" + "$" + rest == "$a$b$";
    assert vars["a"] + rest == "Xb$";
  }

  // ---------------------------------------------------------------------------
  // The preprocessors and their left fold

  /** An ITextFilePreprocessor. */
  datatype Preprocessor =
    | UrlTokens                                  // site and web of the current context, at each call
    | FixedUrlTokens(site: Site)                 // site and web fixed when it was constructed
    | VariableSubstitution(variables: VariableDictionary)
    | Custom(process: string -> Result<string>)  // any other implementation

  ghost function Footprint(ps: seq<Preprocessor>): set<object>
  {
    set i | 0 <= i < |ps| && ps[i].VariableSubstitution? :: ps[i].variables
  }

  /** ITextFilePreprocessor.Process, with the site of the current context. */
  function Process(p: Preprocessor, current: Site, text: string): (r: Result<string>)
    reads if p.VariableSubstitution? then {p.variables} else {}
    ensures p.UrlTokens? ==>
      r == Ok(ReplaceUrlTokens(text, EnsureTrailingSlash(current.webUrl), EnsureTrailingSlash(current.siteUrl)))
    ensures p.FixedUrlTokens? ==>
      r == Ok(ReplaceUrlTokens(text, EnsureTrailingSlash(p.site.webUrl), EnsureTrailingSlash(p.site.siteUrl)))
  {
    match p
    case UrlTokens =>
      Ok(ReplaceUrlTokens(text, WebTokenValue(current.siteUrl, current.webUrl),
                          SiteTokenValue(current.siteUrl, current.webUrl)))
    case FixedUrlTokens(site) =>
      Ok(ReplaceUrlTokens(text, WebTokenValue(site.siteUrl, site.webUrl),
                          SiteTokenValue(site.siteUrl, site.webUrl)))
    case VariableSubstitution(variables) => SubstituteVariables(text, variables.entries)
    case Custom(process) => process(text)
  }

  /** The preprocessors applied in list order, each output feeding the next; the first exception stops the fold. */
  function ApplyAll(ps: seq<Preprocessor>, current: Site, text: string): Result<string>
    reads Footprint(ps)
    decreases |ps|
  {
    if |ps| == 0 then Ok(text)
    else
      var last := ps[|ps| - 1];
      assert last.VariableSubstitution? ==> last.variables in Footprint(ps);
      match ApplyAll(ps[..|ps| - 1], current, text) {
        case Fail(e) => Fail(e)
        case Ok(t) => Process(last, current, t)
      }
  }

  /** Running two lists one after the other is running their concatenation. */
  lemma {:induction false} ApplyAllAppend(ps: seq<Preprocessor>, qs: seq<Preprocessor>, current: Site, text: string)
    ensures ApplyAll(ps + qs, current, text) ==
      match ApplyAll(ps, current, text) {
        case Fail(e) => Fail(e)
        case Ok(t) => ApplyAll(qs, current, t)
      }
    decreases |qs|
  {
    if |qs| == 0 {
      assert ps + qs == ps;
    } else {
      var all := ps + qs;
      assert all[..|all| - 1] == ps + qs[..|qs| - 1];
      assert all[|all| - 1] == qs[|qs| - 1];
      ApplyAllAppend(ps, qs[..|qs| - 1], current, text);
    }
  }

  // ---------------------------------------------------------------------------
  // The stream preprocessor

  /** Encoding.UTF8, as an abstract pair of functions. */
  datatype TextEncoding = TextEncoding(decode: seq<byte> -> string, encode: string -> seq<byte>)

  /**
   * A file's content passed through the preprocessors. The input stream is
   * used as it is when there are none; otherwise a new output stream is made,
   * and only that stream is released on disposal, at most once.
   */
  class StreamPreprocessor {
    const input: seq<byte>
    const output: Option<seq<byte>>
    var disposed: bool
    var outputReleases: nat

    ghost predicate Valid()
      reads this
    {
      outputReleases <= 1 &&
      (outputReleases == 1 ==> disposed && output.Some?)
    }

    constructor (input: seq<byte>, output: Option<seq<byte>>)
      ensures this.input == input && this.output == output
      ensures !disposed && outputReleases == 0 && Valid()
    {
      this.input := input;
      this.output := output;
      disposed := false;
      outputReleases := 0;
    }

    /** The Stream getter: the output stream if one was made, else the input stream. */
    function Stream(): (s: seq<byte>)
      ensures output.None? ==> s == input
      ensures output.Some? ==> s == output.value
    {
      if output.Some? then output.value else input
    }

    /** Dispose: releases the output stream the first time only. */
    method Dispose()
      requires Valid()
      modifies this
      ensures Valid() && disposed
      ensures outputReleases == old(outputReleases) + (if !old(disposed) && output.Some? then 1 else 0)
    {
      if !disposed {
        if output.Some? {
          outputReleases := outputReleases + 1;
        }
        disposed := true;
      }
    }
  }

  /**
   * The StreamPreprocessor constructor: with no preprocessors the input is
   * passed through unread; otherwise it is decoded, folded over the
   * preprocessors in order and encoded. An exception from a preprocessor
   * propagates.
   */
  method NewStreamPreprocessor(current: Site, input: seq<byte>, ps: seq<Preprocessor>, encoding: TextEncoding)
    returns (r: Result<StreamPreprocessor>)
    ensures |ps| == 0 ==> r.Ok? && r.value.output.None? && r.value.Stream() == input
    ensures |ps| > 0 ==>
      var folded := old(ApplyAll(ps, current, encoding.decode(input)));
      (folded.Fail? ==> r == Fail(folded.error)) &&
      (folded.Ok? ==> r.Ok? && r.value.output == Some(encoding.encode(folded.value)) &&
                      r.value.Stream() == encoding.encode(folded.value))
    ensures r.Ok? ==> fresh(r.value) && r.value.input == input && !r.value.disposed &&
                      r.value.outputReleases == 0 && r.value.Valid()
  {
    if |ps| == 0 {
      var sp := new StreamPreprocessor(input, None);
      return Ok(sp);
    }
    var text := encoding.decode(input);
    var content := text;
    var i := 0;
    while i < |ps|
      invariant 0 <= i <= |ps|
      invariant ApplyAll(ps[..i], current, text) == Ok(content)
    {
      assert ps[..i + 1][..i] == ps[..i];
      var next := Process(ps[i], current, content);
      if next.Fail? {
        FoldStopsAtFailure(ps, i, current, text);
        return Fail(next.error);
      }
      content := next.value;
      i := i + 1;
    }
    assert ps[..i] == ps;
    var sp := new StreamPreprocessor(input, Some(encoding.encode(content)));
    r := Ok(sp);
  }

  /** Once a preprocessor fails, the whole fold fails with its exception. */
  lemma FoldStopsAtFailure(ps: seq<Preprocessor>, i: nat, current: Site, text: string)
    requires i < |ps|
    requires ApplyAll(ps[..i], current, text).Ok?
    requires Process(ps[i], current, ApplyAll(ps[..i], current, text).value).Fail?
    ensures ApplyAll(ps, current, text) == Process(ps[i], current, ApplyAll(ps[..i], current, text).value)
  {
    assert ps[..i + 1][..i] == ps[..i];
    assert ps == ps[..i + 1] + ps[i + 1..];
    ApplyAllAppend(ps[..i + 1], ps[i + 1..], current, text);
  }
}
