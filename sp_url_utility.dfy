/**
 * SPUrlUtility: joining server-relative URL pieces and resolving the
 * "~site/" and "~sitecollection/" prefixes against the web and site URLs.
 * A null string argument is None.
 */
module SPUrlUtility {
  import opened Errors
  import opened Text

  const UrlSeparatorChar: char := '/'
  const AltUrlSeparatorChar: char := '\\'
  const SitePrefix: string := "~site/"
  const SiteCollectionPrefix: string := "~sitecollection/"

  predicate EndsWithSeparator(path: string)
  {
    |path| > 0 && (path[|path| - 1] == UrlSeparatorChar || path[|path| - 1] == AltUrlSeparatorChar)
  }

  /** Whether the pairwise Combine puts a '/' between its two arguments. */
  predicate AddsSeparator(path1: string, path2: string)
  {
    |path1| > 0 && |path2| > 0 && !EndsWithSeparator(path1)
  }

  /** The pairwise Combine once neither argument is null. */
  function CombinePaths(path1: string, path2: string): (r: string)
    ensures StartsWith(r, path1) && EndsWith(r, path2)
    ensures |r| == |path1| + |path2| + (if AddsSeparator(path1, path2) then 1 else 0)
    ensures AddsSeparator(path1, path2) ==> r[|path1|] == UrlSeparatorChar
  {
    if |path2| == 0 then path1
    else if |path1| == 0 then path2
    else if !EndsWithSeparator(path1) then path1 + [UrlSeparatorChar] + path2
    else path1 + path2
  }

  /** SPUrlUtility.Combine(path1, path2): a null argument throws. */
  function Combine(path1: Option<string>, path2: Option<string>): (r: Result<string>)
    ensures r.Ok? <==> path1.Some? && path2.Some?
    ensures path1.None? ==> r == Fail(ArgumentNullException("path1"))
    ensures path1.Some? && path2.None? ==> r == Fail(ArgumentNullException("path2"))
    ensures r.Ok? ==> StartsWith(r.value, path1.value) && EndsWith(r.value, path2.value)
  {
    if path1.None? then Fail(ArgumentNullException("path1"))
    else if path2.None? then Fail(ArgumentNullException("path2"))
    else Ok(CombinePaths(path1.value, path2.value))
  }

  /** The left fold of the pairwise Combine that the variadic overload performs. */
  function FoldCombine(acc: Option<string>, rest: seq<Option<string>>): Result<Option<string>>
    decreases |rest|
  {
    if |rest| == 0 then Ok(acc)
    else match Combine(acc, rest[0]) {
      case Fail(e) => Fail(e)
      case Ok(c) => FoldCombine(Some(c), rest[1..])
    }
  }

  /** SPUrlUtility.Combine(params string[] paths). */
  method CombineAll(paths: Option<seq<Option<string>>>) returns (r: Result<Option<string>>)
    ensures paths.None? ==> r == Fail(ArgumentNullException("paths"))
    ensures paths.Some? && |paths.value| == 0 ==> r == Ok(Some(""))
    ensures paths.Some? && |paths.value| > 0 ==> r == FoldCombine(paths.value[0], paths.value[1..])
  {
    if paths.None? {
      return Fail(ArgumentNullException("paths"));
    }
    var ps := paths.value;
    if |ps| == 0 {
      return Ok(Some(""));
    }
    var pathBuilder := ps[0];
    var i := 1;
    while i < |ps|
      invariant 1 <= i <= |ps|
      invariant FoldCombine(pathBuilder, ps[i..]) == FoldCombine(ps[0], ps[1..])
    {
      var c := Combine(pathBuilder, ps[i]);
      assert ps[i..][1..] == ps[i + 1..];
      if c.Fail? {
        return Fail(c.error);
      }
      pathBuilder := Some(c.value);
      i := i + 1;
    }
    assert ps[i..] == [];
    r := Ok(pathBuilder);
  }

  /** With no null element, the variadic Combine succeeds and starts with its first path. */
  lemma {:induction false} FoldCombineNonNull(first: string, rest: seq<Option<string>>)
    requires forall k :: 0 <= k < |rest| ==> rest[k].Some?
    ensures FoldCombine(Some(first), rest).Ok?
    ensures FoldCombine(Some(first), rest).value.Some?
    ensures StartsWith(FoldCombine(Some(first), rest).value.value, first)
    decreases |rest|
  {
    if |rest| > 0 {
      var c := CombinePaths(first, rest[0].value);
      FoldCombineNonNull(c, rest[1..]);
      var r := FoldCombine(Some(c), rest[1..]).value.value;
      assert r[..|first|] == r[..|c|][..|first|];
    }
  }

  /**
   * ResolveServerRelativeUrl(site, web, path): "~site/" (any case) is replaced
   * by the web URL and "~sitecollection/" (any case) by the site URL.
   */
  function ResolveServerRelativeUrl(siteUrl: string, webUrl: string, prefixedPath: string): string
  {
    if StartsWithIgnoreCase(prefixedPath, SitePrefix) then
      CombinePaths(webUrl, prefixedPath[|SitePrefix|..])
    else if StartsWithIgnoreCase(prefixedPath, SiteCollectionPrefix) then
      CombinePaths(siteUrl, prefixedPath[|SiteCollectionPrefix|..])
    else
      prefixedPath
  }

  /** The two prefixes never both match, so the order of the tests does not matter. */
  lemma PrefixesExclusive(p: string)
    requires StartsWithIgnoreCase(p, SiteCollectionPrefix)
    ensures !StartsWithIgnoreCase(p, SitePrefix)
  {
    assert Lower(p[..|SitePrefix|])[5] == LowerChar(p[5]) == LowerChar(SiteCollectionPrefix[5]) == 'c';
    assert Lower(SitePrefix)[5] == '/';
  }

  /** A "~site/"-prefixed path resolves under the web URL, keeping the rest of the path. */
  lemma ResolveSitePath(siteUrl: string, webUrl: string, p: string)
    requires StartsWithIgnoreCase(p, SitePrefix)
    ensures var r := ResolveServerRelativeUrl(siteUrl, webUrl, p);
      StartsWith(r, webUrl) && EndsWith(r, p[|SitePrefix|..])
  {
  }

  /** A "~sitecollection/"-prefixed path resolves under the site URL. */
  lemma ResolveSiteCollectionPath(siteUrl: string, webUrl: string, p: string)
    requires StartsWithIgnoreCase(p, SiteCollectionPrefix)
    ensures var r := ResolveServerRelativeUrl(siteUrl, webUrl, p);
      StartsWith(r, siteUrl) && EndsWith(r, p[|SiteCollectionPrefix|..])
  {
    PrefixesExclusive(p);
  }

  /** "~site/" alone, in any letter case, resolves to exactly the web URL. */
  lemma ResolveSiteRoot(siteUrl: string, webUrl: string, p: string)
    requires |p| == |SitePrefix| && EqualsIgnoreCase(p, SitePrefix)
    ensures ResolveServerRelativeUrl(siteUrl, webUrl, p) == webUrl
  {
    assert p[..|SitePrefix|] == p;
    assert p[|SitePrefix|..] == [];
  }

  /** A path with neither prefix is returned as it is. */
  lemma ResolveUnprefixed(siteUrl: string, webUrl: string, p: string)
    requires |p| > 0 && p[0] != '~'
    ensures ResolveServerRelativeUrl(siteUrl, webUrl, p) == p
  {
    if |p| >= |SitePrefix| {
      assert Lower(p[..|SitePrefix|])[0] != Lower(SitePrefix)[0];
    }
    if |p| >= |SiteCollectionPrefix| {
      assert Lower(p[..|SiteCollectionPrefix|])[0] != Lower(SiteCollectionPrefix)[0];
    }
  }

  /**
   * When the site and web URLs are server-relative (they start with '/'),
   * resolving twice is the same as resolving once.
   */
  lemma ResolveIdempotent(siteUrl: string, webUrl: string, p: string)
    requires StartsWith(siteUrl, "/") && StartsWith(webUrl, "/")
    ensures var r := ResolveServerRelativeUrl(siteUrl, webUrl, p);
      ResolveServerRelativeUrl(siteUrl, webUrl, r) == r
  {
    var r := ResolveServerRelativeUrl(siteUrl, webUrl, p);
    if StartsWithIgnoreCase(p, SitePrefix) {
      assert r[0] == webUrl[0] == '/';
      ResolveUnprefixed(siteUrl, webUrl, r);
    } else if StartsWithIgnoreCase(p, SiteCollectionPrefix) {
      assert r[0] == siteUrl[0] == '/';
      ResolveUnprefixed(siteUrl, webUrl, r);
    }
  }
}
