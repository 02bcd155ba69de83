/**
 * The hash providers the synchronisation engines consult before uploading a
 * file: the web-property-bag provider, which keeps a case-insensitive map from
 * web-relative file URL to the "AB-CD-.." text of the last uploaded hash,
 * serialised as JSON under one property of the web; and the null provider,
 * which remembers nothing.
 */
module HashProviders {
  import opened Errors
  import opened Text
  import opened OrderedMaps
  import opened SPUrlUtility
  import Json
  import opened Remote

  // ---------------------------------------------------------------------------
  // BitConverter.ToString and its inverse by byte.Parse(part, HexNumber)

  function HexDigitChar(d: nat): char
    requires d < 16
  {
    if d < 10 then ('0' as int + d) as char else ('A' as int + d - 10) as char
  }

  /** The value of a hexadecimal digit of either case, or -1. */
  function HexDigitValue(c: char): int
  {
    if '0' <= c <= '9' then c as int - '0' as int
    else if 'A' <= c <= 'F' then c as int - 'A' as int + 10
    else if 'a' <= c <= 'f' then c as int - 'a' as int + 10
    else -1
  }

  predicate AllHexDigits(s: string)
  {
    forall i :: 0 <= i < |s| ==> HexDigitValue(s[i]) >= 0
  }

  function HexValue(s: string): nat
    requires AllHexDigits(s)
  {
    if |s| == 0 then 0 else HexValue(s[..|s| - 1]) * 16 + HexDigitValue(s[|s| - 1])
  }

  function HexByte(b: byte): string
  {
    [HexDigitChar(b / 16), HexDigitChar(b % 16)]
  }

  function HexParts(h: seq<byte>): (parts: seq<string>)
    ensures |parts| == |h|
    ensures forall i :: 0 <= i < |h| ==> parts[i] == HexByte(h[i])
  {
    seq(|h|, i requires 0 <= i < |h| => HexByte(h[i]))
  }

  /** BitConverter.ToString(hash): two upper-case digits per byte, joined by '-'. */
  function ToHexString(h: seq<byte>): string
  {
    Join(HexParts(h), '-')
  }

  /** byte.Parse(part, NumberStyles.HexNumber). */
  function ParseHexByte(part: string): (r: Result<byte>)
    ensures r.Ok? ==> |part| > 0 && AllHexDigits(part) && r.value == HexValue(part)
    ensures r.Fail? ==> r.error == FormatException || r.error == OverflowException
  {
    if |part| == 0 || !AllHexDigits(part) then Fail(FormatException)
    else if HexValue(part) < 256 then Ok(HexValue(part))
    else Fail(OverflowException)
  }

  /** Every part parsed in order; the first part that does not parse throws. */
  function ParseHexParts(parts: seq<string>): Result<seq<byte>>
  {
    if |parts| == 0 then Ok([])
    else match ParseHexByte(parts[0]) {
      case Fail(e) => Fail(e)
      case Ok(b) =>
        match ParseHexParts(parts[1..]) {
          case Fail(e) => Fail(e)
          case Ok(bs) => Ok([b] + bs)
        }
    }
  }

  /** The stored text read back: split on '-' and parse every part. */
  function ParseHexString(s: string): Result<seq<byte>>
  {
    ParseHexParts(Split(s, '-'))
  }

  /** The List<byte> loop of GetFileHash. */
  method DecodeHash(hashString: string) returns (r: Result<seq<byte>>)
    ensures r == ParseHexString(hashString)
  {
    var parts := Split(hashString, '-');
    var hash: seq<byte> := [];
    var i := 0;
    while i < |parts|
      invariant 0 <= i <= |parts|
      invariant ParseHexParts(parts[..i]) == Ok(hash)
      invariant forall j :: 0 <= j < i ==> ParseHexByte(parts[j]).Ok?
    {
      var b := ParseHexByte(parts[i]);
      if b.Fail? {
        FirstFailure(parts, i);
        return Fail(b.error);
      }
      PartsPrefix(parts, i);
      hash := hash + [b.value];
      i := i + 1;
    }
    assert parts[..i] == parts;
    r := Ok(hash);
  }

  lemma {:induction false} PartsPrefix(parts: seq<string>, i: nat)
    requires i < |parts|
    requires forall j :: 0 <= j < i ==> ParseHexByte(parts[j]).Ok?
    requires ParseHexParts(parts[..i]).Ok?
    requires ParseHexByte(parts[i]).Ok?
    ensures ParseHexParts(parts[..i + 1]) == Ok(ParseHexParts(parts[..i]).value + [ParseHexByte(parts[i]).value])
  {
    if i == 0 {
      assert parts[..1] == [parts[0]];
      assert parts[..1][1..] == [] && parts[..0] == [];
      assert ParseHexParts(parts[..1][1..]) == Ok([]);
      assert ParseHexParts(parts[..1]) == Ok([ParseHexByte(parts[0]).value] + []);
      assert ParseHexParts(parts[..0]) == Ok([]);
      assert [ParseHexByte(parts[0]).value] + [] == [] + [ParseHexByte(parts[0]).value];
    } else {
      assert parts[..i + 1][0] == parts[0] && parts[..i][0] == parts[0];
      assert parts[..i + 1][1..] == parts[1..][..i];
      assert parts[..i][1..] == parts[1..][..i - 1];
      var b0 := ParseHexByte(parts[0]).value;
      assert ParseHexParts(parts[1..][..i - 1]).Ok?;
      var tail := ParseHexParts(parts[1..][..i - 1]).value;
      assert ParseHexParts(parts[..i]) == Ok([b0] + tail);
      assert parts[1..][i - 1] == parts[i];
      PartsPrefix(parts[1..], i - 1);
      var last := ParseHexByte(parts[i]).value;
      assert ParseHexParts(parts[..i + 1]) == Ok([b0] + (tail + [last]));
      assert [b0] + (tail + [last]) == ([b0] + tail) + [last];
    }
  }

  lemma {:induction false} FirstFailure(parts: seq<string>, i: nat)
    requires i < |parts|
    requires forall j :: 0 <= j < i ==> ParseHexByte(parts[j]).Ok?
    requires ParseHexByte(parts[i]).Fail?
    ensures ParseHexParts(parts) == Fail(ParseHexByte(parts[i]).error)
  {
    if i > 0 {
      FirstFailure(parts[1..], i - 1);
    }
  }

  lemma HexDigitRoundTrip(d: nat)
    requires d < 16
    ensures HexDigitValue(HexDigitChar(d)) == d
  {
  }

  lemma HexByteValue(b: byte)
    ensures AllHexDigits(HexByte(b)) && HexValue(HexByte(b)) == b
  {
    var s := HexByte(b);
    HexDigitRoundTrip(b / 16);
    HexDigitRoundTrip(b % 16);
    assert s[..1] == [HexDigitChar(b / 16)];
    assert s[..1][..0] == [];
    assert HexValue(s[..1]) == b / 16;
  }

  lemma {:induction false} ParseHexPartsOfBytes(h: seq<byte>)
    ensures ParseHexParts(HexParts(h)) == Ok(h)
  {
    if |h| > 0 {
      HexByteValue(h[0]);
      assert HexParts(h)[1..] == HexParts(h[1..]);
      ParseHexPartsOfBytes(h[1..]);
      assert [h[0]] + h[1..] == h;
    }
  }

  /** The text StoreFileHash writes reads back as the same hash, for any non-empty hash. */
  lemma HexRoundTrip(h: seq<byte>)
    requires |h| > 0
    ensures ParseHexString(ToHexString(h)) == Ok(h)
  {
    var parts := HexParts(h);
    forall k | 0 <= k < |parts| ensures '-' !in parts[k] {
      assert parts[k] == HexByte(h[k]);
    }
    SplitJoin(parts, '-');
    ParseHexPartsOfBytes(h);
  }

  /** Two digits per byte and one '-' between bytes. */
  lemma {:induction false} HexTextLength(h: seq<byte>)
    ensures |ToHexString(h)| == if |h| == 0 then 0 else 3 * |h| - 1
  {
    PairsJoinLength(HexParts(h));
  }

  lemma {:induction false} PairsJoinLength(parts: seq<string>)
    requires forall k :: 0 <= k < |parts| ==> |parts[k]| == 2
    ensures |Join(parts, '-')| == if |parts| == 0 then 0 else 3 * |parts| - 1
  {
    if |parts| > 1 {
      PairsJoinLength(parts[1..]);
    }
  }

  /** An empty hash is written as "", which byte.Parse rejects when it is read back. */
  lemma EmptyHashDoesNotRoundTrip()
    ensures ToHexString([]) == ""
    ensures ParseHexString(ToHexString([])) == Fail(FormatException)
  {
    assert Split("", '-') == [""];
  }

  // ---------------------------------------------------------------------------
  // The web-relative key and the map of stored hashes

  const DefaultPropertyBagKey: string := "ION_UploadHash"

  datatype HashAlgorithmName = SHA256 | OtherAlgorithm(name: string)

  const DefaultHashAlgorithm: HashAlgorithmName := SHA256

  const NotLoadedMessage: string := "Must have been initialized first (by calling GetFileHash)"

  /**
   * The map key of a file: its server-relative URL with as many leading
   * characters removed as the web URL has, then one leading '/' removed.
   * A URL shorter than the web URL makes Substring throw.
   */
  function WebRelativeKey(serverRelativeUrl: string, webUrl: string): (r: Result<string>)
    ensures r.Fail? <==> |serverRelativeUrl| < |webUrl|
    ensures r.Fail? ==> r.error.ArgumentOutOfRangeException?
  {
    if |serverRelativeUrl| < |webUrl| then Fail(ArgumentOutOfRangeException("startIndex"))
    else
      var rest := serverRelativeUrl[|webUrl|..];
      Ok(if StartsWith(rest, "/") then rest[1..] else rest)
  }

  /** A file below the web is keyed by its path below the web. */
  lemma WebRelativeKeyBelowWeb(webUrl: string, path: string)
    requires !StartsWith(path, "/")
    ensures WebRelativeKey(webUrl + "/" + path, webUrl) == Ok(path)
  {
    var u := webUrl + "/" + path;
    assert u[|webUrl|..] == "/" + path;
  }

  /** The key is derived from lengths only: the stripped characters are never compared with the web URL. */
  lemma WebRelativeKeyIgnoresPrefix(webUrl: string, other: string, path: string)
    requires |other| == |webUrl|
    ensures WebRelativeKey(other + path, webUrl) == WebRelativeKey(webUrl + path, webUrl)
  {
    assert (other + path)[|webUrl|..] == path;
    assert (webUrl + path)[|webUrl|..] == path;
  }

  /** InitHashValues: the map kept under the property key, or an empty map when there is none. */
  function LoadHashValues(properties: Result<seq<Entry>>, propertyBagKey: string,
                          json: Json.Codec<seq<Entry>>): Result<seq<Entry>>
  {
    match properties {
      case Fail(e) => Fail(e)
      case Ok(ps) =>
        match Lookup(ps, Ordinal, propertyBagKey) {
          case None => Ok([])
          case Some(text) =>
            match json.deserialize(text) {
              case None => Fail(JsonSerializationException)
              case Some(list) => ToDictionary(list, IgnoreCase)
            }
        }
    }
  }

  /** GetFileHash once the map is loaded: an unknown key gives the empty hash. */
  function StoredHash(hashValues: seq<Entry>, siteUrl: string, webUrl: string, url: string): Result<seq<byte>>
  {
    var resolved := ResolveServerRelativeUrl(siteUrl, webUrl, url);
    match WebRelativeKey(resolved, webUrl) {
      case Fail(e) => Fail(e)
      case Ok(key) =>
        match Lookup(hashValues, IgnoreCase, key) {
          case None => Ok([])
          case Some(text) => ParseHexString(text)
        }
    }
  }

  /** The map after StoreFileHash has recorded a hash. */
  function StoreHash(hashValues: seq<Entry>, siteUrl: string, webUrl: string, url: string,
                     hash: seq<byte>): Result<seq<Entry>>
  {
    var resolved := ResolveServerRelativeUrl(siteUrl, webUrl, url);
    match WebRelativeKey(resolved, webUrl) {
      case Fail(e) => Fail(e)
      case Ok(key) => Ok(Set(hashValues, IgnoreCase, key, ToHexString(hash)))
    }
  }

  /** Store then Get of the same file gives back the stored hash when it is not empty. */
  lemma StoreThenGet(hashValues: seq<Entry>, siteUrl: string, webUrl: string, url: string, hash: seq<byte>)
    requires |hash| > 0
    requires StoreHash(hashValues, siteUrl, webUrl, url, hash).Ok?
    ensures StoredHash(StoreHash(hashValues, siteUrl, webUrl, url, hash).value, siteUrl, webUrl, url) == Ok(hash)
  {
    var key := WebRelativeKey(ResolveServerRelativeUrl(siteUrl, webUrl, url), webUrl).value;
    LookupSetSame(hashValues, IgnoreCase, key, ToHexString(hash), key);
    HexRoundTrip(hash);
  }

  /** The key comparison ignores case, so a URL spelled in another case finds the same hash. */
  lemma StoreThenGetOtherCase(hashValues: seq<Entry>, siteUrl: string, webUrl: string,
                              url: string, url2: string, hash: seq<byte>)
    requires |hash| > 0
    requires StoreHash(hashValues, siteUrl, webUrl, url, hash).Ok?
    requires WebRelativeKey(ResolveServerRelativeUrl(siteUrl, webUrl, url2), webUrl).Ok?
    requires EqualsIgnoreCase(WebRelativeKey(ResolveServerRelativeUrl(siteUrl, webUrl, url), webUrl).value,
                              WebRelativeKey(ResolveServerRelativeUrl(siteUrl, webUrl, url2), webUrl).value)
    ensures StoredHash(StoreHash(hashValues, siteUrl, webUrl, url, hash).value, siteUrl, webUrl, url2) == Ok(hash)
  {
    var key := WebRelativeKey(ResolveServerRelativeUrl(siteUrl, webUrl, url), webUrl).value;
    var key2 := WebRelativeKey(ResolveServerRelativeUrl(siteUrl, webUrl, url2), webUrl).value;
    LookupSetSame(hashValues, IgnoreCase, key, ToHexString(hash), key2);
    HexRoundTrip(hash);
  }

  /**
   * The serialised map written under the property key is what a later
   * provider loads, so a hash stored in one run is seen by the next.
   */
  lemma StoredMapReloads(properties: seq<Entry>, propertyBagKey: string,
                         json: Json.Codec<seq<Entry>>, hashValues: seq<Entry>)
    requires Json.RoundTrips(json)
    requires UniqueKeys(hashValues, IgnoreCase)
    ensures LoadHashValues(Ok(Set(properties, Ordinal, propertyBagKey, json.serialize(hashValues))),
                           propertyBagKey, json) == Ok(hashValues)
  {
    LookupSetSame(properties, Ordinal, propertyBagKey, json.serialize(hashValues), propertyBagKey);
  }

  // ---------------------------------------------------------------------------
  // The providers

  /** WebPropertyHashProvider; hashValues is None until the map is loaded. */
  class WebPropertyHashProvider {
    const propertyBagKey: string
    const hashAlgorithm: HashAlgorithmName
    const json: Json.Codec<seq<Entry>>
    var hashValues: Option<seq<Entry>>

    ghost predicate Valid()
      reads this
    {
      hashValues.Some? ==> UniqueKeys(hashValues.value, IgnoreCase)
    }

    /** The constructor of the lazily loading provider: null arguments take the defaults. */
    constructor (propertyBagKey: Option<string>, hashAlgorithm: Option<HashAlgorithmName>,
                 json: Json.Codec<seq<Entry>>)
      ensures this.propertyBagKey == (if propertyBagKey.Some? then propertyBagKey.value else DefaultPropertyBagKey)
      ensures this.hashAlgorithm == (if hashAlgorithm.Some? then hashAlgorithm.value else DefaultHashAlgorithm)
      ensures this.json == json && hashValues.None? && Valid()
    {
      this.propertyBagKey := if propertyBagKey.Some? then propertyBagKey.value else DefaultPropertyBagKey;
      this.hashAlgorithm := if hashAlgorithm.Some? then hashAlgorithm.value else DefaultHashAlgorithm;
      this.json := json;
      hashValues := None;
    }

    method InitHashValues(site: Site) returns (o: Outcome)
      requires Valid()
      modifies this
      ensures Valid()
      ensures var loaded := LoadHashValues(site.PropertiesQuery(), propertyBagKey, json);
        (loaded.Fail? ==> o == Throw(loaded.error) && hashValues == old(hashValues)) &&
        (loaded.Ok? ==> o == Pass && hashValues == Some(loaded.value))
    {
      var loaded := LoadHashValues(site.PropertiesQuery(), propertyBagKey, json);
      if loaded.Fail? {
        return Throw(loaded.error);
      }
      hashValues := Some(loaded.value);
      o := Pass;
    }

    /** GetFileHash: loads the map on first use, then looks the file up. */
    method GetFileHash(site: Site, url: string) returns (r: Result<seq<byte>>)
      requires Valid()
      modifies this
      ensures Valid()
      ensures old(hashValues).Some? ==>
        hashValues == old(hashValues) && r == StoredHash(hashValues.value, site.siteUrl, site.webUrl, url)
      ensures old(hashValues).None? ==>
        var loaded := LoadHashValues(site.PropertiesQuery(), propertyBagKey, json);
        (loaded.Fail? ==> r == Fail(loaded.error) && hashValues.None?) &&
        (loaded.Ok? ==> hashValues == Some(loaded.value) &&
                        r == StoredHash(loaded.value, site.siteUrl, site.webUrl, url))
    {
      if hashValues.None? {
        var o := InitHashValues(site);
        if o.Throw? {
          return Fail(o.error);
        }
      }
      var serverRelativeUrl := ResolveServerRelativeUrl(site.siteUrl, site.webUrl, url);
      var key := WebRelativeKey(serverRelativeUrl, site.webUrl);
      if key.Fail? {
        return Fail(key.error);
      }
      var hashString := Lookup(hashValues.value, IgnoreCase, key.value);
      if hashString.None? {
        return Ok([]);
      }
      r := DecodeHash(hashString.value);
    }

    /**
     * StoreFileHash: records the hex text of the hash in the map, then writes
     * the whole serialised map under the property key. The map keeps the new
     * entry even when the write fails.
     */
    method StoreFileHash(site: Site, url: string, hash: seq<byte>) returns (o: Outcome)
      requires Valid()
      modifies this, site
      ensures Valid()
      ensures old(hashValues).None? ==>
        o == Throw(InvalidOperationException(NotLoadedMessage)) &&
        hashValues == old(hashValues) && site.state == old(site.state) && site.history == old(site.history)
      ensures old(hashValues).Some? ==>
        var stored := StoreHash(old(hashValues).value, site.siteUrl, site.webUrl, url, hash);
        (stored.Fail? ==> o == Throw(stored.error) && hashValues == old(hashValues) &&
                          site.state == old(site.state) && site.history == old(site.history)) &&
        (stored.Ok? ==> hashValues == Some(stored.value)) &&
        (stored.Ok? && UpdateProperties in site.faults ==>
           o == Throw(site.FaultOf(UpdateProperties)) && site.state == old(site.state) &&
           site.history == old(site.history)) &&
        (stored.Ok? && UpdateProperties !in site.faults ==>
           var e := PropertySet(propertyBagKey, json.serialize(stored.value));
           o == Pass && site.history == old(site.history) + [e] && site.state == site.Apply(old(site.state), e))
    {
      if hashValues.None? {
        return Throw(InvalidOperationException(NotLoadedMessage));
      }
      var serverRelativeUrl := ResolveServerRelativeUrl(site.siteUrl, site.webUrl, url);
      var key := WebRelativeKey(serverRelativeUrl, site.webUrl);
      if key.Fail? {
        return Throw(key.error);
      }
      var hashString := ToHexString(hash);
      SetKeepsUnique(hashValues.value, IgnoreCase, key.value, hashString);
      hashValues := Some(Set(hashValues.value, IgnoreCase, key.value, hashString));
      var propertyValue := json.serialize(hashValues.value);
      o := site.Perform(UpdateProperties, PropertySet(propertyBagKey, propertyValue));
    }
  }

  /**
   * The eagerly loading provider's constructor: a null web throws, otherwise the
   * map is loaded at once, so a store never finds it missing.
   */
  method NewLoadedWebPropertyHashProvider(web: Site?, hashAlgorithm: Option<HashAlgorithmName>,
                                         propertyBagKey: Option<string>, json: Json.Codec<seq<Entry>>)
    returns (r: Result<WebPropertyHashProvider>)
    ensures web == null ==> r == Fail(NullReferenceException)
    ensures r.Ok? ==> fresh(r.value) && r.value.Valid() && r.value.hashValues.Some?
    ensures web != null ==>
      var key := if propertyBagKey.Some? then propertyBagKey.value else DefaultPropertyBagKey;
      var loaded := LoadHashValues(web.PropertiesQuery(), key, json);
      (loaded.Fail? <==> r.Fail?) && (r.Ok? ==> r.value.hashValues == Some(loaded.value)) &&
      (loaded.Fail? ==> r == Fail(loaded.error))
  {
    if web == null {
      return Fail(NullReferenceException);
    }
    var p := new WebPropertyHashProvider(propertyBagKey, hashAlgorithm, json);
    var o := p.InitHashValues(web);
    if o.Throw? {
      return Fail(o.error);
    }
    r := Ok(p);
  }

  /** NullHashProvider.GetFileHash: no stored hash for any file. */
  function NullGetFileHash(url: string): (h: seq<byte>)
    ensures |h| == 0
  {
    []
  }

  /** The IHashProvider the engines are configured with. */
  datatype HashProvider = NullProvider | WebProvider(provider: WebPropertyHashProvider)
  {
    ghost predicate Valid()
      reads if WebProvider? then {provider} else {}
    {
      WebProvider? ==> provider.Valid()
    }

    ghost function Repr(): set<object>
    {
      if WebProvider? then {provider} else {}
    }
  }

  /** The hashes a provider holds: the loaded map of a web provider; the null provider holds none. */
  ghost function HashCache(hp: HashProvider): Option<seq<Entry>>
    reads hp.Repr()
  {
    if hp.WebProvider? then hp.provider.hashValues else None
  }

  datatype HashRead = HashRead(cache: Option<seq<Entry>>, hash: Result<seq<byte>>)

  /** IHashProvider.GetFileHash from a given cache and site state; a web provider loads its map on first use. */
  function ReadHash(site: Site, hp: HashProvider, cache: Option<seq<Entry>>, s: SiteState, url: string): HashRead
  {
    match hp
    case NullProvider => HashRead(cache, Ok(NullGetFileHash(url)))
    case WebProvider(p) =>
      if cache.Some? then HashRead(cache, StoredHash(cache.value, site.siteUrl, site.webUrl, url))
      else
        var loaded := LoadHashValues(site.PropertiesIn(s), p.propertyBagKey, p.json);
        if loaded.Fail? then HashRead(None, Fail(loaded.error))
        else HashRead(Some(loaded.value), StoredHash(loaded.value, site.siteUrl, site.webUrl, url))
  }

  datatype HashWrite = HashWrite(cache: Option<seq<Entry>>, effects: seq<Effect>, outcome: Outcome)

  /**
   * IHashProvider.StoreFileHash from a given cache: the web provider records the
   * hash in its map, then writes the serialised map to the property bag.
   */
  function WriteHash(site: Site, hp: HashProvider, cache: Option<seq<Entry>>, url: string, hash: seq<byte>): HashWrite
  {
    match hp
    case NullProvider => HashWrite(cache, [], Pass)
    case WebProvider(p) =>
      if cache.None? then HashWrite(cache, [], Throw(InvalidOperationException(NotLoadedMessage)))
      else
        match StoreHash(cache.value, site.siteUrl, site.webUrl, url, hash)
        case Fail(e) => HashWrite(cache, [], Throw(e))
        case Ok(m) =>
          if UpdateProperties in site.faults then HashWrite(Some(m), [], Throw(site.FaultOf(UpdateProperties)))
          else HashWrite(Some(m), [PropertySet(p.propertyBagKey, p.json.serialize(m))], Pass)
  }

  /**
   * A hash written through a loaded web provider is the one the same provider
   * reads back for that file, when it is not empty, even if writing the
   * property bag failed.
   */
  lemma WriteThenRead(site: Site, hp: HashProvider, cache: Option<seq<Entry>>, s: SiteState,
                      url: string, hash: seq<byte>)
    requires hp.WebProvider? && |hash| > 0 && cache.Some?
    requires StoreHash(cache.value, site.siteUrl, site.webUrl, url, hash).Ok?
    ensures ReadHash(site, hp, WriteHash(site, hp, cache, url, hash).cache, s, url).hash == Ok(hash)
  {
    StoreThenGet(cache.value, site.siteUrl, site.webUrl, url, hash);
  }

  /** IHashProvider.GetFileHash. */
  method GetFileHash(hp: HashProvider, site: Site, url: string) returns (r: Result<seq<byte>>)
    requires hp.Valid()
    modifies hp.Repr()
    ensures hp.Valid()
    ensures var x := ReadHash(site, hp, old(HashCache(hp)), site.state, url);
      r == x.hash && HashCache(hp) == x.cache
  {
    match hp {
      case NullProvider => r := Ok(NullGetFileHash(url));
      case WebProvider(p) => r := p.GetFileHash(site, url);
    }
  }

  /** IHashProvider.StoreFileHash; the null provider stores nothing. */
  method StoreFileHash(hp: HashProvider, site: Site, url: string, hash: seq<byte>) returns (o: Outcome)
    requires hp.Valid()
    modifies hp.Repr(), site
    ensures hp.Valid()
    ensures var x := WriteHash(site, hp, old(HashCache(hp)), url, hash);
      o == x.outcome && HashCache(hp) == x.cache &&
      site.history == old(site.history) + x.effects && site.state == site.Replay(old(site.state), x.effects)
  {
    match hp {
      case NullProvider => o := Pass;
      case WebProvider(p) => o := p.StoreFileHash(site, url, hash);
    }
  }
}
