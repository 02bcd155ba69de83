/**
 * A .NET Dictionary<string, string> as the list of its entries in enumeration
 * order, with either an ordinal or an ignore-case key comparer. The indexer
 * setter keeps an existing entry's position and original key; a new key is
 * appended. Property bags and the hash map of the hash providers are such
 * dictionaries.
 */
module OrderedMaps {
  import opened Errors
  import opened Text

  datatype Entry = Entry(key: string, value: string)

  datatype KeyComparer = Ordinal | IgnoreCase

  predicate SameKey(cmp: KeyComparer, a: string, b: string)
  {
    match cmp
    case Ordinal => a == b
    case IgnoreCase => EqualsIgnoreCase(a, b)
  }

  /** The position of the entry whose key equals key under cmp, or -1. */
  function Find(es: seq<Entry>, cmp: KeyComparer, key: string): (i: int)
    ensures -1 <= i < |es|
    ensures i >= 0 ==> SameKey(cmp, es[i].key, key)
    ensures i >= 0 ==> forall j :: 0 <= j < i ==> !SameKey(cmp, es[j].key, key)
    ensures i < 0 ==> forall j :: 0 <= j < |es| ==> !SameKey(cmp, es[j].key, key)
  {
    if |es| == 0 then -1
    else
      var k := Find(es[..|es| - 1], cmp, key);
      if k >= 0 then k
      else if SameKey(cmp, es[|es| - 1].key, key) then |es| - 1
      else -1
  }

  /** Dictionary.TryGetValue. */
  function Lookup(es: seq<Entry>, cmp: KeyComparer, key: string): Option<string>
  {
    var i := Find(es, cmp, key);
    if i < 0 then None else Some(es[i].value)
  }

  /** The indexer setter dictionary[key] = value. */
  function Set(es: seq<Entry>, cmp: KeyComparer, key: string, value: string): (r: seq<Entry>)
    ensures |r| == |es| || |r| == |es| + 1
  {
    var i := Find(es, cmp, key);
    if i < 0 then es + [Entry(key, value)] else es[i := Entry(es[i].key, value)]
  }

  predicate UniqueKeys(es: seq<Entry>, cmp: KeyComparer)
  {
    forall i, j :: 0 <= i < j < |es| ==> !SameKey(cmp, es[i].key, es[j].key)
  }

  /** Enumerable.ToDictionary: a repeated key throws ArgumentException. */
  function ToDictionary(list: seq<Entry>, cmp: KeyComparer): (r: Result<seq<Entry>>)
    ensures r.Ok? ==> r.value == list && UniqueKeys(list, cmp)
    ensures r.Fail? ==> r.error.ArgumentException? && !UniqueKeys(list, cmp)
  {
    if UniqueKeys(list, cmp) then Ok(list)
    else Fail(ArgumentException("An item with the same key has already been added."))
  }

  lemma SameKeyEquivalence(cmp: KeyComparer, a: string, b: string, c: string)
    ensures SameKey(cmp, a, a)
    ensures SameKey(cmp, a, b) ==> SameKey(cmp, b, a)
    ensures SameKey(cmp, a, b) && SameKey(cmp, b, c) ==> SameKey(cmp, a, c)
  {
  }

  /**
   * The dictionary ToDictionary builds answers every entry of the list with
   * that entry's value, under any equal spelling of its key.
   */
  lemma ToDictionaryLookup(list: seq<Entry>, cmp: KeyComparer, k: nat, key: string)
    requires ToDictionary(list, cmp).Ok? && k < |list| && SameKey(cmp, list[k].key, key)
    ensures Lookup(ToDictionary(list, cmp).value, cmp, key) == Some(list[k].value)
  {
    var i := Find(list, cmp, key);
    SameKeyEquivalence(cmp, list[k].key, key, key);
    if i != k {
      if i < k {
        SameKeyEquivalence(cmp, list[i].key, key, list[k].key);
      }
      assert false;
    }
  }

  /** Reading a key just written gives the written value, under any equal spelling of the key. */
  lemma LookupSetSame(es: seq<Entry>, cmp: KeyComparer, key: string, value: string, key2: string)
    requires SameKey(cmp, key, key2)
    ensures Lookup(Set(es, cmp, key, value), cmp, key2) == Some(value)
  {
    var i := Find(es, cmp, key);
    var r := Set(es, cmp, key, value);
    forall j | 0 <= j < |es| && SameKey(cmp, es[j].key, key2)
      ensures SameKey(cmp, es[j].key, key)
    {
      SameKeyEquivalence(cmp, es[j].key, key2, key);
      SameKeyEquivalence(cmp, key, key2, key);
    }
    SameKeyEquivalence(cmp, key, key2, key2);
    if i < 0 {
      assert r[|es|] == Entry(key, value);
      assert Find(r, cmp, key2) == |es|;
    } else {
      SameKeyEquivalence(cmp, es[i].key, key, key2);
      assert r[i].key == es[i].key;
      assert forall j :: 0 <= j < i ==> r[j] == es[j];
      assert Find(r, cmp, key2) == i;
    }
  }

  /** Writing one key leaves every key that differs from it as it was. */
  lemma LookupSetOther(es: seq<Entry>, cmp: KeyComparer, key: string, value: string, key2: string)
    requires !SameKey(cmp, key, key2)
    ensures Lookup(Set(es, cmp, key, value), cmp, key2) == Lookup(es, cmp, key2)
  {
    var i := Find(es, cmp, key);
    var r := Set(es, cmp, key, value);
    var k := Find(es, cmp, key2);
    if i >= 0 {
      SameKeyEquivalence(cmp, es[i].key, key, key2);
      SameKeyEquivalence(cmp, key, es[i].key, key2);
      assert forall j :: 0 <= j < |r| ==> r[j].key == es[j].key;
      assert Find(r, cmp, key2) == k;
    } else {
      SameKeyEquivalence(cmp, key, key2, key2);
      assert !SameKey(cmp, r[|es|].key, key2);
      assert Find(r, cmp, key2) == k;
    }
  }

  /** The setter keeps keys unique. */
  lemma SetKeepsUnique(es: seq<Entry>, cmp: KeyComparer, key: string, value: string)
    requires UniqueKeys(es, cmp)
    ensures UniqueKeys(Set(es, cmp, key, value), cmp)
  {
    var i := Find(es, cmp, key);
    var r := Set(es, cmp, key, value);
    if i < 0 {
      forall a, b | 0 <= a < b < |r|
        ensures !SameKey(cmp, r[a].key, r[b].key)
      {
        if b == |es| {
          SameKeyEquivalence(cmp, r[a].key, key, key);
        }
      }
    } else {
      forall a, b | 0 <= a < b < |r|
        ensures !SameKey(cmp, r[a].key, r[b].key)
      {
        assert r[a].key == es[a].key && r[b].key == es[b].key;
      }
    }
  }
}
