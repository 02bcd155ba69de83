/**
 * The journals that record which migrations have run. The web-property-bag
 * journal keeps one property per applied migration, keyed by a prefix and a
 * running numeric Id; the null journal records nothing; the older
 * property-bag journal keeps records keyed by their own Id under the
 * "migrationinfos/" prefix.
 */
module Journals {
  import opened Errors
  import opened Text
  import opened OrderedMaps
  import Json
  import opened Remote

  /** The point in time a migration was applied; MinValue stands for DateTimeOffset.MinValue. */
  datatype Timestamp = MinValue | At(ticks: int)

  /** The journal record of an applied migration. */
  datatype MigrationInfo = MigrationInfo(id: long, name: string, note: Option<string>, appliedAt: Timestamp)

  const DefaultPrefix: string := "ION_Migration/"

  const NotInitialisedMessage: string :=
    "GetExecutedMigrations (to get previous migrations) is expected before StoreExecutedMigration (to store new ones)"

  // ---------------------------------------------------------------------------
  // Reading the journal

  /**
   * The record a journal property stands for: its deserialised value, or,
   * when that fails, a record whose Id and Name are the positive number at
   * the end of the key; otherwise none.
   */
  function RecordOf(e: Entry, prefix: string, json: Json.Codec<MigrationInfo>): (r: Option<MigrationInfo>)
    requires StartsWith(e.key, prefix)
    ensures json.deserialize(e.value).Some? ==> r == json.deserialize(e.value)
    ensures json.deserialize(e.value).None? ==>
      var n := ParseLong(e.key[|prefix|..]);
      (r.Some? <==> n.Some? && n.value > 0) &&
      (r.Some? ==> r.value == MigrationInfo(n.value, LongToString(n.value), None, MinValue))
  {
    match json.deserialize(e.value) {
      case Some(info) => Some(info)
      case None =>
        match ParseLong(e.key[|prefix|..]) {
          case Some(n) => if n > 0 then Some(MigrationInfo(n, LongToString(n), None, MinValue)) else None
          case None => None
        }
    }
  }

  /** The records of the prefixed properties, in enumeration order. */
  function ReadJournal(properties: seq<Entry>, prefix: string, json: Json.Codec<MigrationInfo>): seq<MigrationInfo>
    decreases |properties|
  {
    if |properties| == 0 then []
    else
      var e := properties[|properties| - 1];
      var earlier := ReadJournal(properties[..|properties| - 1], prefix, json);
      if StartsWith(e.key, prefix) && RecordOf(e, prefix, json).Some? then
        earlier + [RecordOf(e, prefix, json).value]
      else earlier
  }

  /** The largest Id, or 0 when there is none larger. */
  function MaxId(records: seq<MigrationInfo>): (m: long)
    ensures m >= 0
    ensures forall k :: 0 <= k < |records| ==> records[k].id <= m
    ensures m == 0 || exists k :: 0 <= k < |records| && records[k].id == m
  {
    if |records| == 0 then 0
    else
      var m := MaxId(records[..|records| - 1]);
      var last := records[|records| - 1].id;
      if last > m then last else m
  }

  /** Every record read comes from a prefixed property. */
  lemma {:induction false} ReadJournalSources(properties: seq<Entry>, prefix: string, json: Json.Codec<MigrationInfo>)
    ensures forall r :: r in ReadJournal(properties, prefix, json) ==>
      exists k :: 0 <= k < |properties| && StartsWith(properties[k].key, prefix) &&
                  RecordOf(properties[k], prefix, json) == Some(r)
    decreases |properties|
  {
    if |properties| > 0 {
      var init := properties[..|properties| - 1];
      ReadJournalSources(init, prefix, json);
      forall r | r in ReadJournal(properties, prefix, json)
        ensures exists k :: 0 <= k < |properties| && StartsWith(properties[k].key, prefix) &&
                            RecordOf(properties[k], prefix, json) == Some(r)
      {
        if r in ReadJournal(init, prefix, json) {
          var k :| 0 <= k < |init| && StartsWith(init[k].key, prefix) && RecordOf(init[k], prefix, json) == Some(r);
          assert properties[k] == init[k];
        } else {
          assert StartsWith(properties[|properties| - 1].key, prefix);
        }
      }
    }
  }

  /** Every prefixed property that stands for a record is read. */
  lemma {:induction false} ReadJournalComplete(properties: seq<Entry>, prefix: string, json: Json.Codec<MigrationInfo>, k: nat)
    requires k < |properties| && StartsWith(properties[k].key, prefix)
    requires RecordOf(properties[k], prefix, json).Some?
    ensures RecordOf(properties[k], prefix, json).value in ReadJournal(properties, prefix, json)
    decreases |properties|
  {
    if k < |properties| - 1 {
      var init := properties[..|properties| - 1];
      assert init[k] == properties[k];
      ReadJournalComplete(init, prefix, json, k);
    }
  }

  // ---------------------------------------------------------------------------
  // Writing the journal

  /** _lastId + 1 in unchecked 64-bit arithmetic. */
  function NextId(lastId: long): (id: long)
    ensures lastId < MaxLong ==> id == lastId + 1
    ensures lastId == MaxLong ==> id == MinLong
  {
    if lastId == MaxLong then MinLong else lastId + 1
  }

  function JournalKey(prefix: string, id: long): string
  {
    prefix + LongToString(id)
  }

  /**
   * A record written under its key is read back by the next
   * GetExecutedMigrations, when the serializer round-trips.
   */
  lemma StoredRecordIsRead(properties: seq<Entry>, prefix: string, json: Json.Codec<MigrationInfo>, info: MigrationInfo)
    requires Json.RoundTrips(json)
    ensures var key := JournalKey(prefix, info.id);
      info in ReadJournal(Set(properties, Ordinal, key, json.serialize(info)), prefix, json)
  {
    var key := JournalKey(prefix, info.id);
    var value := json.serialize(info);
    var ps := Set(properties, Ordinal, key, value);
    var i := Find(properties, Ordinal, key);
    var k := if i < 0 then |properties| else i;
    assert ps[k] == Entry(key, value);
    assert StartsWith(key, prefix);
    assert json.deserialize(value) == Some(info);
    ReadJournalComplete(ps, prefix, json, k);
  }

  /** Distinct Ids give distinct journal keys. */
  lemma JournalKeyInjective(prefix: string, a: long, b: long)
    requires JournalKey(prefix, a) == JournalKey(prefix, b)
    ensures a == b
  {
    assert LongToString(a) == JournalKey(prefix, a)[|prefix|..];
    assert LongToString(b) == JournalKey(prefix, b)[|prefix|..];
    ParseLongRoundTrip(a);
    ParseLongRoundTrip(b);
  }

  /**
   * The journal's properties are keyed as StoreExecutedMigration keys them:
   * each prefixed property stands for a record, under the prefix followed by
   * that record's Id.
   */
  ghost predicate WellKeyed(properties: seq<Entry>, prefix: string, json: Json.Codec<MigrationInfo>)
  {
    forall k :: 0 <= k < |properties| && StartsWith(properties[k].key, prefix) ==>
      RecordOf(properties[k], prefix, json).Some? &&
      properties[k].key == JournalKey(prefix, RecordOf(properties[k], prefix, json).value.id)
  }

  /**
   * Storing a record whose Id is above every Id the journal holds adds a new
   * property, so the next read returns the earlier records followed by the
   * new one, and the properties stay keyed as the journal keys them.
   */
  lemma StoreAppendsRecord(properties: seq<Entry>, prefix: string, json: Json.Codec<MigrationInfo>, info: MigrationInfo)
    requires Json.RoundTrips(json) && WellKeyed(properties, prefix, json)
    requires forall r :: r in ReadJournal(properties, prefix, json) ==> r.id < info.id
    ensures var ps := Set(properties, Ordinal, JournalKey(prefix, info.id), json.serialize(info));
      ReadJournal(ps, prefix, json) == ReadJournal(properties, prefix, json) + [info] && WellKeyed(ps, prefix, json)
  {
    var key := JournalKey(prefix, info.id);
    var value := json.serialize(info);
    var i := Find(properties, Ordinal, key);
    if i >= 0 {
      assert properties[i].key == key && StartsWith(key, prefix);
      var r := RecordOf(properties[i], prefix, json).value;
      JournalKeyInjective(prefix, r.id, info.id);
      ReadJournalComplete(properties, prefix, json, i);
      assert false;
    }
    var ps := properties + [Entry(key, value)];
    assert ps[..|ps| - 1] == properties;
    assert StartsWith(key, prefix) && json.deserialize(value) == Some(info);
    assert RecordOf(ps[|ps| - 1], prefix, json) == Some(info);
    forall k | 0 <= k < |ps| && StartsWith(ps[k].key, prefix)
      ensures RecordOf(ps[k], prefix, json).Some? && ps[k].key == JournalKey(prefix, RecordOf(ps[k], prefix, json).value.id)
    {
      if k < |properties| {
        assert ps[k] == properties[k];
      }
    }
  }

  /**
   * After a read, the next Id is above every Id read, unless the largest
   * Id read is the largest long.
   */
  lemma NextIdIsFresh(records: seq<MigrationInfo>)
    requires MaxId(records) < MaxLong
    ensures forall k :: 0 <= k < |records| ==> records[k].id < NextId(MaxId(records))
    ensures NextId(MaxId(records)) >= 1
  {
  }

  /** WebPropertyBagJournal: the _lastId cursor is set by a read and advanced by each store. */
  class WebPropertyBagJournal {
    const prefix: string
    const json: Json.Codec<MigrationInfo>
    var lastId: long
    var lastIdInitialised: bool

    ghost predicate Valid()
      reads this
    {
      !lastIdInitialised ==> lastId == -1
    }

    /** A null prefix takes the default "ION_Migration/". */
    constructor (prefix: Option<string>, json: Json.Codec<MigrationInfo>)
      ensures this.prefix == (if prefix.Some? then prefix.value else DefaultPrefix)
      ensures this.json == json
      ensures lastId == -1 && !lastIdInitialised && Valid()
    {
      this.prefix := if prefix.Some? then prefix.value else DefaultPrefix;
      this.json := json;
      lastId := -1;
      lastIdInitialised := false;
    }

    /**
     * GetExecutedMigrations: the records of the prefixed properties of the
     * root web, with lastId set to the largest Id among them (at least 0).
     */
    method GetExecutedMigrations(site: Site) returns (r: Result<seq<MigrationInfo>>)
      requires Valid()
      modifies this
      ensures Valid()
      ensures site.PropertiesQuery().Fail? ==>
        r == Fail(site.PropertiesQuery().error) && lastId == old(lastId) && lastIdInitialised == old(lastIdInitialised)
      ensures site.PropertiesQuery().Ok? ==>
        var records := ReadJournal(site.PropertiesQuery().value, prefix, json);
        r == Ok(records) && lastIdInitialised && lastId == MaxId(records)
    {
      var loaded := site.PropertiesQuery();
      if loaded.Fail? {
        return Fail(loaded.error);
      }
      var properties := loaded.value;
      var executed: seq<MigrationInfo> := [];
      lastId := 0;
      lastIdInitialised := true;
      var i := 0;
      while i < |properties|
        invariant 0 <= i <= |properties|
        invariant executed == ReadJournal(properties[..i], prefix, json)
        invariant lastIdInitialised && lastId == MaxId(executed)
      {
        var e := properties[i];
        assert properties[..i + 1][..i] == properties[..i];
        if StartsWith(e.key, prefix) {
          var info := RecordOf(e, prefix, json);
          if info.Some? {
            if info.value.id > lastId {
              lastId := info.value.id;
            }
            executed := executed + [info.value];
          }
        }
        i := i + 1;
      }
      assert properties[..i] == properties;
      r := Ok(executed);
    }

    /**
     * StoreExecutedMigration: refused before any read; otherwise the next Id
     * is taken and one property, prefix + Id, is written with the record.
     */
    method StoreExecutedMigration(site: Site, name: string, note: Option<string>, now: int)
      returns (r: Result<MigrationInfo>)
      requires Valid()
      modifies this, site
      ensures Valid()
      ensures !old(lastIdInitialised) ==>
        r == Fail(InvalidOperationException(NotInitialisedMessage)) &&
        lastId == old(lastId) && site.history == old(site.history) && site.state == old(site.state)
      ensures lastIdInitialised == old(lastIdInitialised)
      ensures old(lastIdInitialised) && r.Fail? ==>
        lastId == old(lastId) && site.history == old(site.history) && site.state == old(site.state)
      ensures old(lastIdInitialised) && LoadProperties in site.faults ==> r == Fail(site.FaultOf(LoadProperties))
      ensures old(lastIdInitialised) && LoadProperties !in site.faults && UpdateProperties in site.faults ==>
        r == Fail(site.FaultOf(UpdateProperties))
      ensures old(lastIdInitialised) && r.Ok? ==>
        var info := MigrationInfo(NextId(old(lastId)), name, note, At(now));
        var key := JournalKey(prefix, info.id);
        r.value == info && lastId == info.id && lastIdInitialised &&
        site.history == old(site.history) + [PropertySet(key, json.serialize(info))] &&
        site.state == old(site.state).(properties := Set(old(site.state).properties, Ordinal, key, json.serialize(info)))
      ensures old(lastIdInitialised) && LoadProperties !in site.faults && UpdateProperties !in site.faults ==> r.Ok?
    {
      if !lastIdInitialised {
        return Fail(InvalidOperationException(NotInitialisedMessage));
      }
      var loaded := site.PropertiesQuery();
      if loaded.Fail? {
        return Fail(loaded.error);
      }
      var id := NextId(lastId);
      var info := MigrationInfo(id, name, note, At(now));
      var key := JournalKey(prefix, id);
      var o := site.Perform(UpdateProperties, PropertySet(key, json.serialize(info)));
      if o.Throw? {
        return Fail(o.error);
      }
      lastId := id;
      r := Ok(info);
    }
  }

  // ---------------------------------------------------------------------------
  // The null journal

  /** NullJournal.GetExecutedMigrations: nothing was ever stored. */
  function NullGetExecutedMigrations(): (r: seq<MigrationInfo>)
    ensures |r| == 0
  {
    []
  }

  /** NullJournal.StoreExecutedMigration: a record with Id 0, persisted nowhere. */
  function NullStoreExecutedMigration(name: string, note: Option<string>, now: int): (r: MigrationInfo)
    ensures r.id == 0 && r.name == name && r.note == note && r.appliedAt == At(now)
  {
    MigrationInfo(0, name, note, At(now))
  }

  /** The IJournal the migrator is configured with. */
  datatype Journal = NullJournal | WebJournal(journal: WebPropertyBagJournal)
  {
    ghost predicate Valid()
      reads if WebJournal? then {journal} else {}
    {
      WebJournal? ==> journal.Valid()
    }

    ghost function Repr(): set<object>
    {
      if WebJournal? then {journal} else {}
    }
  }

  // ---------------------------------------------------------------------------
  // The older property-bag journal

  const LegacyPrefix: string := "migrationinfos/"

  /** The record of the older journal: its Id is the prefix followed by the migration's version. */
  datatype LegacyMigrationInfo = LegacyMigrationInfo(id: string, version: int, fullName: string, appliedAt: Timestamp)

  /**
   * PropertyBagJournal.GetExecutedMigrations: the "migrationinfos/" properties
   * that deserialise, in enumeration order; the others are skipped.
   */
  function LegacyReadJournal(properties: seq<Entry>, json: Json.Codec<LegacyMigrationInfo>): (r: seq<LegacyMigrationInfo>)
    ensures |r| <= |properties|
    decreases |properties|
  {
    if |properties| == 0 then []
    else
      var e := properties[0];
      var rest := LegacyReadJournal(properties[1..], json);
      if StartsWith(e.key, LegacyPrefix) && json.deserialize(e.value).Some? then
        [json.deserialize(e.value).value] + rest
      else rest
  }

  /** Properties outside the prefix, or that do not deserialise, add nothing. */
  lemma {:induction false} LegacyReadSkips(properties: seq<Entry>, e: Entry, json: Json.Codec<LegacyMigrationInfo>)
    requires !StartsWith(e.key, LegacyPrefix) || json.deserialize(e.value).None?
    ensures LegacyReadJournal([e] + properties, json) == LegacyReadJournal(properties, json)
  {
    assert ([e] + properties)[1..] == properties;
  }

  /** Reading follows enumeration order: the records of a concatenation are concatenated. */
  lemma {:induction false} LegacyReadAppend(ps: seq<Entry>, qs: seq<Entry>, json: Json.Codec<LegacyMigrationInfo>)
    ensures LegacyReadJournal(ps + qs, json) == LegacyReadJournal(ps, json) + LegacyReadJournal(qs, json)
    decreases |ps|
  {
    if |ps| == 0 {
      assert ps + qs == qs;
    } else {
      assert (ps + qs)[0] == ps[0];
      assert (ps + qs)[1..] == ps[1..] + qs;
      LegacyReadAppend(ps[1..], qs, json);
    }
  }

  /** PropertyBagJournal.StoreExecutedMigration: one property, keyed by the record's Id. */
  method LegacyStoreExecutedMigration(site: Site, info: LegacyMigrationInfo, json: Json.Codec<LegacyMigrationInfo>)
    returns (o: Outcome)
    modifies site
    ensures LoadProperties in site.faults ==> o == Throw(site.FaultOf(LoadProperties))
    ensures LoadProperties !in site.faults && UpdateProperties in site.faults ==> o == Throw(site.FaultOf(UpdateProperties))
    ensures o.Throw? ==> site.history == old(site.history) && site.state == old(site.state)
    ensures o == Pass <==> LoadProperties !in site.faults && UpdateProperties !in site.faults
    ensures o == Pass ==>
      site.history == old(site.history) + [PropertySet(info.id, json.serialize(info))] &&
      site.state == old(site.state).(properties := Set(old(site.state).properties, Ordinal, info.id, json.serialize(info)))
  {
    var loaded := site.PropertiesQuery();
    if loaded.Fail? {
      return Throw(loaded.error);
    }
    o := site.Perform(UpdateProperties, PropertySet(info.id, json.serialize(info)));
  }

  /** The older null journal: nothing is read and a store changes nothing. */
  function LegacyNullGetExecutedMigrations(): (r: seq<LegacyMigrationInfo>)
    ensures |r| == 0
  {
    []
  }
}
