/**
 * KafkaBrokerStorage: brokers at `kafka-broker:<id>` and the set of all
 * broker ids at `kafka-broker:ids`. Reads of the wrong type raise
 * IllegalStateException.
 */
module KafkaBrokerStorage {
  import opened JavaLang
  import opened Records
  import opened RocksStore
  import opened IdSets

  const BROKER_PREFIX: string := "kafka-broker"
  const BROKER_IDS_KEY: string := "kafka-broker:ids"

  function BrokerKey(id: string): (k: string)
    ensures StartsWith(k, "kafka-broker:") && k[13..] == id
  {
    assert (BROKER_PREFIX + ":" + id)[..13] == "kafka-broker:";
    BROKER_PREFIX + ":" + id
  }

  /** A canonical UUID never makes a broker key collide with the id set. */
  lemma BrokerKeyDistinct(id: string)
    requires IsCanonicalUuid(id)
    ensures BrokerKey(id) != BROKER_IDS_KEY
  {
    assert BROKER_IDS_KEY[13..] == "ids";
  }

  /** `findById`: `get(brokerKey(id), KafkaBroker.class)`. */
  function BrokerAt(kv: map<string, Stored>, id: string): (r: Result<Option<KafkaBroker>>)
    ensures BrokerKey(id) !in kv <==> r == Ok(None)
    ensures r.Err? <==> BrokerKey(id) in kv && !kv[BrokerKey(id)].BrokerRec?
    ensures r.Err? ==> r.error == IllegalState
    ensures r.Ok? && r.value.Some? ==> kv[BrokerKey(id)] == BrokerRec(r.value.value)
  {
    var key := BrokerKey(id);
    if key !in kv then Ok(None)
    else match AsBroker(kv[key]) case None => Err(IllegalState) case Some(b) => Ok(Some(b))
  }

  /** `save` of a broker that has its id: the broker, then the id set. */
  function SaveEffect(kv: map<string, Stored>, broker: KafkaBroker): Effect<KafkaBroker>
    requires broker.id.Some?
  {
    var e := UpdatedIds(kv[BrokerKey(broker.id.value) := BrokerRec(broker)], BROKER_IDS_KEY, true, broker.id.value);
    Effect(e.kv, if e.result.Ok? then Ok(broker) else Err(e.result.error))
  }

  /** `delete(id)`: the broker key goes whether or not it is there, and the id set is rewritten. */
  function DeleteEffect(kv: map<string, Stored>, id: string): Effect<()> {
    UpdatedIds(kv - {BrokerKey(id)}, BROKER_IDS_KEY, false, id)
  }

  class Storage {
    const db: RocksDb
    const uuids: IdSource

    constructor (db: RocksDb, uuids: IdSource)
      ensures this.db == db && this.uuids == uuids
    {
      this.db := db;
      this.uuids := uuids;
    }

    /** The id is drawn only when the broker has none. */
    method Save(broker: KafkaBroker) returns (r: Result<KafkaBroker>)
      requires db.Valid()
      modifies db, uuids
      ensures db.Valid()
      ensures var b := if broker.id.Some? then broker else broker.(id := Some(uuids.supply(old(uuids.next))));
        db.kv == SaveEffect(old(db.kv), b).kv && r == SaveEffect(old(db.kv), b).result
      ensures uuids.next == if broker.id.Some? then old(uuids.next) else old(uuids.next) + 1
    {
      var b := broker;
      if b.id.None? {
        var id := uuids.Fresh();
        b := b.(id := Some(id));
      }
      db.Put(BrokerKey(b.id.value), BrokerRec(b));
      var updated := UpdateIds(true, b.id.value);
      if updated.Err? {
        return Err(updated.error);
      }
      return Ok(b);
    }

    method FindById(id: string) returns (r: Result<Option<KafkaBroker>>)
      ensures r == BrokerAt(db.kv, id)
    {
      var v := db.Get(BrokerKey(id));
      if v.None? {
        return Ok(None);
      }
      if !v.value.BrokerRec? {
        return Err(IllegalState);
      }
      return Ok(Some(v.value.broker));
    }

    /** The brokers for the ids in `kafka-broker:ids`, in the set's iteration order, skipping ids with no broker. */
    method FindAll() returns (r: Result<seq<KafkaBroker>>)
      ensures r.Err? <==> ReadIds(db.kv, BROKER_IDS_KEY).Err? || exists id | id in ReadIds(db.kv, BROKER_IDS_KEY).value :: BrokerAt(db.kv, id).Err?
      ensures r.Err? ==> r.error == IllegalState
      ensures r.Ok? ==> ListsExactly(db.kv, r.value, ReadIds(db.kv, BROKER_IDS_KEY).value, BrokerAt)
    {
      var ids := ReadIds(db.kv, BROKER_IDS_KEY);
      if ids.Err? {
        return Err(IllegalState);
      }
      var result: seq<KafkaBroker> := [];
      var rest := ids.value;
      while rest != {}
        invariant rest <= ids.value
        invariant forall id | id in ids.value - rest :: BrokerAt(db.kv, id).Ok?
        invariant ListsExactly(db.kv, result, ids.value - rest, BrokerAt)
        decreases |rest|
      {
        var id :| id in rest;
        var found := FindById(id);
        if found.Err? {
          return Err(IllegalState);
        }
        ListsExactlyStep(db.kv, result, ids.value - rest, id, BrokerAt);
        assert (ids.value - rest) + {id} == ids.value - (rest - {id});
        if found.value.Some? {
          result := result + [found.value.value];
        }
        rest := rest - {id};
      }
      assert ids.value - rest == ids.value;
      return Ok(result);
    }

    method Delete(id: string) returns (r: Result<()>)
      requires db.Valid()
      modifies db
      ensures db.Valid()
      ensures db.kv == DeleteEffect(old(db.kv), id).kv && r == DeleteEffect(old(db.kv), id).result
    {
      db.Delete(BrokerKey(id));
      r := UpdateIds(false, id);
    }

    method UpdateIds(add: bool, id: string) returns (r: Result<()>)
      requires db.Valid()
      modifies db
      ensures db.Valid()
      ensures db.kv == UpdatedIds(old(db.kv), BROKER_IDS_KEY, add, id).kv && r == UpdatedIds(old(db.kv), BROKER_IDS_KEY, add, id).result
    {
      var ids := ReadIds(db.kv, BROKER_IDS_KEY);
      if ids.Err? {
        return Err(ids.error);
      }
      db.Put(BROKER_IDS_KEY, IdSet(if add then ids.value + {id} else ids.value - {id}));
      return Ok(());
    }
  }

  // ------------------------------------------------------------ properties

  /** After a successful save the broker reads back by id and its id is listed. */
  lemma SaveReadsBack(kv: map<string, Stored>, broker: KafkaBroker)
    requires broker.id.Some? && IsCanonicalUuid(broker.id.value) && SaveEffect(kv, broker).result.Ok?
    ensures var kv' := SaveEffect(kv, broker).kv;
      BrokerAt(kv', broker.id.value) == Ok(Some(broker))
      && ReadIds(kv', BROKER_IDS_KEY).Ok? && broker.id.value in ReadIds(kv', BROKER_IDS_KEY).value
  {
    BrokerKeyDistinct(broker.id.value);
  }

  /** A successful delete leaves no broker and no listed id, whether or not the broker existed. */
  lemma DeleteRemovesBroker(kv: map<string, Stored>, id: string)
    requires IsCanonicalUuid(id) && DeleteEffect(kv, id).result.Ok?
    ensures var kv' := DeleteEffect(kv, id).kv;
      BrokerAt(kv', id) == Ok(None) && ReadIds(kv', BROKER_IDS_KEY).Ok? && id !in ReadIds(kv', BROKER_IDS_KEY).value
  {
    BrokerKeyDistinct(id);
  }

  /** Deleting an id that is not listed leaves the listed ids as they were, though the set key is rewritten. */
  lemma DeleteUnknownKeepsIds(kv: map<string, Stored>, id: string)
    requires IsCanonicalUuid(id) && ReadIds(kv, BROKER_IDS_KEY).Ok? && id !in ReadIds(kv, BROKER_IDS_KEY).value
    ensures DeleteEffect(kv, id).result.Ok?
    ensures ReadIds(DeleteEffect(kv, id).kv, BROKER_IDS_KEY) == ReadIds(kv, BROKER_IDS_KEY)
  {
    BrokerKeyDistinct(id);
    var ids := ReadIds(kv, BROKER_IDS_KEY).value;
    assert ReadIds(kv - {BrokerKey(id)}, BROKER_IDS_KEY) == ReadIds(kv, BROKER_IDS_KEY) by {
      if BROKER_IDS_KEY in kv {
        assert (kv - {BrokerKey(id)})[BROKER_IDS_KEY] == kv[BROKER_IDS_KEY];
      }
    }
    assert ids - {id} == ids;
  }

  /**
   * Deleting an id that was never saved still writes the id set: a store
   * with no id set gains an empty one.
   */
  lemma DeleteUnknownWritesIdSet(kv: map<string, Stored>, id: string)
    requires BrokerKey(id) !in kv && BROKER_IDS_KEY !in kv
    ensures DeleteEffect(kv, id) == Effect(kv[BROKER_IDS_KEY := IdSet({})], Ok(()))
  {
    assert kv - {BrokerKey(id)} == kv;
    assert ReadIds(kv, BROKER_IDS_KEY) == Ok({});
    var none: set<string> := {};
    assert none - {id} == none;
  }
}
