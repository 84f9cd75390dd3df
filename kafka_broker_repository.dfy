/**
 * KafkaBrokerRepository: brokers of the repository generation at
 * `kafka-broker:<id>` through the generic repository; `findAll` is a scan
 * of every key that starts with `kafka-broker`.
 */
module KafkaBrokerRepository {
  import opened JavaLang
  import opened Records
  import opened RocksStore
  import opened KeyOrder
  import opened RocksDbRepository

  const BROKER_ID_KEY: string := "kafka-broker"

  class BrokerRepository {
    const common: Repository
    const uuids: IdSource

    constructor (common: Repository, uuids: IdSource)
      ensures this.common == common && this.uuids == uuids
    {
      this.common := common;
      this.uuids := uuids;
    }

    /** The id is drawn only when the broker has none; the broker is returned with its id. */
    method Save(broker: KafkaBroker) returns (saved: KafkaBroker)
      requires common.db.Valid()
      modifies common.db, uuids
      ensures common.db.Valid()
      ensures saved == if broker.id.Some? then broker else broker.(id := Some(uuids.supply(old(uuids.next))))
      ensures uuids.next == if broker.id.Some? then old(uuids.next) else old(uuids.next) + 1
      ensures common.db.kv == old(common.db.kv)[BuildKey(BROKER_ID_KEY, saved.id.value) := BrokerRec(saved)]
    {
      saved := broker;
      if saved.id.None? {
        var id := uuids.Fresh();
        saved := saved.(id := Some(id));
      }
      common.SavePrefixed(BROKER_ID_KEY, saved.id.value, BrokerRec(saved));
    }

    method FindById(id: string) returns (r: Option<KafkaBroker>)
      ensures r == Find(common.db.kv, BuildKey(BROKER_ID_KEY, id), AsBroker)
    {
      r := common.FindByPrefixedKey(BROKER_ID_KEY, id, AsBroker);
    }

    method FindAll() returns (r: Result<seq<KafkaBroker>>)
      requires common.db.Valid()
      ensures r == DecodeAll(common.db.kv, KeysWithPrefix(common.db.keys, BROKER_ID_KEY), AsBroker)
    {
      r := common.FindAll(BROKER_ID_KEY, AsBroker);
    }

    method Delete(id: string)
      requires common.db.Valid()
      modifies common.db
      ensures common.db.Valid() && common.db.kv == old(common.db.kv) - {BuildKey(BROKER_ID_KEY, id)}
    {
      common.DeletePrefixed(BROKER_ID_KEY, id);
    }
  }

  /** `findById` reads the key `save` wrote. */
  lemma SaveThenFindById(kv: map<string, Stored>, broker: KafkaBroker)
    requires broker.id.Some?
    ensures Find(kv[BuildKey(BROKER_ID_KEY, broker.id.value) := BrokerRec(broker)], BuildKey(BROKER_ID_KEY, broker.id.value), AsBroker) == Some(broker)
  {
  }

  /** Deleting one broker leaves every other broker readable as before. */
  lemma DeleteKeepsOthers(kv: map<string, Stored>, id: string, other: string)
    requires other != id
    ensures Find(kv - {BuildKey(BROKER_ID_KEY, id)}, BuildKey(BROKER_ID_KEY, other), AsBroker) == Find(kv, BuildKey(BROKER_ID_KEY, other), AsBroker)
  {
    if BuildKey(BROKER_ID_KEY, id) == BuildKey(BROKER_ID_KEY, other) {
      BuildKeyInjective(BROKER_ID_KEY, id, other);
    }
  }

  /**
   * The scan takes every key starting with `kafka-broker`, with or without
   * the colon: one such key that holds anything but a broker makes
   * `findAll` fail.
   */
  lemma ForeignKeyBreaksFindAll(db: RocksDb, k: string)
    requires db.Valid() && k in db.kv && StartsWith(k, BROKER_ID_KEY) && !db.kv[k].BrokerRec?
    ensures DecodeAll(db.kv, KeysWithPrefix(db.keys, BROKER_ID_KEY), AsBroker).Err?
  {
    var ks := KeysWithPrefix(db.keys, BROKER_ID_KEY);
    DecodeAllMeaning(db.kv, ks, AsBroker);
    assert k in ks;
    var i :| 0 <= i < |ks| && ks[i] == k;
  }
}
