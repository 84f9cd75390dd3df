/**
 * SettingsService of the storage generation: the Kafka brokers kept by
 * KafkaBrokerStorage. `delete` and `findById` look the broker up first and
 * answer 404 KAFKA_BROKER_NOT_FOUND for an unknown id, so an unknown id
 * deletes nothing.
 */
module SettingsService {
  import opened JavaLang
  import opened Records
  import opened RocksStore
  import opened IdSets
  import opened KafkaBrokerStorage
  import opened KafkaListenerLifecycleService

  datatype KafkaBrokerRequest = KafkaBrokerRequest(url: Option<string>)
  datatype KafkaBrokerResponse = KafkaBrokerResponse(id: Option<string>, url: Option<string>)

  /** `toKafkaBrokerResponse`. */
  function Response(b: KafkaBroker): (r: KafkaBrokerResponse)
    ensures r.id == b.id && r.url == b.url
  {
    KafkaBrokerResponse(b.id, b.url)
  }

  /** What `findById` answers for a store. */
  function Found(kv: map<string, Stored>, id: string): (r: Result<KafkaBrokerResponse>)
    ensures r.Ok? <==> BrokerAt(kv, id).Ok? && BrokerAt(kv, id).value.Some?
    ensures r.Ok? ==> r.value == Response(BrokerAt(kv, id).value.value)
    ensures BrokerAt(kv, id) == Ok(None) ==> r == Err(KAFKA_BROKER_NOT_FOUND)
  {
    match BrokerAt(kv, id)
    case Err(e) => Err(e)
    case Ok(None) => Err(KAFKA_BROKER_NOT_FOUND)
    case Ok(Some(b)) => Ok(Response(b))
  }

  // ------------------------------------------------------------ properties

  /** A broker saved under a fresh canonical id is then found, with the request's url. */
  lemma SaveThenFindById(kv: map<string, Stored>, request: KafkaBrokerRequest, newId: string)
    requires IsCanonicalUuid(newId) && SaveEffect(kv, KafkaBroker(Some(newId), request.url)).result.Ok?
    ensures Found(SaveEffect(kv, KafkaBroker(Some(newId), request.url)).kv, newId) == Ok(KafkaBrokerResponse(Some(newId), request.url))
  {
    SaveReadsBack(kv, KafkaBroker(Some(newId), request.url));
  }

  /** After a delete that went through, the broker is no longer found. */
  lemma DeleteThenFindById(kv: map<string, Stored>, id: string)
    requires IsCanonicalUuid(id) && DeleteEffect(kv, id).result.Ok?
    ensures Found(DeleteEffect(kv, id).kv, id) == Err(KAFKA_BROKER_NOT_FOUND)
  {
    DeleteRemovesBroker(kv, id);
  }

  // --------------------------------------------------------------- service

  class Service {
    const brokers: KafkaBrokerStorage.Storage

    constructor (brokers: KafkaBrokerStorage.Storage)
      ensures this.brokers == brokers
    {
      this.brokers := brokers;
    }

    /**
     * `getAll`: the brokers `findAll` lists, as responses; the listing's
     * order is not fixed, so it is returned as `listed`.
     */
    method GetAll() returns (r: Result<seq<KafkaBrokerResponse>>, ghost listed: seq<KafkaBroker>)
      ensures r.Err? <==>
        ReadIds(brokers.db.kv, BROKER_IDS_KEY).Err?
        || exists id | id in ReadIds(brokers.db.kv, BROKER_IDS_KEY).value :: BrokerAt(brokers.db.kv, id).Err?
      ensures r.Err? ==> r.error == IllegalState
      ensures r.Ok? ==>
        ListsExactly(brokers.db.kv, listed, ReadIds(brokers.db.kv, BROKER_IDS_KEY).value, BrokerAt)
        && |r.value| == |listed| && forall i | 0 <= i < |listed| :: r.value[i] == Response(listed[i])
    {
      var all := brokers.FindAll();
      if all.Err? {
        return Err(all.error), [];
      }
      listed := all.value;
      r := Ok(seq(|all.value|, i requires 0 <= i < |all.value| => Response(all.value[i])));
    }

    /** `save`: the request's url under a freshly drawn id. */
    method Save(request: KafkaBrokerRequest) returns (r: Result<()>)
      requires brokers.db.Valid()
      modifies brokers.db, brokers.uuids
      ensures brokers.db.Valid() && brokers.uuids.next == old(brokers.uuids.next) + 1
      ensures var e := old(SaveEffect(brokers.db.kv, KafkaBroker(Some(brokers.uuids.supply(brokers.uuids.next)), request.url)));
        brokers.db.kv == e.kv && r == if e.result.Ok? then Ok(()) else Err(e.result.error)
    {
      var saved := brokers.Save(KafkaBroker(None, request.url));
      if saved.Err? {
        return Err(saved.error);
      }
      r := Ok(());
    }

    /** `delete`: an unknown or unreadable broker throws and deletes nothing; a stored one is deleted. */
    method Delete(id: string) returns (r: Result<()>)
      requires brokers.db.Valid()
      modifies brokers.db
      ensures brokers.db.Valid()
      ensures old(Found(brokers.db.kv, id)).Err? ==>
        r == Err(old(Found(brokers.db.kv, id)).error) && brokers.db.kv == old(brokers.db.kv)
      ensures old(Found(brokers.db.kv, id)).Ok? ==>
        brokers.db.kv == old(DeleteEffect(brokers.db.kv, id).kv) && r == old(DeleteEffect(brokers.db.kv, id).result)
    {
      var broker := brokers.FindById(id);
      if broker.Err? {
        return Err(broker.error);
      }
      if broker.value.None? {
        return Err(KAFKA_BROKER_NOT_FOUND);
      }
      r := brokers.Delete(id);
    }

    /** `findById`. */
    method FindById(id: string) returns (r: Result<KafkaBrokerResponse>)
      ensures r == Found(brokers.db.kv, id)
    {
      var broker := brokers.FindById(id);
      if broker.Err? {
        return Err(broker.error);
      }
      if broker.value.None? {
        return Err(KAFKA_BROKER_NOT_FOUND);
      }
      r := Ok(Response(broker.value.value));
    }
  }
}
