/**
 * KafkaListenerLifecycleService of the repository generation: the same
 * trigger extraction and listener handling as the storage generation's
 * copy, with the broker looked up through KafkaBrokerRepository, whose
 * `findById` returns an Optional and never fails.
 */
module RepositoryKafkaListenerLifecycleService {
  import opened JavaLang
  import opened Records
  import opened RuntimeKafkaListenerManager
  import opened KafkaListenerLifecycleService
  import ElementService
  import KafkaBrokerRepository
  import MockFlowStorage
  import RocksDbRepository
  import RocksStore

  /** `kafkaBrokerRepository.findById`: a lookup that never fails. */
  function RepositoryBroker(kv: map<string, RocksStore.Stored>): string -> Result<Option<KafkaBroker>> {
    id => Ok(BrokerAt(kv, id))
  }

  /** The broker stored under `kafka-broker:<id>`, if any. */
  function BrokerAt(kv: map<string, RocksStore.Stored>, id: string): Option<KafkaBroker> {
    RocksDbRepository.Find(kv, RocksDbRepository.BuildKey(KafkaBrokerRepository.BROKER_ID_KEY, id), RocksStore.AsBroker)
  }

  /** Over the repository, a trigger fails only by a cast, a missing broker attribute, the UUID parse, or a missing broker. */
  lemma RepositoryTriggerErrors(flow: MockFlow, kv: map<string, RocksStore.Stored>)
    ensures var r := TriggerWith(flow, RepositoryBroker(kv));
      r.Err? ==> r.error in {ClassCast, NullPointer, IllegalArgument, NumberFormat, KAFKA_BROKER_NOT_FOUND}
  {
    TriggerMeaning(flow, RepositoryBroker(kv));
  }

  class Service {
    const manager: Manager
    const brokers: KafkaBrokerRepository.BrokerRepository

    constructor (manager: Manager, brokers: KafkaBrokerRepository.BrokerRepository)
      ensures this.manager == manager && this.brokers == brokers
    {
      this.manager := manager;
      this.brokers := brokers;
    }

    /** `extractTrigger` over the broker repository. */
    method ExtractTrigger(flow: MockFlow) returns (r: Result<Option<TriggerInfo>>)
      ensures r == TriggerWith(flow, RepositoryBroker(brokers.common.db.kv))
    {
      var i := FirstElementIndex(flow.elements, MockFlowStorage.KAFKA_TRIGGER);
      if i.None? {
        return Ok(None);
      }
      var brokerId := ElementService.AttributeValue(flow.elements[i.value], "broker");
      if brokerId.Err? {
        return Err(brokerId.error);
      }
      var topic := ElementService.AttributeValue(flow.elements[i.value], "topic");
      if topic.Err? {
        return Err(topic.error);
      }
      if brokerId.value.None? {
        return Err(NullPointer);
      }
      var id := UuidFromString(brokerId.value.value);
      if id.Err? {
        return Err(id.error);
      }
      var broker := brokers.FindById(id.value);
      if broker.None? {
        return Err(KAFKA_BROKER_NOT_FOUND);
      }
      return Ok(Some(TriggerInfo(broker.value.url, brokerId.value, topic.value)));
    }

    /**
     * `startIfExists`: a flow without a trigger, or one whose trigger
     * fails, registers nothing; otherwise the listener for the trigger's
     * url and topic runs afterwards, and a new one is registered only if
     * none was.
     */
    method StartIfExists(flow: MockFlow) returns (r: Result<()>)
      requires manager.Valid()
      modifies manager
      ensures manager.Valid()
      ensures var t := old(TriggerWith(flow, RepositoryBroker(brokers.common.db.kv)));
        t.Err? ==> r == Err(t.error) && manager.containers == old(manager.containers)
      ensures var t := old(TriggerWith(flow, RepositoryBroker(brokers.common.db.kv)));
        t == Ok(None) ==> r == Ok(()) && manager.containers == old(manager.containers)
      ensures var t := old(TriggerWith(flow, RepositoryBroker(brokers.common.db.kv)));
        t.Ok? && t.value.Some? ==>
          var k := ListenerKey(t.value.value);
          r == Ok(()) && k in manager.containers
          && (k in old(manager.containers) ==> manager.containers == old(manager.containers))
          && (k !in old(manager.containers) ==>
                manager.containers == old(manager.containers)[k := manager.containers[k]]
                && fresh(manager.containers[k]) && manager.containers[k].brokerId == t.value.value.brokerId
                && manager.containers[k].topic == t.value.value.topic)
      ensures var t := old(TriggerWith(flow, RepositoryBroker(brokers.common.db.kv)));
        manager.containers.Keys == old(manager.containers).Keys + TriggerKeys(t)
        && Extends(old(manager.containers), manager.containers)
    {
      var t := ExtractTrigger(flow);
      if t.Err? {
        return Err(t.error);
      }
      if t.value.Some? {
        manager.Start(t.value.value.brokerUrl, t.value.value.brokerId, t.value.value.topic, Some(GROUP_ID));
      }
      return Ok(());
    }

    /**
     * `stopIfExists`: a flow without a trigger, or one whose trigger
     * fails, stops nothing; otherwise the listener for the trigger's url
     * and topic is stopped and unregistered, if there was one.
     */
    method StopIfExists(flow: MockFlow) returns (r: Result<()>)
      requires manager.Valid()
      modifies manager, manager.containers.Values
      ensures manager.Valid()
      ensures var t := old(TriggerWith(flow, RepositoryBroker(brokers.common.db.kv)));
        t.Err? ==> r == Err(t.error) && manager.containers == old(manager.containers)
      ensures var t := old(TriggerWith(flow, RepositoryBroker(brokers.common.db.kv)));
        t == Ok(None) ==> r == Ok(()) && manager.containers == old(manager.containers)
      ensures var t := old(TriggerWith(flow, RepositoryBroker(brokers.common.db.kv)));
        t.Ok? && t.value.Some? ==>
          var k := ListenerKey(t.value.value);
          r == Ok(()) && manager.containers == old(manager.containers) - {k}
          && (k in old(manager.containers) ==> !old(manager.containers)[k].running)
      ensures var t := old(TriggerWith(flow, RepositoryBroker(brokers.common.db.kv)));
        t.Ok? ==> manager.containers == old(manager.containers) - TriggerKeys(t)
    {
      var t := ExtractTrigger(flow);
      if t.Err? {
        return Err(t.error);
      }
      if t.value.Some? {
        manager.Stop(t.value.value.brokerUrl, t.value.value.topic, Some(GROUP_ID));
      }
      return Ok(());
    }

    /**
     * `restart`: stop, then start; a flow with a trigger ends up with a
     * freshly started listener under its key, even where one was running.
     */
    method Restart(flow: MockFlow) returns (r: Result<()>)
      requires manager.Valid()
      modifies manager, manager.containers.Values
      ensures manager.Valid()
      ensures var t := old(TriggerWith(flow, RepositoryBroker(brokers.common.db.kv)));
        t.Err? ==> r == Err(t.error) && manager.containers == old(manager.containers)
      ensures var t := old(TriggerWith(flow, RepositoryBroker(brokers.common.db.kv)));
        t == Ok(None) ==> r == Ok(()) && manager.containers == old(manager.containers)
      ensures var t := old(TriggerWith(flow, RepositoryBroker(brokers.common.db.kv)));
        t.Ok? && t.value.Some? ==>
          var k := ListenerKey(t.value.value);
          r == Ok(()) && k in manager.containers
          && manager.containers == (old(manager.containers) - {k})[k := manager.containers[k]]
          && fresh(manager.containers[k]) && manager.containers[k].running
          && manager.containers[k].brokerId == t.value.value.brokerId && manager.containers[k].topic == t.value.value.topic
    {
      ghost var t := TriggerWith(flow, RepositoryBroker(brokers.common.db.kv));
      r := StopIfExists(flow);
      if r.Err? {
        return;
      }
      r := StartIfExists(flow);
    }

    /** `getAllActive`: the registry's listing. */
    method GetAllActive() returns (r: seq<ActiveListener>)
      requires manager.Valid()
      ensures |r| == |manager.containers|
      ensures forall k | k in manager.containers :: Listed(k, true).Ok? && Listed(k, true).value in r
      ensures forall a | a in r :: a.running && Joined(a) in manager.containers
    {
      r := manager.GetActiveListeners();
    }
  }
}
