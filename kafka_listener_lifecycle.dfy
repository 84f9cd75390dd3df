/**
 * KafkaListenerLifecycleService of the storage generation: a flow's first
 * KAFKA_TRIGGER step names a broker by id and a topic; the broker's url
 * is looked up and the runtime listener for url, topic and the fixed
 * consumer group is started, stopped or restarted. The broker lookup is a
 * parameter of the shared part, so that the repository generation's copy
 * uses the same definitions over its own store.
 */
module KafkaListenerLifecycleService {
  import opened JavaLang
  import opened Records
  import opened RuntimeKafkaListenerManager
  import ElementService
  import KafkaBrokerStorage
  import MockFlowStorage
  import RocksStore

  /** The consumer group every trigger listener joins. */
  const GROUP_ID: string := "group-ms-mock"

  const KAFKA_BROKER_NOT_FOUND: Error := Base(404, "KAFKA_BROKER_NOT_FOUND")

  /** What a flow's trigger asks for: the broker's url, the broker id as written in the step, and the topic. */
  datatype TriggerInfo = TriggerInfo(brokerUrl: Option<string>, brokerId: Option<string>, topic: Option<string>)

  /**
   * `extractTrigger`, given `findById` of the broker store: nothing for a
   * flow without a KAFKA_TRIGGER step; otherwise its `broker` and `topic`
   * attributes, the broker id parsed as a UUID, and the broker it names.
   */
  function TriggerWith(flow: MockFlow, findBroker: string -> Result<Option<KafkaBroker>>): Result<Option<TriggerInfo>> {
    match FirstElementIndex(flow.elements, MockFlowStorage.KAFKA_TRIGGER)
    case None => Ok(None)
    case Some(i) =>
      var brokerId :- ElementService.AttributeValue(flow.elements[i], "broker");
      var topic :- ElementService.AttributeValue(flow.elements[i], "topic");
      if brokerId.None? then Err(NullPointer)
      else
        var id :- UuidFromString(brokerId.value);
        var broker :- findBroker(id);
        if broker.None? then Err(KAFKA_BROKER_NOT_FOUND)
        else Ok(Some(TriggerInfo(broker.value.url, brokerId, topic)))
  }

  /**
   * What `extractTrigger` finds: nothing exactly when the flow has no
   * KAFKA_TRIGGER step; a trigger whose broker id is the step's `broker`
   * attribute, which reads as a UUID, and whose url is that of the broker
   * stored under the UUID read; NullPointerException for a step without a broker;
   * otherwise the exception of a cast, of the UUID parse, of the lookup,
   * or 404 KAFKA_BROKER_NOT_FOUND.
   */
  lemma TriggerMeaning(flow: MockFlow, findBroker: string -> Result<Option<KafkaBroker>>)
    ensures FirstElementIndex(flow.elements, MockFlowStorage.KAFKA_TRIGGER).None? <==> TriggerWith(flow, findBroker) == Ok(None)
    ensures var r := TriggerWith(flow, findBroker);
      r.Ok? && r.value.Some? ==>
        var e := flow.elements[FirstElementIndex(flow.elements, MockFlowStorage.KAFKA_TRIGGER).value];
        var t := r.value.value;
        ElementService.AttributeValue(e, "broker") == Ok(t.brokerId) && ElementService.AttributeValue(e, "topic") == Ok(t.topic)
        && t.brokerId.Some? && UuidFromString(t.brokerId.value).Ok?
        && var id := UuidFromString(t.brokerId.value).value;
           findBroker(id).Ok? && findBroker(id).value.Some? && t.brokerUrl == findBroker(id).value.value.url
    ensures FirstElementIndex(flow.elements, MockFlowStorage.KAFKA_TRIGGER).Some? ==>
      var e := flow.elements[FirstElementIndex(flow.elements, MockFlowStorage.KAFKA_TRIGGER).value];
      ElementService.AttributeValue(e, "broker") == Ok(None) && ElementService.AttributeValue(e, "topic").Ok? ==>
        TriggerWith(flow, findBroker) == Err(NullPointer)
    ensures var r := TriggerWith(flow, findBroker);
      r.Err? ==> r.error in {ClassCast, NullPointer, IllegalArgument, NumberFormat, KAFKA_BROKER_NOT_FOUND}
                 || exists id :: findBroker(id) == Err(r.error)
  {
    var r := TriggerWith(flow, findBroker);
    if r.Ok? && r.value.Some? {
      var e := flow.elements[FirstElementIndex(flow.elements, MockFlowStorage.KAFKA_TRIGGER).value];
      var b, tp := ElementService.AttributeValue(e, "broker"), ElementService.AttributeValue(e, "topic");
      assert b.Ok? && tp.Ok? && b.value.Some?;
      var id := UuidFromString(b.value.value);
      assert id.Ok?;
      var broker := findBroker(id.value);
      assert broker.Ok? && broker.value.Some?;
      assert r.value.value == TriggerInfo(broker.value.value.url, b.value, tp.value);
    }
    if r.Err? && r.error !in {ClassCast, NullPointer, IllegalArgument, NumberFormat, KAFKA_BROKER_NOT_FOUND} {
      var brokerId := ElementService.AttributeValue(flow.elements[FirstElementIndex(flow.elements, MockFlowStorage.KAFKA_TRIGGER).value], "broker");
      assert findBroker(UuidFromString(brokerId.value.value).value) == Err(r.error);
    }
  }

  /** The registry key a trigger's listener lives under. */
  function ListenerKey(t: TriggerInfo): string {
    Key(t.brokerUrl, t.topic, Some(GROUP_ID))
  }

  /** The key `startIfExists` registers for a flow, if it registers one. */
  function StartedKeyWith(flow: MockFlow, findBroker: string -> Result<Option<KafkaBroker>>): Option<string> {
    match TriggerWith(flow, findBroker)
    case Ok(Some(t)) => Some(ListenerKey(t))
    case _ => None
  }

  /** The listener key a resolved trigger names: none for a flow without a trigger or one whose trigger fails. */
  function TriggerKeys(t: Result<Option<TriggerInfo>>): set<string> {
    if t.Ok? && t.value.Some? then {ListenerKey(t.value.value)} else {}
  }

  /** The keys starting each flow in turn registers, failures swallowed. */
  function StartedKeysWith(flows: seq<MockFlow>, findBroker: string -> Result<Option<KafkaBroker>>): set<string> {
    Collected(flows, f => StartedKeyWith(f, findBroker))
  }

  /** The keys a walk over `xs` collects, one or none per element. */
  function Collected<T>(xs: seq<T>, key: T -> Option<string>): set<string> {
    if xs == [] then {}
    else
      var last := key(xs[|xs| - 1]);
      Collected(xs[..|xs| - 1], key) + (if last.Some? then {last.value} else {})
  }

  /** The keys collected from a sequence are the keys of its elements, whatever their order. */
  lemma {:induction false} CollectedAreKeysOfElements<T>(xs: seq<T>, key: T -> Option<string>)
    ensures forall k :: k in Collected(xs, key) <==> exists i | 0 <= i < |xs| :: key(xs[i]) == Some(k)
  {
    if xs != [] {
      var init := xs[..|xs| - 1];
      CollectedAreKeysOfElements(init, key);
      assert forall i | 0 <= i < |init| :: init[i] == xs[i];
    }
  }

  /** One more flow adds its own key, if its trigger resolves, and nothing else. */
  lemma StartedKeysStep(flows: seq<MockFlow>, i: nat, findBroker: string -> Result<Option<KafkaBroker>>)
    requires i < |flows|
    ensures var k := StartedKeyWith(flows[i], findBroker);
      StartedKeysWith(flows[..i + 1], findBroker) == StartedKeysWith(flows[..i], findBroker) + (if k.Some? then {k.value} else {})
  {
    assert flows[..i + 1][..i] == flows[..i];
  }

  /** Two listings of the same flows start the same listeners. */
  lemma StartedKeysIgnoreOrder(flows: seq<MockFlow>, flows': seq<MockFlow>, findBroker: string -> Result<Option<KafkaBroker>>)
    requires forall f :: f in flows <==> f in flows'
    ensures StartedKeysWith(flows, findBroker) == StartedKeysWith(flows', findBroker)
  {
    var key := f => StartedKeyWith(f, findBroker);
    CollectedAreKeysOfElements(flows, key);
    CollectedAreKeysOfElements(flows', key);
    forall k | k in Collected(flows, key)
      ensures k in Collected(flows', key)
    {
      var i :| 0 <= i < |flows| && key(flows[i]) == Some(k);
      assert flows[i] in flows';
    }
    forall k | k in Collected(flows', key)
      ensures k in Collected(flows, key)
    {
      var i :| 0 <= i < |flows'| && key(flows'[i]) == Some(k);
      assert flows'[i] in flows;
    }
  }

  /** Every listener registered in `before` is still registered, the same one, in `after`. */
  ghost predicate Extends(before: map<string, Container>, after: map<string, Container>) {
    forall k | k in before :: k in after && after[k] == before[k]
  }

  lemma ExtendsTransitive(a: map<string, Container>, b: map<string, Container>, c: map<string, Container>)
    requires Extends(a, b) && Extends(b, c)
    ensures Extends(a, c)
  {
  }

  /** `kafkaBrokerStorage.findById`. */
  function StorageBroker(kv: map<string, RocksStore.Stored>): string -> Result<Option<KafkaBroker>> {
    id => KafkaBrokerStorage.BrokerAt(kv, id)
  }

  class Service {
    const manager: Manager
    const brokers: KafkaBrokerStorage.Storage

    constructor (manager: Manager, brokers: KafkaBrokerStorage.Storage)
      ensures this.manager == manager && this.brokers == brokers
    {
      this.manager := manager;
      this.brokers := brokers;
    }

    /** `extractTrigger` over the broker storage. */
    method ExtractTrigger(flow: MockFlow) returns (r: Result<Option<TriggerInfo>>)
      ensures r == TriggerWith(flow, StorageBroker(brokers.db.kv))
    {
      var i := FirstElementIndex(flow.elements, MockFlowStorage.KAFKA_TRIGGER);
      if i.None? {
        return Ok(None);
      }
      var brokerId := ElementService.AttributeValue(flow.elements[i.value], "broker");
      if brokerId.Err? {
        return Err(brokerId.error);
      }
      var topic := ElementService.AttributeValue(flow.elements[i.value], "topic");
      if topic.Err? {
        return Err(topic.error);
      }
      if brokerId.value.None? {
        return Err(NullPointer);
      }
      var id := UuidFromString(brokerId.value.value);
      if id.Err? {
        return Err(id.error);
      }
      var broker := brokers.FindById(id.value);
      if broker.Err? {
        return Err(broker.error);
      }
      if broker.value.None? {
        return Err(KAFKA_BROKER_NOT_FOUND);
      }
      return Ok(Some(TriggerInfo(broker.value.value.url, brokerId.value, topic.value)));
    }

    /**
     * `startIfExists`: a flow without a trigger, or one whose trigger
     * fails, registers nothing; otherwise the listener for the trigger's
     * url and topic runs afterwards, and a new one is registered only if
     * none was.
     */
    method StartIfExists(flow: MockFlow) returns (r: Result<()>)
      requires manager.Valid()
      modifies manager
      ensures manager.Valid()
      ensures var t := old(TriggerWith(flow, StorageBroker(brokers.db.kv)));
        t.Err? ==> r == Err(t.error) && manager.containers == old(manager.containers)
      ensures var t := old(TriggerWith(flow, StorageBroker(brokers.db.kv)));
        t == Ok(None) ==> r == Ok(()) && manager.containers == old(manager.containers)
      ensures var t := old(TriggerWith(flow, StorageBroker(brokers.db.kv)));
        t.Ok? && t.value.Some? ==>
          var k := ListenerKey(t.value.value);
          r == Ok(()) && k in manager.containers
          && (k in old(manager.containers) ==> manager.containers == old(manager.containers))
          && (k !in old(manager.containers) ==>
                manager.containers == old(manager.containers)[k := manager.containers[k]]
                && fresh(manager.containers[k]) && manager.containers[k].brokerId == t.value.value.brokerId
                && manager.containers[k].topic == t.value.value.topic)
    {
      var t := ExtractTrigger(flow);
      if t.Err? {
        return Err(t.error);
      }
      if t.value.Some? {
        manager.Start(t.value.value.brokerUrl, t.value.value.brokerId, t.value.value.topic, Some(GROUP_ID));
      }
      return Ok(());
    }

    /**
     * `stopIfExists`: a flow without a trigger, or one whose trigger
     * fails, stops nothing; otherwise the listener for the trigger's url
     * and topic is stopped and unregistered, if there was one.
     */
    method StopIfExists(flow: MockFlow) returns (r: Result<()>)
      requires manager.Valid()
      modifies manager, manager.containers.Values
      ensures manager.Valid()
      ensures var t := old(TriggerWith(flow, StorageBroker(brokers.db.kv)));
        t.Err? ==> r == Err(t.error) && manager.containers == old(manager.containers)
      ensures var t := old(TriggerWith(flow, StorageBroker(brokers.db.kv)));
        t == Ok(None) ==> r == Ok(()) && manager.containers == old(manager.containers)
      ensures var t := old(TriggerWith(flow, StorageBroker(brokers.db.kv)));
        t.Ok? && t.value.Some? ==>
          var k := ListenerKey(t.value.value);
          r == Ok(()) && manager.containers == old(manager.containers) - {k}
          && (k in old(manager.containers) ==> !old(manager.containers)[k].running)
    {
      var t := ExtractTrigger(flow);
      if t.Err? {
        return Err(t.error);
      }
      if t.value.Some? {
        manager.Stop(t.value.value.brokerUrl, t.value.value.topic, Some(GROUP_ID));
      }
      return Ok(());
    }

    /**
     * `restart`: stop, then start; a flow with a trigger ends up with a
     * freshly started listener under its key, even where one was running.
     */
    method Restart(flow: MockFlow) returns (r: Result<()>)
      requires manager.Valid()
      modifies manager, manager.containers.Values
      ensures manager.Valid()
      ensures var t := old(TriggerWith(flow, StorageBroker(brokers.db.kv)));
        t.Err? ==> r == Err(t.error) && manager.containers == old(manager.containers)
      ensures var t := old(TriggerWith(flow, StorageBroker(brokers.db.kv)));
        t == Ok(None) ==> r == Ok(()) && manager.containers == old(manager.containers)
      ensures var t := old(TriggerWith(flow, StorageBroker(brokers.db.kv)));
        t.Ok? && t.value.Some? ==>
          var k := ListenerKey(t.value.value);
          r == Ok(()) && k in manager.containers
          && manager.containers == (old(manager.containers) - {k})[k := manager.containers[k]]
          && fresh(manager.containers[k]) && manager.containers[k].running
          && manager.containers[k].brokerId == t.value.value.brokerId && manager.containers[k].topic == t.value.value.topic
    {
      ghost var t := TriggerWith(flow, StorageBroker(brokers.db.kv));
      r := StopIfExists(flow);
      if r.Err? {
        return;
      }
      r := StartIfExists(flow);
    }

    /** `getAllActive`: the registry's listing. */
    method GetAllActive() returns (r: seq<ActiveListener>)
      requires manager.Valid()
      ensures |r| == |manager.containers|
      ensures forall k | k in manager.containers :: Listed(k, true).Ok? && Listed(k, true).value in r
      ensures forall a | a in r :: a.running && Joined(a) in manager.containers
    {
      r := manager.GetActiveListeners();
    }
  }
}
