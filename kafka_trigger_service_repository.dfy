/**
 * KafkaTriggerService of the repository generation: the same selection as
 * the storage generation's copy, over MockFlowRepository, where the index
 * is a list of ids, the ids that no longer name a stored flow are dropped,
 * a lookup never fails, and candidates are sorted by their String ids.
 */
module RepositoryKafkaTriggerService {
  import opened JavaLang
  import opened Values
  import opened Records
  import opened ExecutionContext
  import opened KafkaSelection
  import ElementService
  import MockFlowRepository
  import MockFlowStorage
  import AsyncFlowExecutor
  import RocksDbRepository
  import RocksStore

  /** The flow `processKafkaMessage` chose and the payload it built for it. */
  datatype Trigger = Trigger(flow: MockFlow, payload: Value)

  /** `mockFlowRepository.findByKafkaTrigger(brokerId, topic)`: the stored flows of the listed ids. */
  function IndexedFlows(kv: map<string, RocksStore.Stored>, brokerId: Option<string>, topic: Option<string>): (r: set<MockFlow>)
    ensures var ids := RocksDbRepository.ListAt(kv, MockFlowRepository.KafkaTriggerKey(brokerId, topic));
      forall f :: f in r <==> exists i | 0 <= i < |ids| :: MockFlowRepository.FlowAt(kv, ids[i]) == Some(f)
  {
    var key := MockFlowRepository.KafkaTriggerKey(Some(FormatNullable(brokerId)), Some(FormatNullable(topic)));
    assert key == MockFlowRepository.KafkaTriggerKey(brokerId, topic);
    MockFlowRepository.ListedFlows(kv, RocksDbRepository.ListAt(kv, key))
  }

  /**
   * What `processKafkaMessage` finds before it touches a context, given
   * the order in which the stream visited the indexed flows: the payload,
   * the candidates, the choice, and the flow read again by the chosen id
   * (404 MOCK_NOT_FOUND when it is gone).
   */
  function Prepared(kv: map<string, RocksStore.Stored>, brokerId: Option<string>, topic: Option<string>,
                    message: Option<string>, listing: seq<MockFlow>, parse: string -> Option<Value>,
                    evaluate: (string, Value) -> Option<bool>): (r: Result<Trigger>)
    ensures KafkaPayload(topic, message, brokerId, parse).Err? ==> r == Err(Runtime)
    ensures r.Ok? ==> Candidates(listing).Ok? && Chosen(Candidates(listing).value, r.value.payload, evaluate, StringLe).Ok?
    ensures r.Ok? ==>
      var m := Chosen(Candidates(listing).value, r.value.payload, evaluate, StringLe).value;
      RocksDbRepository.Find(kv, MockFlowRepository.FlowKey(m.id), RocksStore.AsFlow) == Some(r.value.flow)
    ensures r.Ok? ==> KafkaPayload(topic, message, brokerId, parse) == Ok(r.value.payload)
  {
    var payload :- KafkaPayload(topic, message, brokerId, parse);
    var cs :- Candidates(listing);
    Reloaded(kv, Chosen(cs, payload, evaluate, StringLe), payload)
  }

  /** `findMock` once the choice is made: the chosen flow read again by its id, 404 MOCK_NOT_FOUND when it is gone. */
  function Reloaded(kv: map<string, RocksStore.Stored>, chosen: Result<FlowMatchResult>, payload: Value): (r: Result<Trigger>)
    ensures chosen.Err? ==> r == Err(chosen.error)
    ensures chosen.Ok? ==>
      (r == Err(MOCK_NOT_FOUND) <==> RocksDbRepository.Find(kv, MockFlowRepository.FlowKey(chosen.value.id), RocksStore.AsFlow).None?)
    ensures r.Ok? ==>
      chosen.Ok? && RocksDbRepository.Find(kv, MockFlowRepository.FlowKey(chosen.value.id), RocksStore.AsFlow) == Some(r.value.flow)
    ensures r.Ok? ==> r.value.payload == payload
  {
    var m :- chosen;
    var found := RocksDbRepository.Find(kv, MockFlowRepository.FlowKey(m.id), RocksStore.AsFlow);
    if found.None? then Err(MOCK_NOT_FOUND) else Ok(Trigger(found.value, payload))
  }

  /**
   * The flow that answers is the one, among the eligible flows the index
   * lists, whose id comes first in String order.
   */
  lemma PreparedChoosesLeastEligible(kv: map<string, RocksStore.Stored>, brokerId: Option<string>, topic: Option<string>,
                                     message: Option<string>, listing: seq<MockFlow>, parse: string -> Option<Value>,
                                     evaluate: (string, Value) -> Option<bool>)
    requires Prepared(kv, brokerId, topic, message, listing, parse, evaluate).Ok?
    requires IdsPresent(Candidates(listing).value)
    ensures var t := Prepared(kv, brokerId, topic, message, listing, parse, evaluate).value;
      exists f | f in listing :: CandidateOf(f).Ok? && KafkaEligible(CandidateOf(f).value, t.payload, evaluate)
        && RocksDbRepository.Find(kv, MockFlowRepository.FlowKey(f.id), RocksStore.AsFlow) == Some(t.flow)
        && forall g | g in listing && KafkaEligible(CandidateOf(g).value, t.payload, evaluate) :: StringLe(f.id.value, g.id.value)
  {
    var t := Prepared(kv, brokerId, topic, message, listing, parse, evaluate).value;
    StringOrderIsTotal();
    ChosenFlowIsLeastEligible(listing, t.payload, evaluate, StringLe);
  }

  /** With candidates for every listed flow but none eligible, the message is answered 404 MOCK_NOT_FOUND. */
  lemma NoEligibleFlowIsNotFound(kv: map<string, RocksStore.Stored>, brokerId: Option<string>, topic: Option<string>,
                                 message: Option<string>, listing: seq<MockFlow>, parse: string -> Option<Value>,
                                 evaluate: (string, Value) -> Option<bool>)
    requires KafkaPayload(topic, message, brokerId, parse).Ok?
    requires Candidates(listing).Ok? && (|listing| <= 1 || IdsPresent(Candidates(listing).value))
    requires forall f | f in listing :: !KafkaEligible(CandidateOf(f).value, KafkaPayload(topic, message, brokerId, parse).value, evaluate)
    ensures Prepared(kv, brokerId, topic, message, listing, parse, evaluate) == Err(MOCK_NOT_FOUND)
  {
    var cs := Candidates(listing).value;
    var payload := KafkaPayload(topic, message, brokerId, parse).value;
    forall c | c in cs
      ensures !KafkaEligible(c, payload, evaluate)
    {
      var i :| 0 <= i < |cs| && cs[i] == c;
      assert listing[i] in listing;
    }
    ChosenNotFoundIffNoneEligible(cs, payload, evaluate, StringLe);
  }

  /**
   * The set the repository returns is visited in an order Java leaves
   * open; as long as no two of its flows share an id, every visiting
   * order yields the same outcome (the same exception only up to which
   * flow without a candidate is met first).
   */
  lemma PreparedIgnoresListingOrder(kv: map<string, RocksStore.Stored>, brokerId: Option<string>, topic: Option<string>,
                                    message: Option<string>, l: seq<MockFlow>, l': seq<MockFlow>,
                                    parse: string -> Option<Value>, evaluate: (string, Value) -> Option<bool>)
    requires IsListing(l, IndexedFlows(kv, brokerId, topic)) && IsListing(l', IndexedFlows(kv, brokerId, topic))
    requires forall f, g | f in IndexedFlows(kv, brokerId, topic) && g in IndexedFlows(kv, brokerId, topic)
                           && f.id == g.id :: f == g
    ensures Prepared(kv, brokerId, topic, message, l, parse, evaluate).Ok?
        <==> Prepared(kv, brokerId, topic, message, l', parse, evaluate).Ok?
    ensures Candidates(l).Ok? ==>
      Prepared(kv, brokerId, topic, message, l, parse, evaluate) == Prepared(kv, brokerId, topic, message, l', parse, evaluate)
  {
    CandidatesIgnoreListingOrder(l, l', IndexedFlows(kv, brokerId, topic));
    StringOrderIsTotal();
    var payload := KafkaPayload(topic, message, brokerId, parse);
    if Candidates(l).Ok? && payload.Ok? {
      SelectionIgnoresListingOrder(Candidates(l).value, Candidates(l').value, payload.value, evaluate, StringLe);
    }
  }

  class Service {
    const elements: ElementService.Service
    const flows: MockFlowRepository.FlowRepository
    const executor: AsyncFlowExecutor.Executor
    /** The SpEL evaluation of a condition over the payload; `None` when it throws. */
    const evaluate: (string, Value) -> Option<bool>

    constructor (elements: ElementService.Service, flows: MockFlowRepository.FlowRepository,
                 executor: AsyncFlowExecutor.Executor, evaluate: (string, Value) -> Option<bool>)
      ensures this.elements == elements && this.flows == flows && this.executor == executor && this.evaluate == evaluate
    {
      this.elements := elements;
      this.flows := flows;
      this.executor := executor;
      this.evaluate := evaluate;
    }

    /**
     * The executor runs the steps with this element service, and reads the
     * flow from the store that the variable steps write.
     */
    predicate Wired() {
      executor.elements == elements && executor.flows.db == elements.variables.db && elements.Separate()
    }

    /**
     * `processKafkaMessage`: a message that finds no flow, or whose flow
     * has no KAFKA_TRIGGER step, fails before any step runs; otherwise the
     * payload is put in a fresh context at the trigger's order number and
     * the steps after the trigger run over it, the executor reading the
     * flow again by its id. `listing` is the order the stream visited the
     * indexed flows in.
     */
    method ProcessKafkaMessage(brokerId: Option<string>, topic: Option<string>, message: Option<string>)
      returns (r: Result<()>, ghost listing: seq<MockFlow>)
      requires Wired() && elements.variables.db.Valid()
      modifies elements.placeholders.uuids, elements.variables.db
      ensures elements.variables.db.Valid()
      ensures KafkaPayload(topic, message, brokerId, elements.parse).Ok? ==>
        IsListing(listing, old(IndexedFlows(flows.common.db.kv, brokerId, topic)))
      ensures var p := Prepared(old(flows.common.db.kv), brokerId, topic, message, listing, elements.parse, evaluate);
        p.Err? || TriggerOrder(p.value.flow).Err? ==>
          r == (if p.Err? then Err(p.error) else Err(IllegalState))
          && elements.placeholders.uuids.next == old(elements.placeholders.uuids.next)
          && elements.variables.db.kv == old(elements.variables.db.kv)
      ensures var p := Prepared(old(flows.common.db.kv), brokerId, topic, message, listing, elements.parse, evaluate);
        p.Ok? && TriggerOrder(p.value.flow).Ok? ==>
          var o := AsyncFlowExecutor.AfterTriggerRun(MockFlowStorage.FlowAt(old(elements.variables.db.kv), FormatNullable(p.value.flow.id)),
                                                     KAFKA_TRIGGER, old(elements.placeholders.globals.common.db.kv),
                                                     elements.placeholders.uuids.supply, elements.placeholders.spel,
                                                     map[TriggerOrder(p.value.flow).value := p.value.payload],
                                                     old(elements.placeholders.uuids.next), old(elements.variables.db.kv),
                                                     elements.parse);
          r == Ok(()) && elements.placeholders.uuids.next == o.next && elements.variables.db.kv == o.vars
    {
      var t;
      t, listing := Prepare(brokerId, topic, message);
      if t.Err? {
        return Err(t.error), listing;
      }
      var context := new Context();
      r := Fire(t.value, context);
    }

    /** The first half of `processKafkaMessage`: the message is parsed into the payload, then the flow is found. */
    method Prepare(brokerId: Option<string>, topic: Option<string>, message: Option<string>)
      returns (r: Result<Trigger>, ghost listing: seq<MockFlow>)
      ensures KafkaPayload(topic, message, brokerId, elements.parse).Ok? ==>
        IsListing(listing, IndexedFlows(flows.common.db.kv, brokerId, topic))
      ensures r == Prepared(flows.common.db.kv, brokerId, topic, message, listing, elements.parse, evaluate)
    {
      listing := [];
      var payload := KafkaPayload(topic, message, brokerId, elements.parse);
      if payload.Err? {
        return Err(payload.error), listing;
      }
      var flow;
      flow, listing := FindMock(brokerId, topic, payload.value);
      if flow.Err? {
        return Err(flow.error), listing;
      }
      return Ok(Trigger(flow.value, payload.value)), listing;
    }

    /** The second half of `processKafkaMessage`: the payload is stored in the context, then the steps after the trigger are started. */
    method Fire(t: Trigger, ctx: Context) returns (r: Result<()>)
      requires Wired() && elements.variables.db.Valid()
      modifies ctx, elements.placeholders.uuids, elements.variables.db
      ensures elements.variables.db.Valid()
      ensures TriggerOrder(t.flow).Err? ==>
        r == Err(IllegalState) && elements.placeholders.uuids.next == old(elements.placeholders.uuids.next)
        && elements.variables.db.kv == old(elements.variables.db.kv)
      ensures TriggerOrder(t.flow).Ok? ==>
        var o := AsyncFlowExecutor.AfterTriggerRun(MockFlowStorage.FlowAt(old(elements.variables.db.kv), FormatNullable(t.flow.id)),
                                                   KAFKA_TRIGGER, old(elements.placeholders.globals.common.db.kv),
                                                   elements.placeholders.uuids.supply, elements.placeholders.spel,
                                                   old(ctx.entries)[TriggerOrder(t.flow).value := t.payload],
                                                   old(elements.placeholders.uuids.next), old(elements.variables.db.kv),
                                                   elements.parse);
        r == Ok(()) && elements.placeholders.uuids.next == o.next && elements.variables.db.kv == o.vars
    {
      var stored := SetTriggerContext(t.flow, t.payload, ctx);
      if stored.Err? {
        return Err(stored.error);
      }
      var _ := executor.RunElementsAfterTrigger(FormatNullable(t.flow.id), KAFKA_TRIGGER, ctx);
      r := Ok(());
    }

    /** `setTriggerContext`: the payload goes in at the order number of the first KAFKA_TRIGGER step. */
    method SetTriggerContext(flow: MockFlow, payload: Value, ctx: Context) returns (r: Result<()>)
      modifies ctx
      ensures TriggerOrder(flow).Err? ==> r == Err(IllegalState) && ctx.entries == old(ctx.entries)
      ensures TriggerOrder(flow).Ok? ==> r == Ok(()) && ctx.entries == old(ctx.entries)[TriggerOrder(flow).value := payload]
    {
      var order := TriggerOrder(flow);
      if order.Err? {
        return Err(order.error);
      }
      ctx.Put(order.value, payload);
      return Ok(());
    }

    /** `findMock`: the chosen candidate's flow, read again by its id; 404 MOCK_NOT_FOUND when it is gone. */
    method FindMock(brokerId: Option<string>, topic: Option<string>, payload: Value)
      returns (r: Result<MockFlow>, ghost listing: seq<MockFlow>)
      ensures IsListing(listing, IndexedFlows(flows.common.db.kv, brokerId, topic))
      ensures r == (var cs :- Candidates(listing);
                    var t :- Reloaded(flows.common.db.kv, Chosen(cs, payload, evaluate, StringLe), payload);
                    Ok(t.flow))
    {
      var mockMatch;
      mockMatch, listing := FindMockFlow(brokerId, topic, payload);
      if mockMatch.Err? {
        return Err(mockMatch.error), listing;
      }
      var flow := flows.FindById(mockMatch.value.id);
      if flow.None? {
        return Err(MOCK_NOT_FOUND), listing;
      }
      return Ok(flow.value), listing;
    }

    /**
     * `findMockFlow`: the indexed flows, visited in some order, become
     * candidates; none is 404; two or more are sorted by id; the first
     * eligible one is chosen, and 404 when there is none.
     */
    method FindMockFlow(brokerId: Option<string>, topic: Option<string>, payload: Value)
      returns (r: Result<FlowMatchResult>, ghost listing: seq<MockFlow>)
      ensures IsListing(listing, IndexedFlows(flows.common.db.kv, brokerId, topic))
      ensures r == (var cs :- Candidates(listing); Chosen(cs, payload, evaluate, StringLe))
    {
      var found := flows.FindByKafkaTrigger(FormatNullable(brokerId), FormatNullable(topic));
      var visited := InSomeOrder(found);
      listing := visited;
      var candidates := Candidates(visited);
      if candidates.Err? {
        return Err(candidates.error), listing;
      }
      r := KafkaSelection.Choose(candidates.value, payload, evaluate, StringLe);
    }
  }
}
