/**
 * KafkaTriggerService of the storage generation: a message that arrives
 * on a runtime listener becomes a trigger payload; the flows indexed
 * under its broker id and topic are projected to candidates, sorted by
 * their UUID ids, and the first eligible one is loaded again, its
 * KAFKA_TRIGGER step given the payload, and every step after that one run
 * asynchronously.
 */
module KafkaTriggerService {
  import opened JavaLang
  import opened Values
  import opened Records
  import opened ExecutionContext
  import opened KafkaSelection
  import ElementService
  import MockFlowStorage
  import AsyncFlowExecutor
  import IdSets
  import RocksStore

  /** The flow `processKafkaMessage` chose and the payload it built for it. */
  datatype Trigger = Trigger(flow: MockFlow, payload: Value)

  /** `mockFlowStorage.findByKafkaTrigger(brokerId, topic)`, where a null part reads "null". */
  function IndexedFlows(kv: map<string, RocksStore.Stored>, brokerId: Option<string>, topic: Option<string>)
    : (r: Result<set<MockFlow>>)
    ensures r.Err? ==> r.error == IllegalState
    ensures r.Ok? ==>
      var ids := IdSets.ReadSet(kv, MockFlowStorage.KafkaTriggerKey(FormatNullable(brokerId), FormatNullable(topic)));
      ids.Ok? && forall f | f in r.value :: exists id | id in ids.value :: MockFlowStorage.FlowAt(kv, id) == Ok(Some(f))
  {
    var ids := IdSets.ReadSet(kv, MockFlowStorage.KafkaTriggerKey(FormatNullable(brokerId), FormatNullable(topic)));
    if ids.Err? then Err(IllegalState) else MockFlowStorage.FlowsFor(kv, ids.value)
  }

  /**
   * What `processKafkaMessage` finds before it touches a context, given
   * the order in which the stream visited the indexed flows: the payload,
   * the candidates, the choice, and the flow read again by the chosen id
   * (404 MOCK_NOT_FOUND when it is gone).
   */
  function Prepared(kv: map<string, RocksStore.Stored>, brokerId: Option<string>, topic: Option<string>,
                    message: Option<string>, listing: seq<MockFlow>, parse: string -> Option<Value>,
                    evaluate: (string, Value) -> Option<bool>, le: (string, string) -> bool): (r: Result<Trigger>)
    ensures KafkaPayload(topic, message, brokerId, parse).Err? ==> r == Err(Runtime)
    ensures KafkaPayload(topic, message, brokerId, parse).Ok? && IndexedFlows(kv, brokerId, topic).Err? ==> r == Err(IllegalState)
    ensures r.Ok? ==> Candidates(listing).Ok? && Chosen(Candidates(listing).value, r.value.payload, evaluate, le).Ok?
    ensures r.Ok? ==>
      var m := Chosen(Candidates(listing).value, r.value.payload, evaluate, le).value;
      MockFlowStorage.FlowAt(kv, FormatNullable(m.id)) == Ok(Some(r.value.flow))
    ensures r.Ok? ==> KafkaPayload(topic, message, brokerId, parse) == Ok(r.value.payload)
  {
    var payload :- KafkaPayload(topic, message, brokerId, parse);
    var _ :- IndexedFlows(kv, brokerId, topic);
    var cs :- Candidates(listing);
    Reloaded(kv, Chosen(cs, payload, evaluate, le), payload)
  }

  /** `findMock` once the choice is made: the chosen flow read again by its id, 404 MOCK_NOT_FOUND when it is gone. */
  function Reloaded(kv: map<string, RocksStore.Stored>, chosen: Result<FlowMatchResult>, payload: Value): (r: Result<Trigger>)
    ensures chosen.Err? ==> r == Err(chosen.error)
    ensures chosen.Ok? ==> (r == Err(MOCK_NOT_FOUND) <==> MockFlowStorage.FlowAt(kv, FormatNullable(chosen.value.id)) == Ok(None))
    ensures r.Ok? ==> chosen.Ok? && MockFlowStorage.FlowAt(kv, FormatNullable(chosen.value.id)) == Ok(Some(r.value.flow))
    ensures r.Ok? ==> r.value.payload == payload
  {
    var m :- chosen;
    var found :- MockFlowStorage.FlowAt(kv, FormatNullable(m.id));
    if found.None? then Err(MOCK_NOT_FOUND) else Ok(Trigger(found.value, payload))
  }

  /**
   * The flow that answers is the one, among the eligible flows the index
   * lists, whose id comes first in UUID order.
   */
  lemma PreparedChoosesLeastEligible(kv: map<string, RocksStore.Stored>, brokerId: Option<string>, topic: Option<string>,
                                     message: Option<string>, listing: seq<MockFlow>, parse: string -> Option<Value>,
                                     evaluate: (string, Value) -> Option<bool>, le: (string, string) -> bool)
    requires TotalOrder(le)
    requires Prepared(kv, brokerId, topic, message, listing, parse, evaluate, le).Ok?
    requires IdsPresent(Candidates(listing).value)
    ensures var t := Prepared(kv, brokerId, topic, message, listing, parse, evaluate, le).value;
      exists f | f in listing :: CandidateOf(f).Ok? && KafkaEligible(CandidateOf(f).value, t.payload, evaluate)
        && MockFlowStorage.FlowAt(kv, FormatNullable(f.id)) == Ok(Some(t.flow))
        && forall g | g in listing && KafkaEligible(CandidateOf(g).value, t.payload, evaluate) :: le(f.id.value, g.id.value)
  {
    var t := Prepared(kv, brokerId, topic, message, listing, parse, evaluate, le).value;
    ChosenFlowIsLeastEligible(listing, t.payload, evaluate, le);
  }

  /** With candidates for every listed flow but none eligible, the message is answered 404 MOCK_NOT_FOUND. */
  lemma NoEligibleFlowIsNotFound(kv: map<string, RocksStore.Stored>, brokerId: Option<string>, topic: Option<string>,
                                 message: Option<string>, listing: seq<MockFlow>, parse: string -> Option<Value>,
                                 evaluate: (string, Value) -> Option<bool>, le: (string, string) -> bool)
    requires KafkaPayload(topic, message, brokerId, parse).Ok? && IndexedFlows(kv, brokerId, topic).Ok?
    requires Candidates(listing).Ok? && (|listing| <= 1 || IdsPresent(Candidates(listing).value))
    requires forall f | f in listing :: !KafkaEligible(CandidateOf(f).value, KafkaPayload(topic, message, brokerId, parse).value, evaluate)
    ensures Prepared(kv, brokerId, topic, message, listing, parse, evaluate, le) == Err(MOCK_NOT_FOUND)
  {
    var cs := Candidates(listing).value;
    var payload := KafkaPayload(topic, message, brokerId, parse).value;
    forall c | c in cs
      ensures !KafkaEligible(c, payload, evaluate)
    {
      var i :| 0 <= i < |cs| && cs[i] == c;
      assert listing[i] in listing;
    }
    ChosenNotFoundIffNoneEligible(cs, payload, evaluate, le);
  }

  /**
   * The stream visits the indexed set in an order Java leaves open; as
   * long as no two indexed flows share an id and the id order is total
   * and antisymmetric, every visiting order yields the same outcome (the
   * same exception only up to which flow without a candidate is met first).
   */
  lemma PreparedIgnoresListingOrder(kv: map<string, RocksStore.Stored>, brokerId: Option<string>, topic: Option<string>,
                                    message: Option<string>, l: seq<MockFlow>, l': seq<MockFlow>,
                                    parse: string -> Option<Value>, evaluate: (string, Value) -> Option<bool>,
                                    le: (string, string) -> bool)
    requires IndexedFlows(kv, brokerId, topic).Ok?
    requires IsListing(l, IndexedFlows(kv, brokerId, topic).value) && IsListing(l', IndexedFlows(kv, brokerId, topic).value)
    requires forall f, g | f in IndexedFlows(kv, brokerId, topic).value && g in IndexedFlows(kv, brokerId, topic).value
                           && f.id == g.id :: f == g
    requires TotalOrder(le) && Antisymmetric(le)
    ensures Prepared(kv, brokerId, topic, message, l, parse, evaluate, le).Ok?
        <==> Prepared(kv, brokerId, topic, message, l', parse, evaluate, le).Ok?
    ensures Candidates(l).Ok? ==>
      Prepared(kv, brokerId, topic, message, l, parse, evaluate, le) == Prepared(kv, brokerId, topic, message, l', parse, evaluate, le)
  {
    var s := IndexedFlows(kv, brokerId, topic).value;
    CandidatesIgnoreListingOrder(l, l', s);
    var payload := KafkaPayload(topic, message, brokerId, parse);
    if Candidates(l).Ok? && payload.Ok? {
      SelectionIgnoresListingOrder(Candidates(l).value, Candidates(l').value, payload.value, evaluate, le);
    }
  }

  class Service {
    const elements: ElementService.Service
    const flows: MockFlowStorage.FlowStorage
    const executor: AsyncFlowExecutor.Executor
    /** The SpEL evaluation of a condition over the payload; `None` when it throws. */
    const evaluate: (string, Value) -> Option<bool>
    /** `UUID.compareTo(a, b) <= 0` on the ids as they are stored. */
    const uuidLe: (string, string) -> bool

    constructor (elements: ElementService.Service, flows: MockFlowStorage.FlowStorage, executor: AsyncFlowExecutor.Executor,
                 evaluate: (string, Value) -> Option<bool>, uuidLe: (string, string) -> bool)
      ensures this.elements == elements && this.flows == flows && this.executor == executor
      ensures this.evaluate == evaluate && this.uuidLe == uuidLe
    {
      this.elements := elements;
      this.flows := flows;
      this.executor := executor;
      this.evaluate := evaluate;
      this.uuidLe := uuidLe;
    }

    /** The service, the executor and the variable steps share one flow storage over one RocksDB. */
    predicate Wired() {
      executor.elements == elements && executor.flows == flows && flows.db == elements.variables.db && elements.Separate()
    }

    /**
     * `processKafkaMessage`: a message that finds no flow, or whose flow
     * has no KAFKA_TRIGGER step, fails before any step runs; otherwise the
     * payload is put in a fresh context at the trigger's order number and
     * the steps after the trigger run over it, reading the flow again by
     * its id. `listing` is the order the stream visited the indexed flows in.
     */
    method ProcessKafkaMessage(brokerId: Option<string>, topic: Option<string>, message: Option<string>)
      returns (r: Result<()>, ghost listing: seq<MockFlow>)
      requires Wired() && elements.variables.db.Valid()
      modifies elements.placeholders.uuids, elements.variables.db
      ensures elements.variables.db.Valid()
      ensures KafkaPayload(topic, message, brokerId, elements.parse).Ok? && old(IndexedFlows(flows.db.kv, brokerId, topic)).Ok? ==>
        IsListing(listing, old(IndexedFlows(flows.db.kv, brokerId, topic)).value)
      ensures var p := Prepared(old(flows.db.kv), brokerId, topic, message, listing, elements.parse, evaluate, uuidLe);
        p.Err? || TriggerOrder(p.value.flow).Err? ==>
          r == (if p.Err? then Err(p.error) else Err(IllegalState))
          && elements.placeholders.uuids.next == old(elements.placeholders.uuids.next)
          && elements.variables.db.kv == old(elements.variables.db.kv)
      ensures var p := Prepared(old(flows.db.kv), brokerId, topic, message, listing, elements.parse, evaluate, uuidLe);
        p.Ok? && TriggerOrder(p.value.flow).Ok? ==>
          var o := AsyncFlowExecutor.AfterTriggerRun(MockFlowStorage.FlowAt(old(flows.db.kv), FormatNullable(p.value.flow.id)),
                                                     KAFKA_TRIGGER, old(elements.placeholders.globals.common.db.kv),
                                                     elements.placeholders.uuids.supply, elements.placeholders.spel,
                                                     map[TriggerOrder(p.value.flow).value := p.value.payload],
                                                     old(elements.placeholders.uuids.next), old(elements.variables.db.kv),
                                                     elements.parse);
          r == Ok(()) && elements.placeholders.uuids.next == o.next && elements.variables.db.kv == o.vars
    {
      var t;
      t, listing := Prepare(brokerId, topic, message);
      if t.Err? {
        return Err(t.error), listing;
      }
      var context := new Context();
      r := Fire(t.value, context);
    }

    /** The second half of `processKafkaMessage`: the payload is stored in the context, then the steps after the trigger are started. */
    method Fire(t: Trigger, ctx: Context) returns (r: Result<()>)
      requires Wired() && elements.variables.db.Valid()
      modifies ctx, elements.placeholders.uuids, elements.variables.db
      ensures elements.variables.db.Valid()
      ensures TriggerOrder(t.flow).Err? ==>
        r == Err(IllegalState) && elements.placeholders.uuids.next == old(elements.placeholders.uuids.next)
        && elements.variables.db.kv == old(elements.variables.db.kv)
      ensures TriggerOrder(t.flow).Ok? ==>
        var o := AsyncFlowExecutor.AfterTriggerRun(MockFlowStorage.FlowAt(old(flows.db.kv), FormatNullable(t.flow.id)),
                                                   KAFKA_TRIGGER, old(elements.placeholders.globals.common.db.kv),
                                                   elements.placeholders.uuids.supply, elements.placeholders.spel,
                                                   old(ctx.entries)[TriggerOrder(t.flow).value := t.payload],
                                                   old(elements.placeholders.uuids.next), old(elements.variables.db.kv),
                                                   elements.parse);
        r == Ok(()) && elements.placeholders.uuids.next == o.next && elements.variables.db.kv == o.vars
    {
      var stored := SetTriggerContext(t.flow, t.payload, ctx);
      if stored.Err? {
        return Err(stored.error);
      }
      var _ := executor.RunElementsAfterTrigger(FormatNullable(t.flow.id), KAFKA_TRIGGER, ctx);
      r := Ok(());
    }

    /** The first half of `processKafkaMessage`: the message is parsed into the payload, then the flow is found. */
    method Prepare(brokerId: Option<string>, topic: Option<string>, message: Option<string>)
      returns (r: Result<Trigger>, ghost listing: seq<MockFlow>)
      ensures KafkaPayload(topic, message, brokerId, elements.parse).Ok? && IndexedFlows(flows.db.kv, brokerId, topic).Ok? ==>
        IsListing(listing, IndexedFlows(flows.db.kv, brokerId, topic).value)
      ensures r == Prepared(flows.db.kv, brokerId, topic, message, listing, elements.parse, evaluate, uuidLe)
    {
      listing := [];
      var payload := KafkaPayload(topic, message, brokerId, elements.parse);
      if payload.Err? {
        return Err(payload.error), listing;
      }
      var flow;
      flow, listing := FindMock(brokerId, topic, payload.value);
      if flow.Err? {
        return Err(flow.error), listing;
      }
      return Ok(Trigger(flow.value, payload.value)), listing;
    }

    /** `setTriggerContext`: the payload goes in at the order number of the first KAFKA_TRIGGER step. */
    method SetTriggerContext(flow: MockFlow, payload: Value, ctx: Context) returns (r: Result<()>)
      modifies ctx
      ensures TriggerOrder(flow).Err? ==> r == Err(IllegalState) && ctx.entries == old(ctx.entries)
      ensures TriggerOrder(flow).Ok? ==> r == Ok(()) && ctx.entries == old(ctx.entries)[TriggerOrder(flow).value := payload]
    {
      var order := TriggerOrder(flow);
      if order.Err? {
        return Err(order.error);
      }
      ctx.Put(order.value, payload);
      return Ok(());
    }

    /** `findMock`: the chosen candidate's flow, read again by its id; 404 MOCK_NOT_FOUND when it is gone. */
    method FindMock(brokerId: Option<string>, topic: Option<string>, payload: Value)
      returns (r: Result<MockFlow>, ghost listing: seq<MockFlow>)
      ensures var found := IndexedFlows(flows.db.kv, brokerId, topic);
        found.Err? ==> r == Err(IllegalState)
      ensures var found := IndexedFlows(flows.db.kv, brokerId, topic);
        found.Ok? ==> IsListing(listing, found.value)
      ensures var found := IndexedFlows(flows.db.kv, brokerId, topic);
        found.Ok? ==>
          var m := (var cs :- Candidates(listing); Chosen(cs, payload, evaluate, uuidLe));
          r == (var c :- m; var f :- MockFlowStorage.FlowAt(flows.db.kv, FormatNullable(c.id));
                if f.None? then Err(MOCK_NOT_FOUND) else Ok(f.value))
    {
      var mockMatch;
      mockMatch, listing := FindMockFlow(brokerId, topic, payload);
      if mockMatch.Err? {
        return Err(mockMatch.error), listing;
      }
      var flow := flows.FindById(FormatNullable(mockMatch.value.id));
      if flow.Err? {
        return Err(flow.error), listing;
      }
      if flow.value.None? {
        return Err(MOCK_NOT_FOUND), listing;
      }
      return Ok(flow.value.value), listing;
    }

    /**
     * `findMockFlow`: the indexed flows, visited in some order, become
     * candidates; none is 404; two or more are sorted by id; the loop
     * returns the first eligible one, and 404 when there is none.
     */
    method FindMockFlow(brokerId: Option<string>, topic: Option<string>, payload: Value)
      returns (r: Result<FlowMatchResult>, ghost listing: seq<MockFlow>)
      ensures var found := IndexedFlows(flows.db.kv, brokerId, topic);
        found.Err? ==> r == Err(IllegalState)
      ensures var found := IndexedFlows(flows.db.kv, brokerId, topic);
        found.Ok? ==> IsListing(listing, found.value)
      ensures var found := IndexedFlows(flows.db.kv, brokerId, topic);
        found.Ok? ==> r == (var cs :- Candidates(listing); Chosen(cs, payload, evaluate, uuidLe))
    {
      listing := [];
      var found := flows.FindByKafkaTrigger(FormatNullable(brokerId), FormatNullable(topic));
      if found.Err? {
        return Err(IllegalState), listing;
      }
      var visited := InSomeOrder(found.value);
      listing := visited;
      var candidates := Candidates(visited);
      if candidates.Err? {
        return Err(candidates.error), listing;
      }
      r := KafkaSelection.Choose(candidates.value, payload, evaluate, uuidLe);
    }
  }
}
