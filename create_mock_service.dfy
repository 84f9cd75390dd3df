/**
 * CreateMockService of the repository generation: `upsert` validates the
 * request, takes the stored flow or builds a new one (parsing the group id
 * only then), replaces its steps with the converted ones, saves it and
 * starts its listener. Unlike MockFlowService it deletes nothing first and
 * stops no listener.
 */
module CreateMockService {
  import opened JavaLang
  import opened Values
  import opened Records
  import opened RuntimeKafkaListenerManager
  import opened KafkaListenerLifecycleService
  import opened RepositoryKafkaListenerLifecycleService
  import opened FlowStepMapping
  import ValidationService
  import MockFlowRepository
  import MockFlowService
  import RocksStore

  /**
   * The flow before its steps are replaced: the stored one, or a new one
   * under `mockId` whose group is the request's group id read as a UUID;
   * that read throws only for a new flow.
   */
  function BaseFlow(stored: Option<MockFlow>, mockId: string, groupId: Option<string>): (r: Result<MockFlow>)
    ensures stored.Some? ==> r == Ok(stored.value)
    ensures stored.None? && groupId.None? ==> r == Err(NullPointer)
    ensures stored.None? && groupId.Some? ==>
      var read := UuidFromString(groupId.value);
      (r.Ok? <==> read.Ok?)
      && (r.Ok? ==> r.value.id == Some(mockId) && r.value.elements == [] && r.value.groupId == Some(read.value))
      && (r.Err? ==> r.error == read.error)
  {
    if stored.Some? then Ok(stored.value)
    else if groupId.None? then Err(NullPointer)
    else
      var group :- UuidFromString(groupId.value);
      Ok(MockFlow(Some(mockId), Some(group), []))
  }

  /** A new flow under a group id in canonical form belongs to that group, written in lower case. */
  lemma NewFlowKeepsCanonicalGroup(mockId: string, groupId: string)
    requires IsCanonicalUuid(groupId)
    ensures BaseFlow(None, mockId, Some(groupId)) == Ok(MockFlow(Some(mockId), Some(LowerCase(groupId)), []))
  {
    UuidOfCanonical(groupId);
  }

  /**
   * What `upsert` does once the request is valid, given the store, the
   * registry, the id counter and the broker store before and after: a
   * group id that does not parse, or steps that fail to convert, store and
   * start nothing; otherwise the base flow with the converted steps is
   * saved and started.
   */
  ghost predicate Created(kv0: map<string, RocksStore.Stored>, kv: map<string, RocksStore.Stored>,
                          c0: map<string, Container>, c: map<string, Container>, mockId: string, steps: seq<Entries>,
                          groupId: Option<string>, supply: nat -> string, next0: nat, next: nat,
                          brokers: map<string, RocksStore.Stored>, r: Result<()>)
  {
    var base := BaseFlow(MockFlowRepository.FlowAt(kv0, mockId), mockId, groupId);
    var conversion := Converted(steps, supply, next0);
    (base.Err? ==> r == Err(base.error) && next == next0 && kv == kv0 && c == c0)
    && (base.Ok? ==> next == conversion.next)
    && (base.Ok? && conversion.elements.Err? ==> r == Err(conversion.elements.error) && kv == kv0 && c == c0)
    && (base.Ok? && conversion.elements.Ok? ==>
          var flow := WithElements(base.value, conversion.elements.value);
          flow.id.Some?
          && MockFlowService.SavedAndStarted(kv0, kv, c0, c, flow, TriggerWith(flow, RepositoryBroker(brokers)), r))
  }

  /**
   * Creating keeps every listener that was running: the registry only
   * gains the saved flow's listener, and the flow reads back under its id.
   */
  lemma CreateKeepsListeners(kv0: map<string, RocksStore.Stored>, kv: map<string, RocksStore.Stored>,
                             c0: map<string, Container>, c: map<string, Container>, mockId: string, steps: seq<Entries>,
                             groupId: Option<string>, supply: nat -> string, next0: nat, next: nat,
                             brokers: map<string, RocksStore.Stored>, r: Result<()>)
    requires Created(kv0, kv, c0, c, mockId, steps, groupId, supply, next0, next, brokers, r)
    requires var stored := MockFlowRepository.FlowAt(kv0, mockId); stored.Some? ==> stored.value.id == Some(mockId)
    ensures Extends(c0, c)
    ensures var base := BaseFlow(MockFlowRepository.FlowAt(kv0, mockId), mockId, groupId);
      var conversion := Converted(steps, supply, next0);
      base.Ok? && conversion.elements.Ok? ==>
        MockFlowRepository.FlowAt(kv, mockId) == Some(WithElements(base.value, conversion.elements.value))
  {
    var base := BaseFlow(MockFlowRepository.FlowAt(kv0, mockId), mockId, groupId);
    var conversion := Converted(steps, supply, next0);
    if base.Ok? && conversion.elements.Ok? {
      MockFlowRepository.SaveThenFindById(kv0, WithElements(base.value, conversion.elements.value));
    }
  }

  class Service {
    const flows: MockFlowRepository.FlowRepository
    const lifecycle: RepositoryKafkaListenerLifecycleService.Service
    const uuids: IdSource

    constructor (flows: MockFlowRepository.FlowRepository, lifecycle: RepositoryKafkaListenerLifecycleService.Service, uuids: IdSource)
      ensures this.flows == flows && this.lifecycle == lifecycle && this.uuids == uuids
    {
      this.flows := flows;
      this.lifecycle := lifecycle;
      this.uuids := uuids;
    }

    /**
     * `upsert`: a request that fails validation reads, stores and starts
     * nothing; a valid one goes on as Created says.
     */
    method Upsert(mockId: string, request: CreateMockRequest) returns (r: Result<()>)
      requires lifecycle.manager.Valid() && flows.common.db.Valid()
      requires var stored := MockFlowRepository.FlowAt(flows.common.db.kv, mockId); stored.Some? ==> stored.value.id.Some?
      modifies uuids, flows.common.db, lifecycle.manager
      ensures lifecycle.manager.Valid() && flows.common.db.Valid()
      ensures ValidationService.Verdict(request).Err? ==>
        r == ValidationService.Verdict(request) && uuids.next == old(uuids.next)
        && flows.common.db.kv == old(flows.common.db.kv) && lifecycle.manager.containers == old(lifecycle.manager.containers)
      ensures ValidationService.Verdict(request).Ok? ==>
        request.flowSteps.Some? && Created(old(flows.common.db.kv), flows.common.db.kv, old(lifecycle.manager.containers),
                                           lifecycle.manager.containers, mockId, request.flowSteps.value, request.groupId,
                                           uuids.supply, old(uuids.next), uuids.next, lifecycle.brokers.common.db.kv, r)
    {
      var v := ValidationService.Validate(request);
      if v.Err? {
        return v;
      }
      r := Apply(mockId, request.flowSteps.value, request.groupId);
    }

    /** The part of `upsert` after validation. */
    method Apply(mockId: string, steps: seq<Entries>, groupId: Option<string>) returns (r: Result<()>)
      requires lifecycle.manager.Valid() && flows.common.db.Valid()
      requires var stored := MockFlowRepository.FlowAt(flows.common.db.kv, mockId); stored.Some? ==> stored.value.id.Some?
      modifies uuids, flows.common.db, lifecycle.manager
      ensures lifecycle.manager.Valid() && flows.common.db.Valid()
      ensures Created(old(flows.common.db.kv), flows.common.db.kv, old(lifecycle.manager.containers), lifecycle.manager.containers,
                      mockId, steps, groupId, uuids.supply, old(uuids.next), uuids.next, lifecycle.brokers.common.db.kv, r)
    {
      var existing := flows.FindById(Some(mockId));
      var base := BaseFlow(existing, mockId, groupId);
      if base.Err? {
        return Err(base.error);
      }
      var es := ConvertSteps(steps, uuids);
      if es.Err? {
        return Err(es.error);
      }
      var flow := WithElements(base.value, es.value);
      r := SaveAndStart(flow);
    }

    /** `save(flow)` then `startIfExists(flow)`; a failed save starts nothing. */
    method SaveAndStart(flow: MockFlow) returns (r: Result<()>)
      requires lifecycle.manager.Valid() && flows.common.db.Valid() && flow.id.Some?
      modifies flows.common.db, lifecycle.manager
      ensures lifecycle.manager.Valid() && flows.common.db.Valid()
      ensures MockFlowService.SavedAndStarted(old(flows.common.db.kv), flows.common.db.kv, old(lifecycle.manager.containers),
                                              lifecycle.manager.containers, flow,
                                              TriggerWith(flow, RepositoryBroker(lifecycle.brokers.common.db.kv)), r)
    {
      var saved := flows.Save(flow);
      if saved.Err? {
        return Err(saved.error);
      }
      r := lifecycle.StartIfExists(flow);
    }
  }
}
