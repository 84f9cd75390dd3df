/**
 * MockFlowService of the repository generation: `upsert` validates the
 * request, converts its steps, and, for a flow that is already stored,
 * stops its listener and deletes it before saving the new version and
 * starting its listener; `getByMockId` lists a flow's steps back in order
 * number order; `delete` stops the listener and deletes the flow.
 * The service passes the flow id as a String to `findById`, which is
 * declared over a UUID; the model reads the id's text.
 */
module MockFlowService {
  import opened JavaLang
  import opened Values
  import opened Records
  import opened RuntimeKafkaListenerManager
  import opened KafkaListenerLifecycleService
  import opened RepositoryKafkaListenerLifecycleService
  import opened FlowStepMapping
  import ValidationService
  import MockFlowRepository
  import RocksStore

  /**
   * The flow `upsert` saves: the stored one keeps its id and group, a new
   * one takes the path's id and the request's group; the converted steps
   * replace the elements either way.
   */
  function Target(existing: Option<MockFlow>, mockId: string, groupId: Option<string>, es: seq<FlowElement>): MockFlow {
    if existing.Some? then WithElements(existing.value, es) else MockFlow(Some(mockId), groupId, es)
  }

  /** Whether the private `delete(id, flow)` runs and gets past `stopIfExists`. */
  predicate Unstopped(existing: bool, stop: Result<Option<TriggerInfo>>) {
    existing && stop.Err?
  }

  /**
   * The store after `upsert` saved `flow`: untouched when the stop threw;
   * otherwise the stored version deleted first, when there was one, and
   * the new one saved unless that delete threw.
   */
  function StoreAfterUpsert(kv: map<string, RocksStore.Stored>, mockId: string, flow: MockFlow, existing: bool,
                            stop: Result<Option<TriggerInfo>>): map<string, RocksStore.Stored>
    requires flow.id.Some?
  {
    if Unstopped(existing, stop) then kv
    else if existing && MockFlowRepository.DeleteOutcome(kv, mockId).Err? then MockFlowRepository.DeletedStore(kv, mockId)
    else MockFlowRepository.SavedStore(if existing then MockFlowRepository.DeletedStore(kv, mockId) else kv, flow)
  }

  /** Whether `upsert` gets as far as `startIfExists`. */
  predicate Saved(kv: map<string, RocksStore.Stored>, mockId: string, flow: MockFlow, existing: bool, stop: Result<Option<TriggerInfo>>) {
    !Unstopped(existing, stop)
    && !(existing && MockFlowRepository.DeleteOutcome(kv, mockId).Err?)
    && MockFlowRepository.SaveOutcome(flow).Ok?
  }

  /** The exception `upsert` ends with after conversion, in the order its steps run. */
  function UpsertOutcome(kv: map<string, RocksStore.Stored>, mockId: string, flow: MockFlow, existing: bool,
                         stop: Result<Option<TriggerInfo>>, start: Result<Option<TriggerInfo>>): Result<()> {
    if Unstopped(existing, stop) then Err(stop.error)
    else if existing && MockFlowRepository.DeleteOutcome(kv, mockId).Err? then MockFlowRepository.DeleteOutcome(kv, mockId)
    else if MockFlowRepository.SaveOutcome(flow).Err? then Err(MockFlowRepository.SaveOutcome(flow).error)
    else if start.Err? then Err(start.error)
    else Ok(())
  }

  /** The listener key `upsert` stops: that of the flow's new steps, when the stored version exists. */
  function StoppedKeys(existing: bool, stop: Result<Option<TriggerInfo>>): set<string> {
    if existing then TriggerKeys(stop) else {}
  }

  /**
   * What the part of `upsert` after conversion does to the store and the
   * listener registry, and what it returns, given the triggers the stop
   * and the start resolve: the registry loses at most the stopped key,
   * gains at most the started one, and keeps every other listener.
   */
  ghost predicate StoreEffect(kv0: map<string, RocksStore.Stored>, kv: map<string, RocksStore.Stored>,
                              c0: map<string, Container>, c: map<string, Container>, mockId: string, flow: MockFlow,
                              existing: bool, stop: Result<Option<TriggerInfo>>, start: Result<Option<TriggerInfo>>, r: Result<()>)
    requires flow.id.Some?
  {
    kv == StoreAfterUpsert(kv0, mockId, flow, existing, stop)
    && r == UpsertOutcome(kv0, mockId, flow, existing, stop, start)
    && c.Keys == (c0.Keys - StoppedKeys(existing, stop)) + (if Saved(kv0, mockId, flow, existing, stop) then TriggerKeys(start) else {})
    && Extends(c0 - StoppedKeys(existing, stop), c)
  }

  /**
   * What `upsert` does once the request is valid, given the store, the
   * registry, the id counter and the broker store before and after: steps
   * that fail to convert store and stop nothing; otherwise the stored flow,
   * or a new one under `mockId` and `groupId`, takes the converted steps
   * and is stored as StoreEffect says, the stop resolving the trigger
   * against the brokers before and the start against those after.
   */
  ghost predicate Applied(kv0: map<string, RocksStore.Stored>, kv: map<string, RocksStore.Stored>,
                          c0: map<string, Container>, c: map<string, Container>, mockId: string, steps: seq<Entries>,
                          groupId: Option<string>, supply: nat -> string, next0: nat, next: nat,
                          brokers0: map<string, RocksStore.Stored>, brokers: map<string, RocksStore.Stored>, r: Result<()>)
  {
    var conversion := Converted(steps, supply, next0);
    next == conversion.next
    && (conversion.elements.Err? ==> r == Err(conversion.elements.error) && kv == kv0 && c == c0)
    && (conversion.elements.Ok? ==>
          var stored := MockFlowRepository.FlowAt(kv0, mockId);
          var flow := Target(stored, mockId, groupId, conversion.elements.value);
          flow.id.Some?
          && StoreEffect(kv0, kv, c0, c, mockId, flow, stored.Some?, TriggerWith(flow, RepositoryBroker(brokers0)),
                         TriggerWith(flow, RepositoryBroker(brokers)), r))
  }

  /** A conversion that succeeds followed by the store of the target flow is what `upsert` does past validation. */
  lemma AppliedByStore(kv0: map<string, RocksStore.Stored>, kv: map<string, RocksStore.Stored>,
                       c0: map<string, Container>, c: map<string, Container>, mockId: string, steps: seq<Entries>,
                       groupId: Option<string>, supply: nat -> string, next0: nat, next: nat,
                       brokers0: map<string, RocksStore.Stored>, brokers: map<string, RocksStore.Stored>, r: Result<()>,
                       es: seq<FlowElement>)
    requires Converted(steps, supply, next0).elements == Ok(es) && next == Converted(steps, supply, next0).next
    requires var stored := MockFlowRepository.FlowAt(kv0, mockId); var flow := Target(stored, mockId, groupId, es);
      flow.id.Some?
      && StoreEffect(kv0, kv, c0, c, mockId, flow, stored.Some?, TriggerWith(flow, RepositoryBroker(brokers0)),
                     TriggerWith(flow, RepositoryBroker(brokers)), r)
    ensures Applied(kv0, kv, c0, c, mockId, steps, groupId, supply, next0, next, brokers0, brokers, r)
  {
  }

  /** What `save` then `startIfExists` do to a store and a registry, given the trigger the start resolves. */
  ghost predicate SavedAndStarted(kv0: map<string, RocksStore.Stored>, kv: map<string, RocksStore.Stored>,
                                  c0: map<string, Container>, c: map<string, Container>, flow: MockFlow,
                                  start: Result<Option<TriggerInfo>>, r: Result<()>)
    requires flow.id.Some?
  {
    kv == MockFlowRepository.SavedStore(kv0, flow)
    && (MockFlowRepository.SaveOutcome(flow).Err? ==> r == Err(MockFlowRepository.SaveOutcome(flow).error) && c == c0)
    && (MockFlowRepository.SaveOutcome(flow).Ok? ==>
          (r == if start.Err? then Err(start.error) else Ok(()))
          && c.Keys == c0.Keys + TriggerKeys(start) && Extends(c0, c))
  }

  /** Storing a new flow is saving and starting it. */
  lemma NewEffect(kv0: map<string, RocksStore.Stored>, kv: map<string, RocksStore.Stored>,
                  c0: map<string, Container>, c: map<string, Container>, mockId: string, flow: MockFlow,
                  stop: Result<Option<TriggerInfo>>, start: Result<Option<TriggerInfo>>, r: Result<()>)
    requires flow.id.Some? && SavedAndStarted(kv0, kv, c0, c, flow, start, r)
    ensures StoreEffect(kv0, kv, c0, c, mockId, flow, false, stop, start, r)
  {
  }

  /**
   * Storing a stored flow is the private `delete` (stop, then delete),
   * followed, when that did not throw, by saving and starting it.
   */
  lemma ReplaceEffect(kv0: map<string, RocksStore.Stored>, kv1: map<string, RocksStore.Stored>, kv: map<string, RocksStore.Stored>,
                      c0: map<string, Container>, c1: map<string, Container>, c: map<string, Container>, mockId: string,
                      flow: MockFlow, stop: Result<Option<TriggerInfo>>, start: Result<Option<TriggerInfo>>, r1: Result<()>, r: Result<()>)
    requires flow.id.Some?
    requires stop.Err? ==> r1 == Err(stop.error) && kv1 == kv0 && c1 == c0
    requires stop.Ok? ==>
      r1 == MockFlowRepository.DeleteOutcome(kv0, mockId) && kv1 == MockFlowRepository.DeletedStore(kv0, mockId)
      && c1 == c0 - TriggerKeys(stop)
    requires r1.Err? ==> r == r1 && kv == kv1 && c == c1
    requires r1.Ok? ==> SavedAndStarted(kv1, kv, c1, c, flow, start, r)
    ensures StoreEffect(kv0, kv, c0, c, mockId, flow, true, stop, start, r)
  {
  }

  /**
   * A flow `upsert` got as far as saving reads back under the path's id,
   * whether it replaced a stored version or not.
   */
  lemma UpsertThenFind(kv: map<string, RocksStore.Stored>, mockId: string, flow: MockFlow, existing: bool,
                       stop: Result<Option<TriggerInfo>>)
    requires flow.id == Some(mockId) && Saved(kv, mockId, flow, existing, stop)
    ensures MockFlowRepository.FlowAt(StoreAfterUpsert(kv, mockId, flow, existing, stop), mockId) == Some(flow)
  {
    MockFlowRepository.SaveThenFindById(if existing then MockFlowRepository.DeletedStore(kv, mockId) else kv, flow);
  }

  /**
   * On update the stop reads the new steps, so the listener of a trigger
   * the update removed or changed keeps running afterwards: any listener
   * other than the new trigger's survives a successful update.
   */
  lemma UpdateKeepsOldListener(before: map<string, Container>, after: map<string, Container>,
                               stop: Result<Option<TriggerInfo>>, start: Result<Option<TriggerInfo>>, k: string)
    requires after.Keys == (before.Keys - StoppedKeys(true, stop)) + TriggerKeys(start)
    requires Extends(before - StoppedKeys(true, stop), after)
    requires k in before && k !in TriggerKeys(stop)
    ensures k in after && after[k] == before[k]
  {
  }

  /**
   * The keys `upsert` evidently means to stop on an update: those of the
   * stored version's trigger, read before the new steps replace its
   * elements.
   */
  function IntendedStoppedKeys(stored: Option<MockFlow>, findBroker: string -> Result<Option<KafkaBroker>>): (ks: set<string>)
    ensures stored.None? ==> ks == {}
    ensures |ks| <= 1
    ensures forall k | k in ks :: exists t :: TriggerWith(stored.value, findBroker) == Ok(Some(t)) && k == ListenerKey(t)
  {
    if stored.Some? then TriggerKeys(TriggerWith(stored.value, findBroker)) else {}
  }

  /**
   * With the intended stop, the listener of the stored version's trigger
   * is gone after the update unless the new steps start that same key,
   * and every other listener is kept.
   */
  lemma UpdateStopsStoredListener(before: map<string, Container>, after: map<string, Container>, stored: MockFlow,
                                  findBroker: string -> Result<Option<KafkaBroker>>, start: Result<Option<TriggerInfo>>,
                                  t: TriggerInfo, k: string)
    requires after.Keys == (before.Keys - IntendedStoppedKeys(Some(stored), findBroker)) + TriggerKeys(start)
    requires Extends(before - IntendedStoppedKeys(Some(stored), findBroker), after)
    requires TriggerWith(stored, findBroker) == Ok(Some(t))
    ensures ListenerKey(t) in after <==> ListenerKey(t) in TriggerKeys(start)
    ensures k in before && k != ListenerKey(t) ==> k in after && after[k] == before[k]
  {
  }

  class Service {
    const flows: MockFlowRepository.FlowRepository
    const lifecycle: RepositoryKafkaListenerLifecycleService.Service
    const uuids: IdSource

    constructor (flows: MockFlowRepository.FlowRepository, lifecycle: RepositoryKafkaListenerLifecycleService.Service, uuids: IdSource)
      ensures this.flows == flows && this.lifecycle == lifecycle && this.uuids == uuids
    {
      this.flows := flows;
      this.lifecycle := lifecycle;
      this.uuids := uuids;
    }

    /**
     * `upsert`: a request that fails validation reads, stops and stores
     * nothing; one whose steps fail to convert stores and stops nothing
     * either. Otherwise the flow saved is the stored one (or a new one)
     * with the converted steps; for a stored flow the listener of the new
     * steps' trigger is stopped and the stored version deleted first. The
     * registry loses at most that listener and gains at most the saved
     * flow's, and every other listener is kept.
     */
    method Upsert(mockId: string, request: CreateMockRequest) returns (r: Result<()>)
      requires lifecycle.manager.Valid() && flows.common.db.Valid()
      requires var stored := MockFlowRepository.FlowAt(flows.common.db.kv, mockId); stored.Some? ==> stored.value.id.Some?
      modifies uuids, flows.common.db, lifecycle.manager, lifecycle.manager.containers.Values
      ensures lifecycle.manager.Valid() && flows.common.db.Valid()
      ensures ValidationService.Verdict(request).Err? ==>
        r == ValidationService.Verdict(request) && uuids.next == old(uuids.next)
        && flows.common.db.kv == old(flows.common.db.kv) && lifecycle.manager.containers == old(lifecycle.manager.containers)
      ensures ValidationService.Verdict(request).Ok? ==>
        request.flowSteps.Some? && Applied(old(flows.common.db.kv), flows.common.db.kv, old(lifecycle.manager.containers),
                                           lifecycle.manager.containers, mockId, request.flowSteps.value, request.groupId, uuids.supply,
                                           old(uuids.next), uuids.next, old(lifecycle.brokers.common.db.kv),
                                           lifecycle.brokers.common.db.kv, r)
    {
      var v := ValidationService.Validate(request);
      if v.Err? {
        return v;
      }
      r := Apply(mockId, request.flowSteps.value, request.groupId);
    }

    /** The part of `upsert` after validation: look the flow up, convert the steps, store. */
    method Apply(mockId: string, steps: seq<Entries>, groupId: Option<string>) returns (r: Result<()>)
      requires lifecycle.manager.Valid() && flows.common.db.Valid()
      requires var stored := MockFlowRepository.FlowAt(flows.common.db.kv, mockId); stored.Some? ==> stored.value.id.Some?
      modifies uuids, flows.common.db, lifecycle.manager, lifecycle.manager.containers.Values
      ensures lifecycle.manager.Valid() && flows.common.db.Valid()
      ensures Applied(old(flows.common.db.kv), flows.common.db.kv, old(lifecycle.manager.containers), lifecycle.manager.containers,
                      mockId, steps, groupId, uuids.supply, old(uuids.next), uuids.next, old(lifecycle.brokers.common.db.kv),
                      lifecycle.brokers.common.db.kv, r)
    {
      ghost var kv0, c0, next0 := flows.common.db.kv, lifecycle.manager.containers, uuids.next;
      ghost var brokers0 := lifecycle.brokers.common.db.kv;
      var existing := flows.FindById(Some(mockId));
      var es := ConvertSteps(steps, uuids);
      if es.Err? {
        return Err(es.error);
      }
      var flow := Target(existing, mockId, groupId, es.value);
      r := Store(mockId, flow, existing.Some?);
      AppliedByStore(kv0, flows.common.db.kv, c0, lifecycle.manager.containers, mockId, steps, groupId, uuids.supply,
                     next0, uuids.next, brokers0, lifecycle.brokers.common.db.kv, r, es.value);
    }

    /** The part of `upsert` after conversion: delete a stored version, save, start. */
    method Store(mockId: string, flow: MockFlow, existing: bool) returns (r: Result<()>)
      requires lifecycle.manager.Valid() && flows.common.db.Valid() && flow.id.Some?
      modifies flows.common.db, lifecycle.manager, lifecycle.manager.containers.Values
      ensures lifecycle.manager.Valid() && flows.common.db.Valid()
      ensures StoreEffect(old(flows.common.db.kv), flows.common.db.kv, old(lifecycle.manager.containers), lifecycle.manager.containers,
                          mockId, flow, existing, old(TriggerWith(flow, RepositoryBroker(lifecycle.brokers.common.db.kv))),
                          TriggerWith(flow, RepositoryBroker(lifecycle.brokers.common.db.kv)), r)
    {
      ghost var kv0, c0 := flows.common.db.kv, lifecycle.manager.containers;
      ghost var stop := TriggerWith(flow, RepositoryBroker(lifecycle.brokers.common.db.kv));
      if existing {
        var r1 := DeleteFlow(mockId, flow);
        if r1.Err? {
          ReplaceEffect(kv0, flows.common.db.kv, flows.common.db.kv, c0, lifecycle.manager.containers,
                        lifecycle.manager.containers, mockId, flow, stop, TriggerWith(flow, RepositoryBroker(lifecycle.brokers.common.db.kv)), r1, r1);
          return r1;
        }
        ghost var kv1, c1 := flows.common.db.kv, lifecycle.manager.containers;
        r := SaveAndStart(flow);
        ReplaceEffect(kv0, kv1, flows.common.db.kv, c0, c1, lifecycle.manager.containers, mockId, flow, stop,
                      TriggerWith(flow, RepositoryBroker(lifecycle.brokers.common.db.kv)), r1, r);
      } else {
        r := SaveAndStart(flow);
        NewEffect(kv0, flows.common.db.kv, c0, lifecycle.manager.containers, mockId, flow, stop,
                  TriggerWith(flow, RepositoryBroker(lifecycle.brokers.common.db.kv)), r);
      }
    }

    /**
     * The private `delete(id, flow)`: a trigger that fails to resolve
     * throws before anything is deleted; otherwise its listener is stopped
     * and the id deleted.
     */
    method DeleteFlow(id: string, flow: MockFlow) returns (r: Result<()>)
      requires lifecycle.manager.Valid() && flows.common.db.Valid()
      modifies flows.common.db, lifecycle.manager, lifecycle.manager.containers.Values
      ensures lifecycle.manager.Valid() && flows.common.db.Valid()
      ensures var stop := old(TriggerWith(flow, RepositoryBroker(lifecycle.brokers.common.db.kv)));
        stop.Err? ==>
          r == Err(stop.error) && flows.common.db.kv == old(flows.common.db.kv)
          && lifecycle.manager.containers == old(lifecycle.manager.containers)
      ensures var stop := old(TriggerWith(flow, RepositoryBroker(lifecycle.brokers.common.db.kv)));
        stop.Ok? ==>
          r == MockFlowRepository.DeleteOutcome(old(flows.common.db.kv), id)
          && flows.common.db.kv == MockFlowRepository.DeletedStore(old(flows.common.db.kv), id)
          && lifecycle.manager.containers == old(lifecycle.manager.containers) - TriggerKeys(stop)
    {
      r := lifecycle.StopIfExists(flow);
      if r.Err? {
        return;
      }
      r := flows.Delete(id);
    }

    /** `save(flow)` then `startIfExists(flow)`; a failed save starts nothing. */
    method SaveAndStart(flow: MockFlow) returns (r: Result<()>)
      requires lifecycle.manager.Valid() && flows.common.db.Valid() && flow.id.Some?
      modifies flows.common.db, lifecycle.manager
      ensures lifecycle.manager.Valid() && flows.common.db.Valid()
      ensures SavedAndStarted(old(flows.common.db.kv), flows.common.db.kv, old(lifecycle.manager.containers),
                              lifecycle.manager.containers, flow, TriggerWith(flow, RepositoryBroker(lifecycle.brokers.common.db.kv)), r)
    {
      var saved := flows.Save(flow);
      if saved.Err? {
        return Err(saved.error);
      }
      ghost var start := TriggerWith(flow, RepositoryBroker(lifecycle.brokers.common.db.kv));
      r := lifecycle.StartIfExists(flow);
    }

    /** `getByMockId`: 404 MOCK_NOT_FOUND for an unknown id, else the flow's steps in order number order. */
    method GetByMockId(mockId: string) returns (r: Result<seq<Entries>>)
      ensures var stored := MockFlowRepository.FlowAt(flows.common.db.kv, mockId);
        r == if stored.None? then Err(MOCK_NOT_FOUND) else Ok(DetailSteps(stored.value))
    {
      var flow := flows.FindById(Some(mockId));
      if flow.None? {
        return Err(MOCK_NOT_FOUND);
      }
      r := Ok(DetailSteps(flow.value));
    }

    /**
     * `delete`: 404 MOCK_NOT_FOUND for an unknown id, stopping and deleting
     * nothing; otherwise the stored flow's listener is stopped and the
     * flow deleted.
     */
    method Delete(id: string) returns (r: Result<()>)
      requires lifecycle.manager.Valid() && flows.common.db.Valid()
      modifies flows.common.db, lifecycle.manager, lifecycle.manager.containers.Values
      ensures lifecycle.manager.Valid() && flows.common.db.Valid()
      ensures var stored := old(MockFlowRepository.FlowAt(flows.common.db.kv, id));
        stored.None? ==>
          r == Err(MOCK_NOT_FOUND) && flows.common.db.kv == old(flows.common.db.kv)
          && lifecycle.manager.containers == old(lifecycle.manager.containers)
      ensures var stored := old(MockFlowRepository.FlowAt(flows.common.db.kv, id));
        stored.Some? ==>
        var stop := old(TriggerWith(stored.value, RepositoryBroker(lifecycle.brokers.common.db.kv)));
        stop.Err? ==>
          r == Err(stop.error) && flows.common.db.kv == old(flows.common.db.kv)
          && lifecycle.manager.containers == old(lifecycle.manager.containers)
      ensures var stored := old(MockFlowRepository.FlowAt(flows.common.db.kv, id));
        stored.Some? ==>
        var stop := old(TriggerWith(stored.value, RepositoryBroker(lifecycle.brokers.common.db.kv)));
        stop.Ok? ==>
          r == MockFlowRepository.DeleteOutcome(old(flows.common.db.kv), id)
          && flows.common.db.kv == MockFlowRepository.DeletedStore(old(flows.common.db.kv), id)
          && lifecycle.manager.containers == old(lifecycle.manager.containers) - TriggerKeys(stop)
    {
      var flow := flows.FindById(Some(id));
      if flow.None? {
        return Err(MOCK_NOT_FOUND);
      }
      r := DeleteFlow(id, flow.value);
    }
  }
}
