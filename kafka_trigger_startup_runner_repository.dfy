/**
 * KafkaTriggerStartupRunner of the repository generation: the trigger
 * projections `findAllKafkaTrigger` lists are walked in order; each id
 * that still names a stored flow has that flow offered to
 * `startIfExists`, a failure of which is swallowed. `findAllKafkaTrigger`
 * is declared nowhere in the repository, so its outcome is a parameter.
 */
module RepositoryKafkaTriggerStartupRunner {
  import opened JavaLang
  import opened Records
  import opened RuntimeKafkaListenerManager
  import opened KafkaListenerLifecycleService
  import opened RepositoryKafkaListenerLifecycleService
  import MockFlowRepository
  import RocksDbRepository
  import RocksStore

  /** The flow stored under a projection's id, as `findById` reads it. */
  function MatchedFlow(kv: map<string, RocksStore.Stored>, m: FlowMatchResult): Option<MockFlow> {
    RocksDbRepository.Find(kv, MockFlowRepository.FlowKey(m.id), RocksStore.AsFlow)
  }

  /** The key a projection leads to: that of its stored flow, when there is one and its trigger resolves. */
  function MatchKey(kv: map<string, RocksStore.Stored>, brokerKv: map<string, RocksStore.Stored>, m: FlowMatchResult): Option<string> {
    var flow := MatchedFlow(kv, m);
    if flow.Some? then StartedKeyWith(flow.value, RepositoryBroker(brokerKv)) else None
  }

  /** The keys walking the projections registers, failures and missing flows skipped. */
  function MatchKeys(kv: map<string, RocksStore.Stored>, brokerKv: map<string, RocksStore.Stored>, ms: seq<FlowMatchResult>): set<string> {
    Collected(ms, m => MatchKey(kv, brokerKv, m))
  }

  /** A key is registered exactly when some listed id names a stored flow whose trigger resolves to it. */
  lemma MatchKeysAreKeysOfStoredFlows(kv: map<string, RocksStore.Stored>, brokerKv: map<string, RocksStore.Stored>, ms: seq<FlowMatchResult>)
    ensures forall k :: k in MatchKeys(kv, brokerKv, ms) <==>
      exists i | 0 <= i < |ms| :: MatchedFlow(kv, ms[i]).Some? && StartedKeyWith(MatchedFlow(kv, ms[i]).value, RepositoryBroker(brokerKv)) == Some(k)
  {
    CollectedAreKeysOfElements(ms, m => MatchKey(kv, brokerKv, m));
  }

  /** One more projection adds its own key, if it has one, and nothing else. */
  lemma MatchKeysStep(kv: map<string, RocksStore.Stored>, brokerKv: map<string, RocksStore.Stored>, ms: seq<FlowMatchResult>, i: nat)
    requires i < |ms|
    ensures var k := MatchKey(kv, brokerKv, ms[i]);
      MatchKeys(kv, brokerKv, ms[..i + 1]) == MatchKeys(kv, brokerKv, ms[..i]) + (if k.Some? then {k.value} else {})
  {
    assert ms[..i + 1][..i] == ms[..i];
  }

  class Runner {
    const flows: MockFlowRepository.FlowRepository
    const lifecycle: RepositoryKafkaListenerLifecycleService.Service

    constructor (flows: MockFlowRepository.FlowRepository, lifecycle: RepositoryKafkaListenerLifecycleService.Service)
      ensures this.flows == flows && this.lifecycle == lifecycle
    {
      this.flows := flows;
      this.lifecycle := lifecycle;
    }

    /**
     * `run`, given what `findAllKafkaTrigger` returned or threw: an
     * exception touches no listener; otherwise the registry gains exactly
     * the keys the listed projections lead to and keeps every listener it
     * had.
     */
    method Run(allKafkaTriggers: Result<seq<FlowMatchResult>>)
      requires lifecycle.manager.Valid()
      modifies lifecycle.manager
      ensures lifecycle.manager.Valid()
      ensures allKafkaTriggers.Err? ==> lifecycle.manager.containers == old(lifecycle.manager.containers)
      ensures allKafkaTriggers.Ok? ==>
        lifecycle.manager.containers.Keys
          == old(lifecycle.manager.containers).Keys + MatchKeys(flows.common.db.kv, lifecycle.brokers.common.db.kv, allKafkaTriggers.value)
      ensures Extends(old(lifecycle.manager.containers), lifecycle.manager.containers)
    {
      if allKafkaTriggers.Err? {
        return;
      }
      var ms := allKafkaTriggers.value;
      ghost var kv := flows.common.db.kv;
      ghost var brokerKv := lifecycle.brokers.common.db.kv;
      ghost var start := lifecycle.manager.containers;
      for i := 0 to |ms|
        invariant lifecycle.manager.Valid()
        invariant flows.common.db.kv == kv && lifecycle.brokers.common.db.kv == brokerKv
        invariant lifecycle.manager.containers.Keys == start.Keys + MatchKeys(kv, brokerKv, ms[..i])
        invariant Extends(start, lifecycle.manager.containers)
      {
        ghost var before := lifecycle.manager.containers;
        StartMatched(ms[i]);
        MatchKeysStep(kv, brokerKv, ms, i);
        ExtendsTransitive(start, before, lifecycle.manager.containers);
      }
      assert ms[..|ms|] == ms;
    }

    /** The `forEach` body: `findById(id).ifPresent(startIfExists)`, an exception caught. */
    method StartMatched(m: FlowMatchResult)
      requires lifecycle.manager.Valid()
      modifies lifecycle.manager
      ensures lifecycle.manager.Valid()
      ensures var k := MatchKey(flows.common.db.kv, lifecycle.brokers.common.db.kv, m);
        lifecycle.manager.containers.Keys == old(lifecycle.manager.containers).Keys + (if k.Some? then {k.value} else {})
      ensures Extends(old(lifecycle.manager.containers), lifecycle.manager.containers)
    {
      var flow := flows.FindById(m.id);
      if flow.Some? {
        var _ := lifecycle.StartIfExists(flow.value);
      }
    }
  }
}
