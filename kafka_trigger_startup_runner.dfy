/**
 * KafkaTriggerStartupRunner of the storage generation: at startup every
 * stored flow is offered to `startIfExists`, one by one in the order the
 * set's iterator visits them; a flow whose trigger fails is skipped, and a
 * failure to read the flows at all starts nothing.
 */
module KafkaTriggerStartupRunner {
  import opened JavaLang
  import opened Records
  import opened RuntimeKafkaListenerManager
  import opened KafkaListenerLifecycleService
  import opened KafkaSelection
  import MockFlowStorage
  import RocksStore
  import IdSets

  /** What `findAll` yields: every group's flows, or nothing when a read fails. */
  function StoredFlows(kv: map<string, RocksStore.Stored>): Option<set<MockFlow>> {
    var groups := IdSets.ReadSet(kv, MockFlowStorage.GROUP_PREFIX);
    if groups.Ok? && forall g | g in groups.value :: MockFlowStorage.GroupFlows(kv, Some(g)).Ok?
    then Some(MockFlowStorage.AllFlows(kv, groups.value))
    else None
  }

  class Runner {
    const flows: MockFlowStorage.FlowStorage
    const lifecycle: Service

    constructor (flows: MockFlowStorage.FlowStorage, lifecycle: Service)
      ensures this.flows == flows && this.lifecycle == lifecycle
    {
      this.flows := flows;
      this.lifecycle := lifecycle;
    }

    /**
     * `run`: when `findAll` fails no listener is touched; otherwise, for
     * the order `listing` in which the flows are visited, the registry
     * gains exactly the keys of the flows whose trigger resolves and keeps
     * every listener it had. Which keys are gained does not depend on that
     * order (`StartedKeysIgnoreOrder`).
     */
    method Run() returns (ghost listing: seq<MockFlow>)
      requires lifecycle.manager.Valid()
      modifies lifecycle.manager
      ensures lifecycle.manager.Valid()
      ensures old(StoredFlows(flows.db.kv)).None? ==> lifecycle.manager.containers == old(lifecycle.manager.containers)
      ensures old(StoredFlows(flows.db.kv)).Some? ==>
        IsListing(listing, old(StoredFlows(flows.db.kv)).value)
        && lifecycle.manager.containers.Keys == old(lifecycle.manager.containers).Keys + old(StartedKeysWith(listing, StorageBroker(lifecycle.brokers.db.kv)))
        && Extends(old(lifecycle.manager.containers), lifecycle.manager.containers)
    {
      listing := [];
      var all := flows.FindAll();
      if all.Err? {
        return;
      }
      var visited := InSomeOrder(all.value);
      listing := visited;
      StartAll(visited);
    }

    /** The `for` loop over the flows in the order visited. */
    method StartAll(visited: seq<MockFlow>)
      requires lifecycle.manager.Valid()
      modifies lifecycle.manager
      ensures lifecycle.manager.Valid()
      ensures lifecycle.manager.containers.Keys == old(lifecycle.manager.containers).Keys + StartedKeysWith(visited, StorageBroker(lifecycle.brokers.db.kv))
      ensures Extends(old(lifecycle.manager.containers), lifecycle.manager.containers)
    {
      ghost var kv := lifecycle.brokers.db.kv;
      ghost var start := lifecycle.manager.containers;
      for i := 0 to |visited|
        invariant lifecycle.manager.Valid()
        invariant lifecycle.brokers.db.kv == kv
        invariant lifecycle.manager.containers.Keys == start.Keys + StartedKeysWith(visited[..i], StorageBroker(kv))
        invariant Extends(start, lifecycle.manager.containers)
      {
        ghost var before := lifecycle.manager.containers;
        StartSwallowing(visited[i]);
        StartedKeysStep(visited, i, StorageBroker(kv));
        ExtendsTransitive(start, before, lifecycle.manager.containers);
      }
      assert visited[..|visited|] == visited;
    }

    /**
     * The loop body: `startIfExists` with its exception caught; the
     * registry gains the flow's key when its trigger resolves, and loses
     * and replaces nothing.
     */
    method StartSwallowing(flow: MockFlow)
      requires lifecycle.manager.Valid()
      modifies lifecycle.manager
      ensures lifecycle.manager.Valid()
      ensures var k := StartedKeyWith(flow, StorageBroker(lifecycle.brokers.db.kv));
        lifecycle.manager.containers.Keys == old(lifecycle.manager.containers).Keys + (if k.Some? then {k.value} else {})
      ensures Extends(old(lifecycle.manager.containers), lifecycle.manager.containers)
    {
      var _ := lifecycle.StartIfExists(flow);
    }
  }
}
