/**
 * AsyncFlowExecutor: the part of a flow that runs after its trigger has
 * been answered. The flow is loaded again, its steps put in order, and
 * every step after the first one of the trigger's kind is executed over
 * the trigger's context. The thread the work runs on is not modelled; the
 * exception that ends it is the method's result.
 */
module AsyncFlowExecutor {
  import opened JavaLang
  import opened Records
  import opened ExecutionContext
  import opened ElementService
  import MockFlowStorage
  import RocksStore
  import Values

  /**
   * The steps that run after the trigger: the flow's steps in order, from
   * just after the first step of the trigger's kind; all of them when the
   * flow has none of that kind.
   */
  function AfterTrigger(flow: MockFlow, trigger: string): (r: seq<FlowElement>)
    ensures var es := SortByOrder(flow.elements);
      |r| <= |es| && r == es[|es| - |r|..]
    ensures var es := SortByOrder(flow.elements);
      (forall j | 0 <= j < |es| :: es[j].name != trigger) ==> r == es
    ensures var es := SortByOrder(flow.elements);
      (exists j | 0 <= j < |es| :: es[j].name == trigger) ==>
        |r| < |es| && es[|es| - |r| - 1].name == trigger
        && forall j | 0 <= j < |es| - |r| - 1 :: es[j].name != trigger
    ensures SortedByOrder(r)
  {
    var es := SortByOrder(flow.elements);
    var start := ElementIndex(es, trigger);
    SliceSorted(es, start + 1, |es|);
    es[start + 1..|es|]
  }

  /** The steps after the trigger are the sorted steps past its first position. */
  lemma AfterTriggerIs(flow: MockFlow, trigger: string, es: seq<FlowElement>, start: int)
    requires es == SortByOrder(flow.elements) && start == ElementIndex(es, trigger)
    ensures AfterTrigger(flow, trigger) == es[start + 1..]
  {
    assert es[start + 1..|es|] == es[start + 1..];
  }

  /**
   * What the asynchronous run leaves behind, given what `findById` found:
   * nothing done and IllegalStateException for a flow that cannot be read,
   * otherwise the run of the steps after the trigger.
   */
  function AfterTriggerRun(found: Result<Option<MockFlow>>, trigger: string, pkv: map<string, RocksStore.Stored>,
                           supply: nat -> string, spel: (string, Values.Value) -> Option<string>, ctx: Values.ExecContext,
                           next: nat, vars: map<string, RocksStore.Stored>, parse: string -> Option<Values.Value>): (o: Outcome)
    ensures found.Err? || found.value.None? ==> o == Outcome(ctx, next, vars, Err(IllegalState))
  {
    match found
    case Err(_) => Outcome(ctx, next, vars, Err(IllegalState))
    case Ok(None) => Outcome(ctx, next, vars, Err(IllegalState))
    case Ok(Some(flow)) => RunAll(AfterTrigger(flow, trigger), pkv, supply, spel, ctx, next, vars, parse)
  }

  class Executor {
    const elements: ElementService.Service
    const flows: MockFlowStorage.FlowStorage

    constructor (elements: ElementService.Service, flows: MockFlowStorage.FlowStorage)
      ensures this.elements == elements && this.flows == flows
    {
      this.elements := elements;
      this.flows := flows;
    }

    /**
     * `runElementsAfterTrigger`: a flow that is not stored ends the run with
     * IllegalStateException before any step; otherwise the steps after the
     * trigger run in order over the context, up to the first exception.
     */
    method RunElementsAfterTrigger(flowId: string, trigger: string, ctx: Context) returns (r: Result<()>)
      requires elements.variables.db.Valid() && elements.Separate()
      modifies ctx, elements.placeholders.uuids, elements.variables.db
      ensures elements.variables.db.Valid()
      ensures Outcome(ctx.entries, elements.placeholders.uuids.next, elements.variables.db.kv, r) ==
        AfterTriggerRun(old(MockFlowStorage.FlowAt(flows.db.kv, flowId)), trigger, old(elements.placeholders.globals.common.db.kv),
                        elements.placeholders.uuids.supply, elements.placeholders.spel, old(ctx.entries),
                        old(elements.placeholders.uuids.next), old(elements.variables.db.kv), elements.parse)
    {
      var found := flows.FindById(flowId);
      if found.Err? {
        return Err(IllegalState);
      }
      if found.value.None? {
        return Err(IllegalState);
      }
      var es := SortByOrder(found.value.value.elements);
      var start := elements.FindIndex(es, trigger);
      ghost var step := StepOf(elements.placeholders.globals.common.db.kv, elements.placeholders.uuids.supply,
                               elements.placeholders.spel, elements.parse);
      StepOfIsStep(elements.placeholders.globals.common.db.kv, elements.placeholders.uuids.supply,
                   elements.placeholders.spel, elements.parse);
      AfterTriggerIs(found.value.value, trigger, es, start);
      r := elements.RunSteps(es, start + 1, |es|, ctx, step);
      assert es[start + 1..|es|] == es[start + 1..];
    }
  }
}
