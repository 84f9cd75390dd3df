/**
 * MockFlowRepository: the flow store of the repository generation and the
 * indexes it keeps beside each flow. A flow is written at `flow:<id>`; its
 * HTTP trigger is projected to `match:group:<g>:method:<m>:path:<p>` (and,
 * for a templated path, `match:group:<g>:method:<m>`); a Kafka trigger adds
 * the id to the list at `kafka:broker:<b>:topic:<t>`. Keys are built with
 * `String.format`, so a null part is written as `null`.
 */
module MockFlowRepository {
  import opened JavaLang
  import opened Values
  import opened Records
  import opened RocksStore
  import opened RocksDbRepository

  const API_TRIGGER_REQUEST: string := "API_TRIGGER_REQUEST"
  const CONDITION: string := "CONDITION"
  const KAFKA_TRIGGER: string := "KAFKA_TRIGGER"

  // ------------------------------------------------------------ the keys

  function FlowKey(id: Option<string>): (k: string)
    ensures |k| > 0 && k[0] == 'f'
  {
    "flow:" + FormatNullable(id)
  }

  function MethodKey(groupId: Option<string>, httpMethod: Option<string>): (k: string)
    ensures |k| > 0 && k[0] == 'm'
  {
    "match:group:" + FormatNullable(groupId) + ":method:" + FormatNullable(httpMethod)
  }

  /** The exact key extends the method-level key of the same group and method. */
  function MatchKey(groupId: Option<string>, httpMethod: Option<string>, path: Option<string>): (k: string)
    ensures |k| > 0 && k[0] == 'm' && |k| > |MethodKey(groupId, httpMethod)| + 1
  {
    MethodKey(groupId, httpMethod) + ":path:" + FormatNullable(path)
  }

  function KafkaTriggerKey(brokerUrl: Option<string>, topic: Option<string>): (k: string)
    ensures |k| > 0 && k[0] == 'k'
  {
    "kafka:broker:" + FormatNullable(brokerUrl) + ":topic:" + FormatNullable(topic)
  }

  // ----------------------------------------------------- the projections

  /**
   * `attr` of the first element with this name, or null when there is no
   * such element (`Optional.map(...).orElse(null)`); a selected attribute
   * holding null throws NullPointerException.
   */
  function ElementAttr(es: seq<FlowElement>, elementName: string, attrName: string): (r: Result<Option<string>>)
    ensures FirstElementIndex(es, elementName).None? ==> r == Ok(None)
    ensures FirstElementIndex(es, elementName).Some? ==> r == AttrText(es[FirstElementIndex(es, elementName).value], attrName)
  {
    match FirstElementIndex(es, elementName)
    case None => Ok(None)
    case Some(i) => AttrText(es[i], attrName)
  }

  /** `buildApiMatch`: the first API_TRIGGER_REQUEST gives method and path, the first CONDITION the expression. */
  function ApiMatch(flow: MockFlow): (r: Result<FlowMatchResult>)
    ensures r.Err? ==> r.error == NullPointer
    ensures r.Ok? ==> r.value.id == flow.id && r.value.brokerId.None? && r.value.topic.None?
  {
    var m :- ElementAttr(flow.elements, API_TRIGGER_REQUEST, "method");
    var p :- ElementAttr(flow.elements, API_TRIGGER_REQUEST, "path");
    var x :- ElementAttr(flow.elements, CONDITION, "expression");
    Ok(FlowMatchResult(flow.id, x, m, p, None, None))
  }

  datatype KafkaTrigger = KafkaTrigger(brokerUrl: Option<string>, topic: Option<string>)

  /** `buildKafkaTrigger`: broker and topic of the first KAFKA_TRIGGER element, if there is one. */
  function KafkaTriggerOf(flow: MockFlow): (r: Result<Option<KafkaTrigger>>)
    ensures FirstElementIndex(flow.elements, KAFKA_TRIGGER).None? ==> r == Ok(None)
    ensures r.Err? ==> r.error == NullPointer
    ensures r == Ok(None) ==> FirstElementIndex(flow.elements, KAFKA_TRIGGER).None?
    ensures r.Ok? && r.value.Some? ==>
      var e := flow.elements[FirstElementIndex(flow.elements, KAFKA_TRIGGER).value];
      AttrText(e, "broker") == Ok(r.value.value.brokerUrl) && AttrText(e, "topic") == Ok(r.value.value.topic)
  {
    match FirstElementIndex(flow.elements, KAFKA_TRIGGER)
    case None => Ok(None)
    case Some(i) =>
      var b :- AttrText(flow.elements[i], "broker");
      var t :- AttrText(flow.elements[i], "topic");
      Ok(Some(KafkaTrigger(b, t)))
  }

  /** The path is a template: it has a `:` somewhere. */
  predicate IsDynamic(path: string) { Contains(path, ':') }

  // ------------------------------------------------- the store, as values

  function FlowAt(kv: map<string, Stored>, id: string): (r: Option<MockFlow>)
    ensures r == Find(kv, FlowKey(Some(id)), AsFlow)
  {
    Find(kv, FlowKey(Some(id)), AsFlow)
  }

  /** The API index rows a projection adds. */
  function WithApiIndex(kv: map<string, Stored>, groupId: Option<string>, m: FlowMatchResult): map<string, Stored> {
    if m.path.None? then kv
    else
      var kv1 := kv[MatchKey(groupId, m.httpMethod, m.path) := MatchRec(m)];
      if IsDynamic(m.path.value) then kv1[MethodKey(groupId, m.httpMethod) := MatchRec(m)] else kv1
  }

  /**
   * The store after `save(flow)`: the flow, then its API index rows, then
   * its Kafka list. A trigger attribute holding null stops the save part
   * way, after the writes that came before it.
   */
  function SavedStore(kv: map<string, Stored>, flow: MockFlow): map<string, Stored>
    requires flow.id.Some?
  {
    Indexed(kv[FlowKey(flow.id) := FlowRec(flow)], flow)
  }

  /** The index writes that follow the flow's own write. */
  function Indexed(kv: map<string, Stored>, flow: MockFlow): map<string, Stored>
    requires flow.id.Some?
  {
    match ApiMatch(flow)
    case Err(_) => kv
    case Ok(m) => KafkaListed(WithApiIndex(kv, flow.groupId, m), flow)
  }

  function KafkaListed(kv: map<string, Stored>, flow: MockFlow): map<string, Stored>
    requires flow.id.Some?
  {
    match KafkaTriggerOf(flow)
    case Err(_) => kv
    case Ok(None) => kv
    case Ok(Some(t)) =>
      var key := KafkaTriggerKey(t.brokerUrl, t.topic);
      kv[key := IdList(WithAppended(ListAt(kv, key), flow.id.value))]
  }

  /** `save` fails exactly when one of the trigger attributes it reads holds null. */
  function SaveOutcome(flow: MockFlow): (r: Result<MockFlow>)
    ensures r.Ok? <==> ApiMatch(flow).Ok? && KafkaTriggerOf(flow).Ok?
    ensures r.Ok? ==> r.value == flow
    ensures r.Err? ==> r.error == NullPointer
  {
    if ApiMatch(flow).Err? || KafkaTriggerOf(flow).Err? then Err(NullPointer) else Ok(flow)
  }

  /** The API index rows `delete` removes: `delete(key, "")` is a delete of `key + ":"`. */
  function WithoutApiIndex(kv: map<string, Stored>, groupId: Option<string>, m: FlowMatchResult): map<string, Stored> {
    if m.path.None? then kv
    else
      var kv1 := kv - {BuildKey(MatchKey(groupId, m.httpMethod, m.path), "")};
      if IsDynamic(m.path.value) then kv1 - {BuildKey(MethodKey(groupId, m.httpMethod), "")} else kv1
  }

  /** The list at a key with the first x removed, written back only when x was in it. */
  function ListWithout(kv: map<string, Stored>, key: string, x: string): map<string, Stored> {
    if x in ListAt(kv, key) then kv[key := IdList(RemoveFirst(ListAt(kv, key), x))] else kv
  }

  /** The store after `delete(id)`. */
  function DeletedStore(kv: map<string, Stored>, id: string): map<string, Stored> {
    match FlowAt(kv, id)
    case None => kv
    case Some(flow) => Unindexed(kv - {FlowKey(Some(id))}, flow, id)
  }

  function Unindexed(kv: map<string, Stored>, flow: MockFlow, id: string): map<string, Stored> {
    match ApiMatch(flow)
    case Err(_) => kv
    case Ok(m) => KafkaUnlisted(WithoutApiIndex(kv, flow.groupId, m), flow, id)
  }

  function KafkaUnlisted(kv: map<string, Stored>, flow: MockFlow, id: string): map<string, Stored> {
    match KafkaTriggerOf(flow)
    case Err(_) => kv
    case Ok(None) => kv
    case Ok(Some(t)) => ListWithout(kv, KafkaTriggerKey(t.brokerUrl, t.topic), id)
  }

  function DeleteOutcome(kv: map<string, Stored>, id: string): (r: Result<()>)
    ensures r.Err? <==> FlowAt(kv, id).Some? && (ApiMatch(FlowAt(kv, id).value).Err? || KafkaTriggerOf(FlowAt(kv, id).value).Err?)
    ensures r.Err? ==> r.error == NullPointer
  {
    match FlowAt(kv, id)
    case None => Ok(())
    case Some(flow) => if ApiMatch(flow).Err? || KafkaTriggerOf(flow).Err? then Err(NullPointer) else Ok(())
  }

  /** The flows for the listed ids, with ids that have no stored flow dropped. */
  function ListedFlows(kv: map<string, Stored>, ids: seq<string>): (r: set<MockFlow>)
    ensures forall f | f in r :: exists i | 0 <= i < |ids| :: FlowAt(kv, ids[i]) == Some(f)
    ensures forall i | 0 <= i < |ids| && FlowAt(kv, ids[i]).Some? :: FlowAt(kv, ids[i]).value in r
  {
    set i | 0 <= i < |ids| && FlowAt(kv, ids[i]).Some? :: FlowAt(kv, ids[i]).value
  }

  // ------------------------------------------------------------ the class

  class FlowRepository {
    const common: Repository

    constructor (common: Repository)
      ensures this.common == common
    {
      this.common := common;
    }

    /** Callers always set the id before saving. */
    method Save(flow: MockFlow) returns (r: Result<MockFlow>)
      requires flow.id.Some? && common.db.Valid()
      modifies common.db
      ensures common.db.Valid()
      ensures common.db.kv == SavedStore(old(common.db.kv), flow)
      ensures r == SaveOutcome(flow)
    {
      common.Save(FlowKey(flow.id), FlowRec(flow));
      ghost var kv1 := common.db.kv;
      var built := ApiMatch(flow);
      if built.Err? {
        return Err(NullPointer);
      }
      var m := built.value;
      if m.path.Some? {
        common.Save(MatchKey(flow.groupId, m.httpMethod, m.path), MatchRec(m));
        if Contains(m.path.value, ':') {
          common.Save(MethodKey(flow.groupId, m.httpMethod), MatchRec(m));
        }
      }
      assert common.db.kv == WithApiIndex(kv1, flow.groupId, m);
      var kafka := KafkaTriggerOf(flow);
      if kafka.Err? {
        return Err(NullPointer);
      }
      if kafka.value.Some? {
        common.SaveToList(KafkaTriggerKey(kafka.value.value.brokerUrl, kafka.value.value.topic), flow.id.value);
      }
      return Ok(flow);
    }

    method FindByKafkaTrigger(brokerId: string, topic: string) returns (r: set<MockFlow>)
      ensures r == ListedFlows(common.db.kv, ListAt(common.db.kv, KafkaTriggerKey(Some(brokerId), Some(topic))))
    {
      var flowIds := common.FindListByKey(KafkaTriggerKey(Some(brokerId), Some(topic)));
      r := ListedFlows(common.db.kv, flowIds);
    }

    method FindMatchingByMethodAndPath(groupId: Option<string>, httpMethod: string, path: string) returns (r: Option<FlowMatchResult>)
      ensures r == Find(common.db.kv, MatchKey(groupId, Some(httpMethod), Some(path)), AsMatch)
    {
      r := common.FindByKey(MatchKey(groupId, Some(httpMethod), Some(path)), AsMatch);
    }

    method FindMatchingByMethod(groupId: Option<string>, httpMethod: string) returns (r: Option<FlowMatchResult>)
      ensures r == Find(common.db.kv, MethodKey(groupId, Some(httpMethod)), AsMatch)
    {
      r := common.FindByKey(MethodKey(groupId, Some(httpMethod)), AsMatch);
    }

    /** `findById(id)`, where a null id reads the key "flow:null". */
    method FindById(id: Option<string>) returns (r: Option<MockFlow>)
      ensures r == Find(common.db.kv, FlowKey(id), AsFlow)
    {
      r := common.FindByKey(FlowKey(id), AsFlow);
    }

    method Delete(id: string) returns (r: Result<()>)
      requires common.db.Valid()
      modifies common.db
      ensures common.db.Valid()
      ensures common.db.kv == DeletedStore(old(common.db.kv), id)
      ensures r == DeleteOutcome(old(common.db.kv), id)
    {
      var found := FindById(Some(id));
      assert found == FlowAt(old(common.db.kv), id);
      if found.None? {
        return Ok(());
      }
      var flow := found.value;
      common.Delete(FlowKey(Some(id)));
      ghost var kv1 := common.db.kv;
      var built := ApiMatch(flow);
      if built.Err? {
        return Err(NullPointer);
      }
      var m := built.value;
      if m.path.Some? {
        common.DeletePrefixed(MatchKey(flow.groupId, m.httpMethod, m.path), "");
        if Contains(m.path.value, ':') {
          common.DeletePrefixed(MethodKey(flow.groupId, m.httpMethod), "");
        }
      }
      assert common.db.kv == WithoutApiIndex(kv1, flow.groupId, m);
      var kafka := KafkaTriggerOf(flow);
      if kafka.Err? {
        return Err(NullPointer);
      }
      if kafka.value.Some? {
        common.DeleteFromList(KafkaTriggerKey(kafka.value.value.brokerUrl, kafka.value.value.topic), id);
      }
      return Ok(());
    }
  }

  // ------------------------------------------------------------ properties

  /** The projection keys never collide with a flow key, nor the Kafka list key with either. */
  lemma KeyFamiliesDistinct(id: Option<string>, g: Option<string>, m: Option<string>, p: Option<string>, b: Option<string>, t: Option<string>)
    ensures FlowKey(id) != MatchKey(g, m, p) && FlowKey(id) != MethodKey(g, m) && FlowKey(id) != KafkaTriggerKey(b, t)
    ensures KafkaTriggerKey(b, t) != MatchKey(g, m, p) && KafkaTriggerKey(b, t) != MethodKey(g, m)
    ensures BuildKey(MatchKey(g, m, p), "")[0] == 'm' && BuildKey(MethodKey(g, m), "")[0] == 'm'
  {
  }

  /** A saved flow reads back by its id, whatever else the save wrote or failed to write. */
  lemma SaveThenFindById(kv: map<string, Stored>, flow: MockFlow)
    requires flow.id.Some?
    ensures FlowAt(SavedStore(kv, flow), flow.id.value) == Some(flow)
  {
    var k := FlowKey(flow.id);
    var kv1 := kv[k := FlowRec(flow)];
    match ApiMatch(flow)
    case Err(_) =>
    case Ok(m) =>
      KeyFamiliesDistinct(flow.id, flow.groupId, m.httpMethod, m.path, None, None);
      ApiIndexedElsewhere(kv1, flow.groupId, m, k);
      if KafkaTriggerOf(flow).Ok? && KafkaTriggerOf(flow).value.Some? {
        var t := KafkaTriggerOf(flow).value.value;
        KeyFamiliesDistinct(flow.id, flow.groupId, m.httpMethod, m.path, t.brokerUrl, t.topic);
      }
      KafkaListedElsewhere(WithApiIndex(kv1, flow.groupId, m), flow, k);
  }

  /**
   * A successful save of a flow with a trigger path leaves its projection
   * at the exact key, and at the method-level key when the path is a
   * template.
   */
  lemma SaveWritesApiIndex(kv: map<string, Stored>, flow: MockFlow)
    requires flow.id.Some? && SaveOutcome(flow).Ok?
    requires ApiMatch(flow).value.path.Some?
    ensures var m := ApiMatch(flow).value; var kv' := SavedStore(kv, flow);
      Find(kv', MatchKey(flow.groupId, m.httpMethod, m.path), AsMatch) == Some(m)
      && (IsDynamic(m.path.value) ==> Find(kv', MethodKey(flow.groupId, m.httpMethod), AsMatch) == Some(m))
  {
    var m := ApiMatch(flow).value;
    var kv2 := WithApiIndex(kv[FlowKey(flow.id) := FlowRec(flow)], flow.groupId, m);
    KeyFamiliesDistinct(flow.id, flow.groupId, m.httpMethod, m.path, None, None);
    if KafkaTriggerOf(flow).value.Some? {
      var t := KafkaTriggerOf(flow).value.value;
      KeyFamiliesDistinct(flow.id, flow.groupId, m.httpMethod, m.path, t.brokerUrl, t.topic);
    }
    KafkaListedElsewhere(kv2, flow, MatchKey(flow.groupId, m.httpMethod, m.path));
    KafkaListedElsewhere(kv2, flow, MethodKey(flow.groupId, m.httpMethod));
  }

  /** Writing the API index rows leaves every other key as it was. */
  lemma ApiIndexedElsewhere(kv: map<string, Stored>, g: Option<string>, m: FlowMatchResult, k: string)
    requires k != MatchKey(g, m.httpMethod, m.path) && k != MethodKey(g, m.httpMethod)
    ensures SameAt(WithApiIndex(kv, g, m), kv, k)
  {
  }

  /** Listing the flow under its Kafka trigger leaves every key but the trigger's as it was. */
  lemma KafkaListedElsewhere(kv: map<string, Stored>, flow: MockFlow, k: string)
    requires flow.id.Some?
    requires KafkaTriggerOf(flow).Ok? && KafkaTriggerOf(flow).value.Some? ==>
      var t := KafkaTriggerOf(flow).value.value; k != KafkaTriggerKey(t.brokerUrl, t.topic)
    ensures SameAt(KafkaListed(kv, flow), kv, k)
  {
  }

  /** After a successful save, the flow's Kafka list holds its id exactly once, as the last entry. */
  lemma SaveListsKafkaTriggerOnce(kv: map<string, Stored>, flow: MockFlow)
    requires flow.id.Some? && SaveOutcome(flow).Ok? && KafkaTriggerOf(flow).value.Some?
    ensures var t := KafkaTriggerOf(flow).value.value; var l := ListAt(SavedStore(kv, flow), KafkaTriggerKey(t.brokerUrl, t.topic));
      |l| > 0 && l[|l| - 1] == flow.id.value && multiset(l)[flow.id.value] == 1
  {
  }

  /** Two saves for the same group and method with templated paths: the method-level row holds the later one. */
  lemma LaterSaveWinsMethodKey(kv: map<string, Stored>, a: MockFlow, b: MockFlow)
    requires a.id.Some? && b.id.Some? && SaveOutcome(a).Ok? && SaveOutcome(b).Ok?
    requires a.groupId == b.groupId
    requires ApiMatch(b).value.path.Some? && IsDynamic(ApiMatch(b).value.path.value)
    requires ApiMatch(a).value.httpMethod == ApiMatch(b).value.httpMethod
    ensures Find(SavedStore(SavedStore(kv, a), b), MethodKey(b.groupId, ApiMatch(b).value.httpMethod), AsMatch) == Some(ApiMatch(b).value)
  {
    SaveWritesApiIndex(SavedStore(kv, a), b);
  }

  /** Deleting an id with no stored flow changes nothing and succeeds. */
  lemma DeleteAbsentIsNoOp(kv: map<string, Stored>, id: string)
    requires FlowAt(kv, id).None?
    ensures DeletedStore(kv, id) == kv && DeleteOutcome(kv, id) == Ok(())
  {
  }

  /**
   * `delete` removes the flow but aims its API index deletes at `key + ":"`,
   * so the exact row `save` wrote for the flow is still there afterwards.
   */
  lemma DeleteKeepsExactRow(kv: map<string, Stored>, id: string)
    requires FlowAt(kv, id).Some?
    requires var flow := FlowAt(kv, id).value; ApiMatch(flow).Ok? && ApiMatch(flow).value.path.Some?
    ensures var flow := FlowAt(kv, id).value; var m := ApiMatch(flow).value; var key := MatchKey(flow.groupId, m.httpMethod, m.path);
      FlowAt(DeletedStore(kv, id), id).None?
      && Find(DeletedStore(kv, id), key, AsMatch) == Find(kv, key, AsMatch)
  {
    var flow := FlowAt(kv, id).value;
    var m := ApiMatch(flow).value;
    var key := MatchKey(flow.groupId, m.httpMethod, m.path);
    var fk := FlowKey(Some(id));
    var kv1 := kv - {fk};
    var kv2 := WithoutApiIndex(kv1, flow.groupId, m);
    assert DeletedStore(kv, id) == KafkaUnlisted(kv2, flow, id);
    KeyFamiliesDistinct(Some(id), flow.groupId, m.httpMethod, m.path, None, None);
    assert key != BuildKey(key, "");
    assert key != BuildKey(MethodKey(flow.groupId, m.httpMethod), "");
    ApiUnindexedElsewhere(kv1, flow.groupId, m, key);
    ApiUnindexedElsewhere(kv1, flow.groupId, m, fk);
    if KafkaTriggerOf(flow).Ok? && KafkaTriggerOf(flow).value.Some? {
      var t := KafkaTriggerOf(flow).value.value;
      KeyFamiliesDistinct(Some(id), flow.groupId, m.httpMethod, m.path, t.brokerUrl, t.topic);
    }
    KafkaUnlistedElsewhere(kv2, flow, id, key);
    KafkaUnlistedElsewhere(kv2, flow, id, fk);
  }

  /** Dropping the API index rows leaves every other key as it was. */
  lemma ApiUnindexedElsewhere(kv: map<string, Stored>, g: Option<string>, m: FlowMatchResult, k: string)
    requires k != BuildKey(MatchKey(g, m.httpMethod, m.path), "") && k != BuildKey(MethodKey(g, m.httpMethod), "")
    ensures SameAt(WithoutApiIndex(kv, g, m), kv, k)
  {
  }

  /** Unlisting the flow from its Kafka trigger leaves every key but the trigger's as it was. */
  lemma KafkaUnlistedElsewhere(kv: map<string, Stored>, flow: MockFlow, id: string, k: string)
    requires KafkaTriggerOf(flow).Ok? && KafkaTriggerOf(flow).value.Some? ==>
      var t := KafkaTriggerOf(flow).value.value; k != KafkaTriggerKey(t.brokerUrl, t.topic)
    ensures SameAt(KafkaUnlisted(kv, flow, id), kv, k)
  {
  }

  /** Hence a save followed by a delete of the same id leaves the exact API row in the store. */
  lemma SaveThenDeleteLeavesExactRow(kv: map<string, Stored>, flow: MockFlow)
    requires flow.id.Some? && SaveOutcome(flow).Ok? && ApiMatch(flow).value.path.Some?
    ensures var m := ApiMatch(flow).value; var kv' := DeletedStore(SavedStore(kv, flow), flow.id.value);
      FlowAt(kv', flow.id.value).None?
      && Find(kv', MatchKey(flow.groupId, m.httpMethod, m.path), AsMatch) == Some(m)
  {
    var kv1 := SavedStore(kv, flow);
    SaveThenFindById(kv, flow);
    SaveWritesApiIndex(kv, flow);
    DeleteKeepsExactRow(kv1, flow.id.value);
  }

  /** Listed ids that name no stored flow contribute nothing to `findByKafkaTrigger`. */
  lemma ListedFlowsSkipsMissing(kv: map<string, Stored>, ids: seq<string>, missing: string)
    requires FlowAt(kv, missing).None?
    ensures ListedFlows(kv, ids + [missing]) == ListedFlows(kv, ids)
  {
    var l := ids + [missing];
    forall f | f in ListedFlows(kv, l) ensures f in ListedFlows(kv, ids) {
      var i :| 0 <= i < |l| && FlowAt(kv, l[i]) == Some(f);
      assert i < |ids| && l[i] == ids[i];
    }
    forall f | f in ListedFlows(kv, ids) ensures f in ListedFlows(kv, l) {
      var i :| 0 <= i < |ids| && FlowAt(kv, ids[i]) == Some(f);
      assert l[i] == ids[i];
    }
  }

  // ---------------------------------------------- the delete as intended

  /** The API index rows dropped under the exact keys `save` wrote them at. */
  function WithoutExactApiIndex(kv: map<string, Stored>, groupId: Option<string>, m: FlowMatchResult): map<string, Stored> {
    if m.path.None? then kv
    else
      var kv1 := kv - {MatchKey(groupId, m.httpMethod, m.path)};
      if IsDynamic(m.path.value) then kv1 - {MethodKey(groupId, m.httpMethod)} else kv1
  }

  /** `delete(id)` as evidently intended: each index row is deleted by its own key, without the `:` suffix. */
  function ExactDeletedStore(kv: map<string, Stored>, id: string): map<string, Stored> {
    match FlowAt(kv, id)
    case None => kv
    case Some(flow) =>
      var kv1 := kv - {FlowKey(Some(id))};
      match ApiMatch(flow)
      case Err(_) => kv1
      case Ok(m) => KafkaUnlisted(WithoutExactApiIndex(kv1, flow.groupId, m), flow, id)
  }

  /**
   * After the intended delete neither the flow nor its exact API row is
   * found, and for a path with a variable neither is its method-level row.
   */
  lemma ExactDeleteRemovesRows(kv: map<string, Stored>, id: string)
    requires FlowAt(kv, id).Some?
    requires var flow := FlowAt(kv, id).value; ApiMatch(flow).Ok? && ApiMatch(flow).value.path.Some?
    ensures var flow := FlowAt(kv, id).value; var m := ApiMatch(flow).value; var kv' := ExactDeletedStore(kv, id);
      FlowAt(kv', id).None?
      && Find(kv', MatchKey(flow.groupId, m.httpMethod, m.path), AsMatch).None?
      && (IsDynamic(m.path.value) ==> Find(kv', MethodKey(flow.groupId, m.httpMethod), AsMatch).None?)
  {
    var flow := FlowAt(kv, id).value;
    var m := ApiMatch(flow).value;
    var fk := FlowKey(Some(id));
    var kv2 := WithoutExactApiIndex(kv - {fk}, flow.groupId, m);
    assert ExactDeletedStore(kv, id) == KafkaUnlisted(kv2, flow, id);
    KeyFamiliesDistinct(Some(id), flow.groupId, m.httpMethod, m.path, None, None);
    if KafkaTriggerOf(flow).Ok? && KafkaTriggerOf(flow).value.Some? {
      var t := KafkaTriggerOf(flow).value.value;
      KeyFamiliesDistinct(Some(id), flow.groupId, m.httpMethod, m.path, t.brokerUrl, t.topic);
    }
    KafkaUnlistedElsewhere(kv2, flow, id, fk);
    KafkaUnlistedElsewhere(kv2, flow, id, MatchKey(flow.groupId, m.httpMethod, m.path));
    KafkaUnlistedElsewhere(kv2, flow, id, MethodKey(flow.groupId, m.httpMethod));
  }
}
