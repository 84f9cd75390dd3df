/**
 * MockFlowStorage: the flow store of the storage generation, written
 * straight to RocksDB. Beside `flow:<id>` it keeps the set of a group's
 * flows at `group:<g>:flows`, the request index at `match:<g>:<m>:<p>` and
 * `match:<g>:<m>`, and the Kafka index as a set of ids at
 * `kafka:<broker>:<topic>`. Unlike the repository generation, the match
 * projection comes from the LAST trigger and condition elements, and
 * `delete` removes exactly the rows `save` wrote.
 */
module MockFlowStorage {
  import opened JavaLang
  import opened Records
  import opened RocksStore
  import opened IdSets

  const API_TRIGGER_REQUEST: string := "API_TRIGGER_REQUEST"
  const CONDITION: string := "CONDITION"
  const KAFKA_TRIGGER: string := "KAFKA_TRIGGER"
  const GROUP_PREFIX: string := "group:ids"

  // ------------------------------------------------------------ the keys

  function FlowKey(id: string): (k: string)
    ensures |k| > 0 && k[0] == 'f'
  {
    "flow:" + id
  }

  function GroupFlowsKey(groupId: Option<string>): (k: string)
    ensures |k| > 0 && k[0] == 'g'
  {
    "group:" + FormatNullable(groupId) + ":flows"
  }

  function MethodKey(groupId: Option<string>, httpMethod: string): (k: string)
    ensures |k| > 0 && k[0] == 'm'
  {
    "match:" + FormatNullable(groupId) + ":" + httpMethod
  }

  /** The exact key extends the method key of the same group and method, so the two never coincide. */
  function MatchKey(groupId: Option<string>, httpMethod: string, path: string): (k: string)
    ensures |k| > |MethodKey(groupId, httpMethod)| && k[0] == 'm'
  {
    MethodKey(groupId, httpMethod) + ":" + path
  }

  function KafkaTriggerKey(brokerUrl: string, topic: string): (k: string)
    ensures |k| > 0 && k[0] == 'k'
  {
    "kafka:" + brokerUrl + ":" + topic
  }

  // ------------------------------------------------------------- id sets

  /** `addToSet`: read the set, add the id, write the whole set back. */
  function AddToSet(kv: map<string, Stored>, key: string, id: string): (e: Effect<()>)
    ensures e.result.Ok? <==> ReadSet(kv, key).Ok?
    ensures e.result.Err? ==> e.kv == kv && e.result.error == Decode
    ensures e.result.Ok? ==> e.kv == kv[key := IdSet(ReadSet(kv, key).value + {id})]
  {
    match ReadSet(kv, key)
    case Err(err) => Effect(kv, Err(err))
    case Ok(ids) => Effect(kv[key := IdSet(ids + {id})], Ok(()))
  }

  /** `removeFromSet`: the set is written back only when the id was in it. */
  function RemoveFromSet(kv: map<string, Stored>, key: string, id: string): (e: Effect<()>)
    ensures e.result.Ok? <==> ReadSet(kv, key).Ok?
    ensures e.result.Err? ==> e.kv == kv && e.result.error == Decode
    ensures e.result.Ok? && id !in ReadSet(kv, key).value ==> e.kv == kv
    ensures e.result.Ok? && id in ReadSet(kv, key).value ==> e.kv == kv[key := IdSet(ReadSet(kv, key).value - {id})]
  {
    match ReadSet(kv, key)
    case Err(err) => Effect(kv, Err(err))
    case Ok(ids) => if id in ids then Effect(kv[key := IdSet(ids - {id})], Ok(())) else Effect(kv, Ok(()))
  }

  /** After a successful add the id reads back as a member; after a successful remove it does not. */
  lemma SetUpdatesReadBack(kv: map<string, Stored>, key: string, id: string, other: string)
    ensures AddToSet(kv, key, id).result.Ok? ==>
      ReadSet(AddToSet(kv, key, id).kv, key) == Ok(ReadSet(kv, key).value + {id})
    ensures RemoveFromSet(kv, key, id).result.Ok? ==>
      ReadSet(RemoveFromSet(kv, key, id).kv, key) == Ok(ReadSet(kv, key).value - {id})
    ensures other != key ==> StoredAt(AddToSet(kv, key, id).kv, other) == StoredAt(kv, other)
  {
    if RemoveFromSet(kv, key, id).result.Ok? && id !in ReadSet(kv, key).value {
      assert ReadSet(kv, key).value - {id} == ReadSet(kv, key).value;
    }
  }

  // ---------------------------------------------------------- the reads

  /** `get(key, MockFlow.class)`: empty for an absent key, IllegalStateException for bytes that are no flow. */
  function FlowAt(kv: map<string, Stored>, id: string): (r: Result<Option<MockFlow>>)
    ensures FlowKey(id) !in kv <==> r == Ok(None)
    ensures r.Err? <==> FlowKey(id) in kv && !kv[FlowKey(id)].FlowRec?
    ensures r.Err? ==> r.error == IllegalState
    ensures r.Ok? && r.value.Some? ==> kv[FlowKey(id)] == FlowRec(r.value.value)
  {
    var key := FlowKey(id);
    if key !in kv then Ok(None)
    else match AsFlow(kv[key]) case None => Err(IllegalState) case Some(f) => Ok(Some(f))
  }

  /** The flows for a set of ids, with ids that have no stored flow dropped; one unreadable flow fails the lot. */
  function FlowsFor(kv: map<string, Stored>, ids: set<string>): (r: Result<set<MockFlow>>)
    ensures r.Err? <==> exists id | id in ids :: FlowAt(kv, id).Err?
    ensures r.Err? ==> r.error == IllegalState
    ensures r.Ok? ==> forall f :: f in r.value <==> exists id | id in ids :: FlowAt(kv, id) == Ok(Some(f))
  {
    if exists id | id in ids :: FlowAt(kv, id).Err? then Err(IllegalState)
    else
      var fs := set id | id in ids && FlowAt(kv, id).value.Some? :: FlowAt(kv, id).value.value;
      assert forall f :: f in fs <==> exists id | id in ids :: FlowAt(kv, id) == Ok(Some(f)) by {
        forall f | exists id | id in ids :: FlowAt(kv, id) == Ok(Some(f)) ensures f in fs {
          var id :| id in ids && FlowAt(kv, id) == Ok(Some(f));
          assert FlowAt(kv, id).value.value == f;
        }
      }
      Ok(fs)
  }

  /** `findByGroupId`: the group's flow set, resolved; the mapper's failure escapes as it is. */
  function GroupFlows(kv: map<string, Stored>, groupId: Option<string>): (r: Result<set<MockFlow>>)
    ensures ReadSet(kv, GroupFlowsKey(groupId)).Err? ==> r == Err(Decode)
    ensures ReadSet(kv, GroupFlowsKey(groupId)).Ok? ==> r == FlowsFor(kv, ReadSet(kv, GroupFlowsKey(groupId)).value)
  {
    var ids :- ReadSet(kv, GroupFlowsKey(groupId));
    FlowsFor(kv, ids)
  }

  /** The flows of every group in `group:ids`, when every group reads. */
  function AllFlows(kv: map<string, Stored>, groups: set<string>): (r: set<MockFlow>)
  {
    set g, f | g in groups && GroupFlows(kv, Some(g)).Ok? && f in GroupFlows(kv, Some(g)).value :: f
  }

  lemma AllFlowsAdd(kv: map<string, Stored>, done: set<string>, g: string)
    requires GroupFlows(kv, Some(g)).Ok?
    ensures AllFlows(kv, done + {g}) == AllFlows(kv, done) + GroupFlows(kv, Some(g)).value
  {
  }

  // ------------------------------------------------ the match projection

  /** What the `buildMatch` loop holds in its locals. */
  datatype MatchFields = MatchFields(path: Option<string>, httpMethod: Option<string>, expression: Option<string>)

  /** One pass of the `buildMatch` loop body: a trigger overwrites path and method, a condition the expression. */
  function MatchStep(st: MatchFields, e: FlowElement): (r: Result<MatchFields>)
    ensures r.Err? ==> r.error == NullPointer
  {
    var st1 :- if e.name == API_TRIGGER_REQUEST then
        var p :- AttrText(e, "path");
        var m :- AttrText(e, "method");
        Ok(st.(path := p, httpMethod := m))
      else Ok(st);
    if e.name == CONDITION then
      var x :- AttrText(e, "expression");
      Ok(st1.(expression := x))
    else Ok(st1)
  }

  /** The locals after the loop has seen the first n elements. */
  function MatchScan(es: seq<FlowElement>, n: nat): (r: Result<MatchFields>)
    requires n <= |es|
    ensures r.Err? ==> r.error == NullPointer
  {
    if n == 0 then Ok(MatchFields(None, None, None))
    else
      var st :- MatchScan(es, n - 1);
      MatchStep(st, es[n - 1])
  }

  /** `buildMatch`. */
  function MatchOf(flow: MockFlow): (r: Result<FlowMatchResult>)
    ensures r.Err? ==> r.error == NullPointer
  {
    var st :- MatchScan(flow.elements, |flow.elements|);
    Ok(FlowMatchResult(flow.id, st.expression, st.httpMethod, st.path, None, None))
  }

  /** The attribute reads of one element, as the loop makes them. */
  predicate ReadsSucceed(e: FlowElement) {
    (e.name == API_TRIGGER_REQUEST ==> AttrText(e, "path").Ok? && AttrText(e, "method").Ok?)
    && (e.name == CONDITION ==> AttrText(e, "expression").Ok?)
  }

  /** The last index below n holding an element with this name. */
  function LastIndex(es: seq<FlowElement>, n: nat, name: string): (r: Option<nat>)
    requires n <= |es|
    ensures r.Some? ==> r.value < n && es[r.value].name == name && forall j | r.value < j < n :: es[j].name != name
    ensures r.None? ==> forall j | 0 <= j < n :: es[j].name != name
  {
    if n == 0 then None else if es[n - 1].name == name then Some(n - 1) else LastIndex(es, n - 1, name)
  }

  /** The text of an attribute read that succeeded, or null. */
  function ReadOf(es: seq<FlowElement>, at: Option<nat>, attrName: string): Option<string>
    requires at.Some? ==> at.value < |es|
  {
    if at.None? then None
    else match AttrText(es[at.value], attrName) case Ok(v) => v case Err(_) => None
  }

  /** Each field as the last element of its kind gives it. */
  function LastFields(es: seq<FlowElement>, n: nat): MatchFields
    requires n <= |es|
  {
    var t := LastIndex(es, n, API_TRIGGER_REQUEST);
    var c := LastIndex(es, n, CONDITION);
    MatchFields(ReadOf(es, t, "path"), ReadOf(es, t, "method"), ReadOf(es, c, "expression"))
  }

  /**
   * The loop fails exactly when some trigger or condition element holds a
   * null in an attribute it reads, and otherwise ends with the fields of
   * the LAST trigger and the LAST condition.
   */
  lemma {:induction false} MatchScanTakesLast(es: seq<FlowElement>, n: nat)
    requires n <= |es|
    ensures MatchScan(es, n).Ok? <==> forall i | 0 <= i < n :: ReadsSucceed(es[i])
    ensures MatchScan(es, n).Ok? ==> MatchScan(es, n).value == LastFields(es, n)
  {
    if n > 0 {
      MatchScanTakesLast(es, n - 1);
      var e := es[n - 1];
      if MatchScan(es, n - 1).Ok? {
        var st := MatchScan(es, n - 1).value;
        if ReadsSucceed(e) {
          assert MatchStep(st, e).Ok?;
        } else {
          assert MatchStep(st, e).Err?;
        }
      }
    }
  }

  /** Once the loop has failed, later elements cannot rescue it. */
  lemma {:induction false} MatchScanFailureSticks(es: seq<FlowElement>, i: nat, n: nat)
    requires i <= n <= |es| && MatchScan(es, i).Err?
    ensures MatchScan(es, n).Err?
    decreases n
  {
    if n > i {
      MatchScanFailureSticks(es, i, n - 1);
    }
  }

  // ------------------------------------------------- the Kafka trigger

  datatype Subscription = Subscription(brokerUrl: string, topic: string)

  /** `buildKafkaTrigger` from element `from` on: the first KAFKA_TRIGGER with both topic and broker. */
  function SubscriptionFrom(es: seq<FlowElement>, from: nat): (r: Result<Option<Subscription>>)
    requires from <= |es|
    ensures r.Err? ==> r.error == NullPointer
    ensures r.Ok? && r.value.Some? ==> exists i | from <= i < |es| ::
      es[i].name == KAFKA_TRIGGER
      && AttrText(es[i], "topic") == Ok(Some(r.value.value.topic))
      && AttrText(es[i], "broker") == Ok(Some(r.value.value.brokerUrl))
    ensures r == Ok(None) ==> forall i | from <= i < |es| && es[i].name == KAFKA_TRIGGER ::
      AttrText(es[i], "topic") == Ok(None) || AttrText(es[i], "broker") == Ok(None)
    decreases |es| - from
  {
    if from == |es| then Ok(None)
    else
      var e := es[from];
      if e.name == KAFKA_TRIGGER then
        var topic :- AttrText(e, "topic");
        var brokerUrl :- AttrText(e, "broker");
        if topic.Some? && brokerUrl.Some? then Ok(Some(Subscription(brokerUrl.value, topic.value)))
        else SubscriptionFrom(es, from + 1)
      else SubscriptionFrom(es, from + 1)
  }

  /** A trigger element missing its topic or broker is passed over for a later complete one. */
  lemma SubscriptionSkipsIncomplete(es: seq<FlowElement>, b: string, t: string)
    requires |es| >= 1 && es[0].name == KAFKA_TRIGGER
    requires AttrText(es[0], "topic") == Ok(None) && AttrText(es[0], "broker") == Ok(Some(b))
    ensures SubscriptionFrom(es, 0) == SubscriptionFrom(es, 1)
  {
  }

  // ---------------------------------------------- save and delete, as values

  /** The request index rows a projection adds: the method row whenever a method is set, the exact row when a path is too. */
  function WithMatchRows(kv: map<string, Stored>, groupId: Option<string>, m: FlowMatchResult): map<string, Stored> {
    if m.httpMethod.None? then kv
    else
      var kv1 := if m.path.Some? then kv[MatchKey(groupId, m.httpMethod.value, m.path.value) := MatchRec(m)] else kv;
      kv1[MethodKey(groupId, m.httpMethod.value) := MatchRec(m)]
  }

  function WithoutMatchRows(kv: map<string, Stored>, groupId: Option<string>, m: FlowMatchResult): map<string, Stored> {
    if m.httpMethod.None? then kv
    else
      var kv1 := if m.path.Some? then kv - {MatchKey(groupId, m.httpMethod.value, m.path.value)} else kv;
      kv1 - {MethodKey(groupId, m.httpMethod.value)}
  }

  /** Every failure inside `save` and `delete` is rethrown as IllegalStateException. */
  function Wrapped<T>(e: Effect<()>, value: T): (r: Effect<T>)
    ensures r.kv == e.kv && (r.result.Ok? <==> e.result.Ok?)
    ensures r.result.Ok? ==> r.result.value == value
    ensures r.result.Err? ==> r.result.error == IllegalState
  {
    Effect(e.kv, if e.result.Ok? then Ok(value) else Err(IllegalState))
  }

  /** `save` of a flow that already has its id: each write in turn, stopping at the first failure. */
  function SaveEffect(kv: map<string, Stored>, flow: MockFlow): Effect<MockFlow>
    requires flow.id.Some?
  {
    var id := flow.id.value;
    var grouped := AddToSet(kv[FlowKey(id) := FlowRec(flow)], GroupFlowsKey(flow.groupId), id);
    if grouped.result.Err? then Wrapped(grouped, flow)
    else SaveIndexes(grouped.kv, flow)
  }

  function SaveIndexes(kv: map<string, Stored>, flow: MockFlow): Effect<MockFlow>
    requires flow.id.Some?
  {
    match MatchOf(flow)
    case Err(_) => Effect(kv, Err(IllegalState))
    case Ok(m) =>
      var kv1 := WithMatchRows(kv, flow.groupId, m);
      match SubscriptionFrom(flow.elements, 0)
      case Err(_) => Effect(kv1, Err(IllegalState))
      case Ok(None) => Effect(kv1, Ok(flow))
      case Ok(Some(k)) => Wrapped(AddToSet(kv1, KafkaTriggerKey(k.brokerUrl, k.topic), flow.id.value), flow)
  }

  /** `delete(id)`: nothing for an absent id, else each removal in turn, stopping at the first failure. */
  function DeleteEffect(kv: map<string, Stored>, id: string): Effect<()> {
    match FlowAt(kv, id)
    case Err(_) => Effect(kv, Err(IllegalState))
    case Ok(None) => Effect(kv, Ok(()))
    case Ok(Some(flow)) =>
      var ungrouped := RemoveFromSet(kv - {FlowKey(id)}, GroupFlowsKey(flow.groupId), id);
      if ungrouped.result.Err? then Wrapped(ungrouped, ())
      else DeleteIndexes(ungrouped.kv, flow, id)
  }

  function DeleteIndexes(kv: map<string, Stored>, flow: MockFlow, id: string): Effect<()> {
    match MatchOf(flow)
    case Err(_) => Effect(kv, Err(IllegalState))
    case Ok(m) =>
      var kv1 := WithoutMatchRows(kv, flow.groupId, m);
      match SubscriptionFrom(flow.elements, 0)
      case Err(_) => Effect(kv1, Err(IllegalState))
      case Ok(None) => Effect(kv1, Ok(()))
      case Ok(Some(k)) => Wrapped(RemoveFromSet(kv1, KafkaTriggerKey(k.brokerUrl, k.topic), id), ())
  }

  // ------------------------------------------------------------ the class

  class FlowStorage {
    const db: RocksDb
    const ids: IdSource

    constructor (db: RocksDb, ids: IdSource)
      ensures this.db == db && this.ids == ids
    {
      this.db := db;
      this.ids := ids;
    }

    /** The id is drawn only when the flow has none. */
    method Save(flow: MockFlow) returns (r: Result<MockFlow>)
      requires db.Valid()
      modifies db, ids
      ensures db.Valid()
      ensures var f := if flow.id.Some? then flow else flow.(id := Some(ids.supply(old(ids.next))));
        db.kv == SaveEffect(old(db.kv), f).kv && r == SaveEffect(old(db.kv), f).result
      ensures ids.next == if flow.id.Some? then old(ids.next) else old(ids.next) + 1
    {
      var f := flow;
      if f.id.None? {
        var id := ids.Fresh();
        f := f.(id := Some(id));
      }
      var id := f.id.value;
      db.Put(FlowKey(id), FlowRec(f));
      var added := AddToSetIn(GroupFlowsKey(f.groupId), id);
      if added.Err? {
        return Err(IllegalState);
      }
      var built := BuildMatch(f);
      if built.Err? {
        return Err(IllegalState);
      }
      var m := built.value;
      if m.httpMethod.Some? {
        if m.path.Some? {
          db.Put(MatchKey(f.groupId, m.httpMethod.value, m.path.value), MatchRec(m));
        }
        db.Put(MethodKey(f.groupId, m.httpMethod.value), MatchRec(m));
      }
      var kafka := BuildKafkaTrigger(f);
      if kafka.Err? {
        return Err(IllegalState);
      }
      if kafka.value.Some? {
        var listed := AddToSetIn(KafkaTriggerKey(kafka.value.value.brokerUrl, kafka.value.value.topic), id);
        if listed.Err? {
          return Err(IllegalState);
        }
      }
      return Ok(f);
    }

    method CountByGroupId(groupId: Option<string>) returns (r: Result<nat>)
      ensures ReadSet(db.kv, GroupFlowsKey(groupId)).Ok? ==> r == Ok(|ReadSet(db.kv, GroupFlowsKey(groupId)).value|)
      ensures ReadSet(db.kv, GroupFlowsKey(groupId)).Err? ==> r == Err(IllegalState)
    {
      var ids := ReadSet(db.kv, GroupFlowsKey(groupId));
      if ids.Err? {
        return Err(IllegalState);
      }
      return Ok(|ids.value|);
    }

    method FindByKafkaTrigger(brokerId: string, topic: string) returns (r: Result<set<MockFlow>>)
      ensures var ids := ReadSet(db.kv, KafkaTriggerKey(brokerId, topic));
        r == if ids.Err? then Err(IllegalState) else FlowsFor(db.kv, ids.value)
    {
      var ids := ReadSet(db.kv, KafkaTriggerKey(brokerId, topic));
      if ids.Err? {
        return Err(IllegalState);
      }
      r := FlowsFor(db.kv, ids.value);
    }

    method FindMatchingByMethodAndPath(groupId: Option<string>, httpMethod: string, path: string) returns (r: Result<Option<FlowMatchResult>>)
      ensures r == MatchAt(db.kv, MatchKey(groupId, httpMethod, path))
    {
      r := MatchAt(db.kv, MatchKey(groupId, httpMethod, path));
    }

    method FindMatchingByMethod(groupId: Option<string>, httpMethod: string) returns (r: Result<Option<FlowMatchResult>>)
      ensures r == MatchAt(db.kv, MethodKey(groupId, httpMethod))
    {
      r := MatchAt(db.kv, MethodKey(groupId, httpMethod));
    }

    method FindById(id: string) returns (r: Result<Option<MockFlow>>)
      ensures r == FlowAt(db.kv, id)
    {
      var v := db.Get(FlowKey(id));
      if v.None? {
        return Ok(None);
      }
      if !v.value.FlowRec? {
        return Err(IllegalState);
      }
      return Ok(Some(v.value.flow));
    }

    method FindByGroupId(groupId: Option<string>) returns (r: Result<set<MockFlow>>)
      ensures r == GroupFlows(db.kv, groupId)
    {
      var ids := ReadSet(db.kv, GroupFlowsKey(groupId));
      if ids.Err? {
        return Err(Decode);
      }
      r := FlowsFor(db.kv, ids.value);
    }

    /** The union over the groups in `group:ids`, visited in the set's (unspecified) order. */
    method FindAll() returns (r: Result<set<MockFlow>>)
      ensures r.Ok? <==> (ReadSet(db.kv, GROUP_PREFIX).Ok?
        && forall g | g in ReadSet(db.kv, GROUP_PREFIX).value :: GroupFlows(db.kv, Some(g)).Ok?)
      ensures r.Ok? ==> r.value == AllFlows(db.kv, ReadSet(db.kv, GROUP_PREFIX).value)
      ensures r.Err? ==> r.error == Decode || r.error == IllegalState
    {
      var groups := ReadSet(db.kv, GROUP_PREFIX);
      if groups.Err? {
        return Err(Decode);
      }
      var result: set<MockFlow> := {};
      var rest := groups.value;
      while rest != {}
        invariant rest <= groups.value
        invariant forall g | g in groups.value - rest :: GroupFlows(db.kv, Some(g)).Ok?
        invariant result == AllFlows(db.kv, groups.value - rest)
        decreases |rest|
      {
        var g :| g in rest;
        var found := FindByGroupId(Some(g));
        if found.Err? {
          return Err(found.error);
        }
        AllFlowsAdd(db.kv, groups.value - rest, g);
        assert (groups.value - rest) + {g} == groups.value - (rest - {g});
        result := result + found.value;
        rest := rest - {g};
      }
      assert groups.value - rest == groups.value;
      return Ok(result);
    }

    method Delete(id: string) returns (r: Result<()>)
      requires db.Valid()
      modifies db
      ensures db.Valid()
      ensures db.kv == DeleteEffect(old(db.kv), id).kv && r == DeleteEffect(old(db.kv), id).result
    {
      var found := FindById(id);
      if found.Err? {
        return Err(IllegalState);
      }
      if found.value.None? {
        return Ok(());
      }
      var flow := found.value.value;
      db.Delete(FlowKey(id));
      var removed := RemoveFromSetIn(GroupFlowsKey(flow.groupId), id);
      if removed.Err? {
        return Err(IllegalState);
      }
      var built := BuildMatch(flow);
      if built.Err? {
        return Err(IllegalState);
      }
      var m := built.value;
      if m.httpMethod.Some? {
        if m.path.Some? {
          db.Delete(MatchKey(flow.groupId, m.httpMethod.value, m.path.value));
        }
        db.Delete(MethodKey(flow.groupId, m.httpMethod.value));
      }
      var kafka := BuildKafkaTrigger(flow);
      if kafka.Err? {
        return Err(IllegalState);
      }
      if kafka.value.Some? {
        var unlisted := RemoveFromSetIn(KafkaTriggerKey(kafka.value.value.brokerUrl, kafka.value.value.topic), id);
        if unlisted.Err? {
          return Err(IllegalState);
        }
      }
      return Ok(());
    }

    /** The loop of `buildMatch`, overwriting its locals element by element. */
    method BuildMatch(flow: MockFlow) returns (r: Result<FlowMatchResult>)
      ensures r == MatchOf(flow)
    {
      var es := flow.elements;
      var path, httpMethod, expr: Option<string> := None, None, None;
      for i := 0 to |es|
        invariant MatchScan(es, i) == Ok(MatchFields(path, httpMethod, expr))
      {
        var e := es[i];
        if e.name == API_TRIGGER_REQUEST {
          var p := AttrText(e, "path");
          var m := AttrText(e, "method");
          if p.Err? || m.Err? {
            MatchScanFailureSticks(es, i + 1, |es|);
            return Err(NullPointer);
          }
          path, httpMethod := p.value, m.value;
        }
        if e.name == CONDITION {
          var x := AttrText(e, "expression");
          if x.Err? {
            MatchScanFailureSticks(es, i + 1, |es|);
            return Err(NullPointer);
          }
          expr := x.value;
        }
      }
      return Ok(FlowMatchResult(flow.id, expr, httpMethod, path, None, None));
    }

    /** The loop of `buildKafkaTrigger`, returning at the first complete trigger. */
    method BuildKafkaTrigger(flow: MockFlow) returns (r: Result<Option<Subscription>>)
      ensures r == SubscriptionFrom(flow.elements, 0)
    {
      var es := flow.elements;
      for i := 0 to |es|
        invariant SubscriptionFrom(es, 0) == SubscriptionFrom(es, i)
      {
        var e := es[i];
        if e.name == KAFKA_TRIGGER {
          var topic := AttrText(e, "topic");
          if topic.Err? {
            return Err(NullPointer);
          }
          var brokerUrl := AttrText(e, "broker");
          if brokerUrl.Err? {
            return Err(NullPointer);
          }
          if topic.value.Some? && brokerUrl.value.Some? {
            return Ok(Some(Subscription(brokerUrl.value.value, topic.value.value)));
          }
        }
      }
      return Ok(None);
    }

    method AddToSetIn(key: string, id: string) returns (r: Result<()>)
      requires db.Valid()
      modifies db
      ensures db.Valid()
      ensures db.kv == AddToSet(old(db.kv), key, id).kv && r == AddToSet(old(db.kv), key, id).result
    {
      var ids := ReadSet(db.kv, key);
      if ids.Err? {
        return Err(ids.error);
      }
      db.Put(key, IdSet(ids.value + {id}));
      return Ok(());
    }

    method RemoveFromSetIn(key: string, id: string) returns (r: Result<()>)
      requires db.Valid()
      modifies db
      ensures db.Valid()
      ensures db.kv == RemoveFromSet(old(db.kv), key, id).kv && r == RemoveFromSet(old(db.kv), key, id).result
    {
      var ids := ReadSet(db.kv, key);
      if ids.Err? {
        return Err(ids.error);
      }
      if id in ids.value {
        db.Put(key, IdSet(ids.value - {id}));
      }
      return Ok(());
    }
  }

  /** `get(key, FlowMatchResult.class)`. */
  function MatchAt(kv: map<string, Stored>, key: string): (r: Result<Option<FlowMatchResult>>)
    ensures key !in kv <==> r == Ok(None)
    ensures r.Err? <==> key in kv && !kv[key].MatchRec?
    ensures r.Ok? && r.value.Some? ==> kv[key] == MatchRec(r.value.value)
  {
    if key !in kv then Ok(None)
    else match AsMatch(kv[key]) case None => Err(IllegalState) case Some(m) => Ok(Some(m))
  }

  // ------------------------------------------------------------ properties

  lemma KeyFamiliesDistinct(id: string, g: Option<string>, g': Option<string>, m: string, p: string, b: string, t: string)
    ensures FlowKey(id) != GroupFlowsKey(g) && FlowKey(id) != MatchKey(g, m, p) && FlowKey(id) != MethodKey(g, m)
    ensures FlowKey(id) != KafkaTriggerKey(b, t) && GroupFlowsKey(g') != MatchKey(g, m, p) && GroupFlowsKey(g') != MethodKey(g, m)
    ensures GroupFlowsKey(g') != KafkaTriggerKey(b, t) && KafkaTriggerKey(b, t) != MatchKey(g, m, p) && KafkaTriggerKey(b, t) != MethodKey(g, m)
    ensures MatchKey(g, m, p) != MethodKey(g, m)
  {
  }

  /** A successful save can be read back by id, and its id is in its group's set. */
  lemma SaveIsReadable(kv: map<string, Stored>, flow: MockFlow)
    requires flow.id.Some? && SaveEffect(kv, flow).result.Ok?
    ensures var kv' := SaveEffect(kv, flow).kv;
      FlowAt(kv', flow.id.value) == Ok(Some(flow))
      && ReadSet(kv', GroupFlowsKey(flow.groupId)).Ok? && flow.id.value in ReadSet(kv', GroupFlowsKey(flow.groupId)).value
  {
    var id := flow.id.value;
    var kv1 := kv[FlowKey(id) := FlowRec(flow)];
    var grouped := AddToSet(kv1, GroupFlowsKey(flow.groupId), id);
    var m := MatchOf(flow).value;
    var kv3 := WithMatchRows(grouped.kv, flow.groupId, m);
    if m.httpMethod.Some? {
      KeyFamiliesDistinct(id, flow.groupId, flow.groupId, m.httpMethod.value, if m.path.Some? then m.path.value else "", "", "");
    }
    assert FlowKey(id) in kv3 && kv3[FlowKey(id)] == FlowRec(flow);
    assert GroupFlowsKey(flow.groupId) in kv3 && kv3[GroupFlowsKey(flow.groupId)] == grouped.kv[GroupFlowsKey(flow.groupId)];
    match SubscriptionFrom(flow.elements, 0)
    case Ok(None) =>
    case Ok(Some(k)) =>
      KeyFamiliesDistinct(id, flow.groupId, flow.groupId, "", "", k.brokerUrl, k.topic);
  }

  /** `countByGroupId` after a successful save counts the flow: the set grows by at most one. */
  lemma SaveCountsInGroup(kv: map<string, Stored>, flow: MockFlow)
    requires flow.id.Some? && SaveEffect(kv, flow).result.Ok?
    ensures var before := ReadSet(kv[FlowKey(flow.id.value) := FlowRec(flow)], GroupFlowsKey(flow.groupId));
      var after := ReadSet(SaveEffect(kv, flow).kv, GroupFlowsKey(flow.groupId));
      before.Ok? && after.Ok? && after.value == before.value + {flow.id.value}
  {
    SaveIsReadable(kv, flow);
  }

  /** A successful save writes the method row for a projection with a method, and the exact row when it also has a path. */
  lemma SaveWritesMatchRows(kv: map<string, Stored>, flow: MockFlow)
    requires flow.id.Some? && SaveEffect(kv, flow).result.Ok?
    requires MatchOf(flow).value.httpMethod.Some?
    ensures var m := MatchOf(flow).value; var kv' := SaveEffect(kv, flow).kv;
      MatchAt(kv', MethodKey(flow.groupId, m.httpMethod.value)) == Ok(Some(m))
      && (m.path.Some? ==> MatchAt(kv', MatchKey(flow.groupId, m.httpMethod.value, m.path.value)) == Ok(Some(m)))
  {
    var m := MatchOf(flow).value;
    KeyFamiliesDistinct(flow.id.value, flow.groupId, flow.groupId, m.httpMethod.value, if m.path.Some? then m.path.value else "", "", "");
    match SubscriptionFrom(flow.elements, 0)
    case Ok(None) =>
    case Ok(Some(k)) =>
      KeyFamiliesDistinct(flow.id.value, flow.groupId, flow.groupId, m.httpMethod.value, if m.path.Some? then m.path.value else "", k.brokerUrl, k.topic);
  }

  /** Deleting an id with no stored flow changes nothing. */
  lemma DeleteAbsentIsNoOp(kv: map<string, Stored>, id: string)
    requires FlowKey(id) !in kv
    ensures DeleteEffect(kv, id) == Effect(kv, Ok(()))
  {
  }

  /**
   * A successful delete removes the flow, its id from the group set, both
   * request rows the projection names and its id from the Kafka set.
   */
  lemma DeleteRemovesAllRows(kv: map<string, Stored>, id: string)
    requires FlowAt(kv, id).Ok? && FlowAt(kv, id).value.Some?
    requires DeleteEffect(kv, id).result.Ok?
    ensures var flow := FlowAt(kv, id).value.value; var m := MatchOf(flow).value; var kv' := DeleteEffect(kv, id).kv;
      FlowKey(id) !in kv'
      && ReadSet(kv', GroupFlowsKey(flow.groupId)).Ok? && id !in ReadSet(kv', GroupFlowsKey(flow.groupId)).value
      && (m.httpMethod.Some? ==> MethodKey(flow.groupId, m.httpMethod.value) !in kv')
      && (m.httpMethod.Some? && m.path.Some? ==> MatchKey(flow.groupId, m.httpMethod.value, m.path.value) !in kv')
  {
    var flow := FlowAt(kv, id).value.value;
    var m := MatchOf(flow).value;
    var fk, gk := FlowKey(id), GroupFlowsKey(flow.groupId);
    var kv1 := kv - {fk};
    var ungrouped := RemoveFromSet(kv1, gk, id);
    SetUpdatesReadBack(kv1, gk, id, "");
    var kv3 := WithoutMatchRows(ungrouped.kv, flow.groupId, m);
    var hm := if m.httpMethod.Some? then m.httpMethod.value else "";
    var p := if m.path.Some? then m.path.value else "";
    KeyFamiliesDistinct(id, flow.groupId, flow.groupId, hm, p, "", "");
    RemovedElsewhere(kv1, gk, id, fk);
    MatchRowsGone(ungrouped.kv, flow.groupId, m, fk);
    MatchRowsGone(ungrouped.kv, flow.groupId, m, gk);
    match SubscriptionFrom(flow.elements, 0)
    case Ok(None) =>
    case Ok(Some(k)) =>
      var kk := KafkaTriggerKey(k.brokerUrl, k.topic);
      KeyFamiliesDistinct(id, flow.groupId, flow.groupId, hm, p, k.brokerUrl, k.topic);
      RemovedElsewhere(kv3, kk, id, fk);
      RemovedElsewhere(kv3, kk, id, gk);
      RemovedElsewhere(kv3, kk, id, MethodKey(flow.groupId, hm));
      RemovedElsewhere(kv3, kk, id, MatchKey(flow.groupId, hm, p));
  }

  /** A remove from one id set leaves every other key as it was. */
  lemma RemovedElsewhere(kv: map<string, Stored>, key: string, id: string, k: string)
    requires k != key
    ensures SameAt(RemoveFromSet(kv, key, id).kv, kv, k)
  {
  }

  /** Dropping the request rows removes exactly them and leaves every other key as it was. */
  lemma MatchRowsGone(kv: map<string, Stored>, g: Option<string>, m: FlowMatchResult, k: string)
    requires m.httpMethod.Some? ==> k != MethodKey(g, m.httpMethod.value)
    requires m.httpMethod.Some? && m.path.Some? ==> k != MatchKey(g, m.httpMethod.value, m.path.value)
    ensures SameAt(WithoutMatchRows(kv, g, m), kv, k)
    ensures m.httpMethod.Some? ==> MethodKey(g, m.httpMethod.value) !in WithoutMatchRows(kv, g, m)
    ensures m.httpMethod.Some? && m.path.Some? ==> MatchKey(g, m.httpMethod.value, m.path.value) !in WithoutMatchRows(kv, g, m)
  {
  }
}
