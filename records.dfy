/**
 * The records the mock server stores and passes around: flows and their
 * typed steps, the match projections written to the request index,
 * groups, Kafka brokers, global variables and collection nodes. Both code
 * generations use the same shapes; identifiers are held as their text,
 * and a field that Java leaves nullable is an `Option`.
 */
module Records {
  import opened JavaLang
  import opened Values

  /** One field of a step: its name, the schema type name it was stored with, and its raw value. */
  datatype Attribute = Attribute(name: string, dataType: string, value: Value)

  /** One step of a flow. */
  datatype FlowElement = FlowElement(id: string, name: string, orderNumber: int, attributes: seq<Attribute>)

  datatype MockFlow = MockFlow(id: Option<string>, groupId: Option<string>, elements: seq<FlowElement>)

  /** The projection of a flow kept in the request and Kafka indexes. */
  datatype FlowMatchResult = FlowMatchResult(
    id: Option<string>,
    expression: Option<string>,
    httpMethod: Option<string>,
    path: Option<string>,
    brokerId: Option<string>,
    topic: Option<string>)

  datatype MockGroup = MockGroup(id: Option<string>, name: string, isActive: Option<bool>)

  datatype KafkaBroker = KafkaBroker(id: Option<string>, url: Option<string>)

  datatype GlobalVariable = GlobalVariable(key: Option<string>, value: Value)

  datatype CollectionNode = CollectionNode(id: string, name: string, nodeType: string, parentId: Option<string>)

  /** The body of a create or update request: the flow's steps, each a map from field name to raw value. */
  datatype CreateMockRequest = CreateMockRequest(name: Option<string>, groupId: Option<string>, flowSteps: Option<seq<Entries>>)

  function WithElements(f: MockFlow, es: seq<FlowElement>): (r: MockFlow)
    ensures r.id == f.id && r.groupId == f.groupId && r.elements == es
  {
    f.(elements := es)
  }

  // ------------------------------------------------------------ attributes

  /** The index of the first attribute with this name, if any. */
  function FirstAttributeIndex(attrs: seq<Attribute>, name: string): (r: Option<nat>)
    ensures r.Some? ==> r.value < |attrs| && attrs[r.value].name == name
    ensures r.Some? ==> forall j | 0 <= j < r.value :: attrs[j].name != name
    ensures r.None? ==> forall j | 0 <= j < |attrs| :: attrs[j].name != name
  {
    if attrs == [] then None
    else if attrs[0].name == name then Some(0)
    else match FirstAttributeIndex(attrs[1..], name)
      case None => None
      case Some(k) => Some(k + 1)
  }

  /**
   * The string form of the first attribute with this name, mapped through
   * `Objects.toString(value, null)` and then `findFirst()`: no attribute
   * gives an empty answer, and an attribute whose value is null makes
   * `findFirst` throw NullPointerException.
   */
  function AttrText(e: FlowElement, name: string): (r: Result<Option<string>>)
    ensures r.Err? <==> (FirstAttributeIndex(e.attributes, name).Some? && e.attributes[FirstAttributeIndex(e.attributes, name).value].value.Null?)
    ensures r == Ok(None) <==> FirstAttributeIndex(e.attributes, name).None?
    ensures r.Ok? && r.value.Some? ==> r.value.value == Text(e.attributes[FirstAttributeIndex(e.attributes, name).value].value)
  {
    match FirstAttributeIndex(e.attributes, name)
    case None => Ok(None)
    case Some(i) => if e.attributes[i].value.Null? then Err(NullPointer) else Ok(Some(Text(e.attributes[i].value)))
  }

  /** The index of the first element with this name, if any. */
  function FirstElementIndex(es: seq<FlowElement>, name: string): (r: Option<nat>)
    ensures r.Some? ==> r.value < |es| && es[r.value].name == name
    ensures r.Some? ==> forall j | 0 <= j < r.value :: es[j].name != name
    ensures r.None? ==> forall j | 0 <= j < |es| :: es[j].name != name
  {
    if es == [] then None
    else if es[0].name == name then Some(0)
    else match FirstElementIndex(es[1..], name)
      case None => None
      case Some(k) => Some(k + 1)
  }

  // ---------------------------------------------- sorting by orderNumber

  predicate SortedByOrder(es: seq<FlowElement>) {
    forall i, j | 0 <= i < j < |es| :: es[i].orderNumber <= es[j].orderNumber
  }

  /** A run of consecutive elements of a list in order is in order. */
  lemma SliceSorted(es: seq<FlowElement>, lo: nat, hi: nat)
    requires SortedByOrder(es) && lo <= hi <= |es|
    ensures SortedByOrder(es[lo..hi])
  {
    var s := es[lo..hi];
    forall i, j | 0 <= i < j < |s| ensures s[i].orderNumber <= s[j].orderNumber {
      assert s[i] == es[lo + i] && s[j] == es[lo + j];
    }
  }

  /** The elements with this order number, in their relative order. */
  function WithOrder(es: seq<FlowElement>, k: int): (r: seq<FlowElement>)
    ensures |r| <= |es|
  {
    if es == [] then [] else (if es[0].orderNumber == k then [es[0]] else []) + WithOrder(es[1..], k)
  }

  function InsertByOrder(x: FlowElement, s: seq<FlowElement>): (r: seq<FlowElement>)
    ensures multiset(r) == multiset(s) + multiset{x}
  {
    if s == [] || x.orderNumber <= s[0].orderNumber then [x] + s
    else
      assert s == [s[0]] + s[1..];
      [s[0]] + InsertByOrder(x, s[1..])
  }

  lemma {:induction false} InsertByOrderSorted(x: FlowElement, s: seq<FlowElement>)
    requires SortedByOrder(s)
    ensures SortedByOrder(InsertByOrder(x, s))
    decreases |s|
  {
    if s != [] && x.orderNumber > s[0].orderNumber {
      var t := InsertByOrder(x, s[1..]);
      InsertByOrderSorted(x, s[1..]);
      forall j | 0 <= j < |t| ensures s[0].orderNumber <= t[j].orderNumber {
        assert t[j] in multiset(t);
        assert t[j] == x || t[j] in multiset(s[1..]);
        if t[j] != x {
          var m :| 0 <= m < |s[1..]| && s[1..][m] == t[j];
          assert s[m + 1] == t[j];
        }
      }
      var r := [s[0]] + t;
      forall a, b | 0 <= a < b < |r| ensures r[a].orderNumber <= r[b].orderNumber {
        if a > 0 { assert r[a] == t[a - 1] && r[b] == t[b - 1]; }
        else { assert r[b] == t[b - 1]; }
      }
    }
  }

  /**
   * `List.sort(Comparator.comparing(FlowElement::getOrderNumber))` and
   * `stream().sorted(...)`: a stable sort by order number.
   */
  function SortByOrder(es: seq<FlowElement>): (r: seq<FlowElement>)
    ensures SortedByOrder(r)
    ensures multiset(r) == multiset(es)
  {
    if es == [] then [] else
      assert es == [es[0]] + es[1..];
      InsertByOrderSorted(es[0], SortByOrder(es[1..]));
      InsertByOrder(es[0], SortByOrder(es[1..]))
  }

  lemma {:induction false} WithOrderInsert(x: FlowElement, s: seq<FlowElement>, k: int)
    ensures WithOrder(InsertByOrder(x, s), k) == (if x.orderNumber == k then [x] else []) + WithOrder(s, k)
    decreases |s|
  {
    if s == [] || x.orderNumber <= s[0].orderNumber {
      assert ([x] + s)[1..] == s;
    } else {
      WithOrderInsert(x, s[1..], k);
      var t := InsertByOrder(x, s[1..]);
      var h := if s[0].orderNumber == k then [s[0]] else [];
      var xs := if x.orderNumber == k then [x] else [];
      assert ([s[0]] + t)[0] == s[0] && ([s[0]] + t)[1..] == t;
      assert WithOrder(InsertByOrder(x, s), k) == h + (xs + WithOrder(s[1..], k));
      assert WithOrder(s, k) == h + WithOrder(s[1..], k);
      SwapEmpty(h, xs, WithOrder(s[1..], k));
    }
  }

  lemma SwapEmpty(a: seq<FlowElement>, b: seq<FlowElement>, w: seq<FlowElement>)
    requires a == [] || b == []
    ensures a + (b + w) == b + (a + w)
  {
    if a == [] {
      assert a + (b + w) == b + w && b + (a + w) == b + w;
    } else {
      assert a + (b + w) == a + w && b + (a + w) == a + w;
    }
  }

  /** The sort is stable: elements with the same order number keep their relative order. */
  lemma {:induction false} SortByOrderStable(es: seq<FlowElement>, k: int)
    ensures WithOrder(SortByOrder(es), k) == WithOrder(es, k)
    decreases |es|
  {
    if es != [] {
      SortByOrderStable(es[1..], k);
      WithOrderInsert(es[0], SortByOrder(es[1..]), k);
    }
  }

  /** Sorting an already sorted list changes nothing. */
  lemma {:induction false} SortSortedIsIdentity(es: seq<FlowElement>)
    requires SortedByOrder(es)
    ensures SortByOrder(es) == es
    decreases |es|
  {
    if es != [] {
      SortSortedIsIdentity(es[1..]);
      assert SortByOrder(es[1..]) == es[1..];
    }
  }
}
