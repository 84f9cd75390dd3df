/**
 * What the two copies of KafkaTriggerService share: the trigger payload a
 * Kafka message becomes, the projection of each candidate flow to its id
 * and condition, the eligibility rule for Kafka (a blank condition is
 * eligible, unlike for HTTP), the sort of the candidates by id and the
 * choice of the first eligible one. The copies differ only in the store
 * they read and in the type of the id, so the order on ids is a
 * parameter: `UUID.compareTo` for the storage generation, `String.compareTo`
 * for the repository generation.
 */
module KafkaSelection {
  import opened JavaLang
  import opened Values
  import opened Records
  import ElementService
  import Constant
  import MockService
  import KeyOrder

  const KAFKA_TRIGGER: string := "KAFKA_TRIGGER"
  const CONDITION: string := "CONDITION"

  // ------------------------------------------------------------ the payload

  /** The header of a Kafka trigger payload: the topic and the broker id, null when absent. */
  function KafkaHeader(topic: Option<string>, brokerId: Option<string>): (h: Entries)
    ensures Keys(h) == ["topic", "brokerId"] && UniqueKeys(h)
    ensures Lookup(h, "topic") == ElementService.StrOrNull(topic)
    ensures Lookup(h, "brokerId") == ElementService.StrOrNull(brokerId)
  {
    [("topic", ElementService.StrOrNull(topic)), ("brokerId", ElementService.StrOrNull(brokerId))]
  }

  /**
   * `buildTriggerPayload`: the message read with `toMap`, whose failure
   * escapes, as the body; a header of exactly the topic and the broker
   * id; no path.
   */
  function KafkaPayload(topic: Option<string>, message: Option<string>, brokerId: Option<string>,
                        parse: string -> Option<Value>): (r: Result<Value>)
    ensures r.Err? <==> MockService.ToMap(message, parse).Err?
    ensures r.Err? ==> r.error == Runtime
    ensures r.Ok? ==> r.value.JObject? && Keys(r.value.fields) == ["header", "path", "body"]
    ensures r.Ok? ==> Lookup(r.value.fields, "header") == JMap(KafkaHeader(topic, brokerId))
    ensures r.Ok? ==> Lookup(r.value.fields, "path") == Null
    ensures r.Ok? ==> Lookup(r.value.fields, "body") == if message.None? then Null else parse(message.value).value
  {
    var body :- MockService.ToMap(message, parse);
    Ok(MockService.TriggerPayload(KafkaHeader(topic, brokerId), Null, body))
  }

  // ------------------------------------------------------------ candidates

  /**
   * `mapToFlowMatchResult`: the flow's id and the expression of its first
   * CONDITION step, every other field null. A flow without a CONDITION
   * step is an IllegalStateException; an expression that is no String, a
   * ClassCastException.
   */
  function CandidateOf(flow: MockFlow): (r: Result<FlowMatchResult>)
    ensures FirstElementIndex(flow.elements, CONDITION).None? ==> r == Err(IllegalState)
    ensures FirstElementIndex(flow.elements, CONDITION).Some? ==>
      var e := flow.elements[FirstElementIndex(flow.elements, CONDITION).value];
      (r.Ok? <==> ElementService.AttributeValue(e, "expression").Ok?)
      && (r.Ok? ==> r.value.expression == ElementService.AttributeValue(e, "expression").value)
    ensures r.Ok? ==> r.value.id == flow.id
    ensures r.Ok? ==> r.value.httpMethod.None? && r.value.path.None? && r.value.brokerId.None? && r.value.topic.None?
    ensures r.Err? ==> r.error == IllegalState || r.error == ClassCast
  {
    match FirstElementIndex(flow.elements, CONDITION)
    case None => Err(IllegalState)
    case Some(i) =>
      var expression :- ElementService.AttributeValue(flow.elements[i], "expression");
      Ok(FlowMatchResult(flow.id, expression, None, None, None, None))
  }

  /**
   * The stream's `map(this::mapToFlowMatchResult)` over the flows in the
   * order the stream visits them: one candidate per flow, in that order,
   * or the exception of the first flow that has none.
   */
  function Candidates(flows: seq<MockFlow>): (r: Result<seq<FlowMatchResult>>)
    ensures r.Ok? <==> forall i | 0 <= i < |flows| :: CandidateOf(flows[i]).Ok?
    ensures r.Ok? ==> |r.value| == |flows| && forall i | 0 <= i < |flows| :: r.value[i] == CandidateOf(flows[i]).value
    ensures r.Err? ==> r.error == IllegalState || r.error == ClassCast
  {
    if flows == [] then Ok([])
    else
      var c :- CandidateOf(flows[0]);
      var rest :- Candidates(flows[1..]);
      Ok([c] + rest)
  }

  /** The exception that escapes is the one of the first flow, in visiting order, that has no candidate. */
  lemma {:induction false} CandidatesFailAtFirst(flows: seq<MockFlow>, i: nat)
    requires i < |flows| && CandidateOf(flows[i]).Err? && forall j | 0 <= j < i :: CandidateOf(flows[j]).Ok?
    ensures Candidates(flows) == Err(CandidateOf(flows[i]).error)
    decreases i
  {
    if i > 0 {
      CandidatesFailAtFirst(flows[1..], i - 1);
    }
  }

  // ------------------------------------------------------------ eligibility

  /**
   * `isConditionEligible` of the Kafka trigger: a null or blank condition
   * is eligible; one the blacklist matches (`Constant.IsBlacklisted`) is
   * not; any other must evaluate to TRUE over the payload, and one whose
   * evaluation fails (`None`) is not eligible.
   */
  function KafkaEligible(m: FlowMatchResult, payload: Value, evaluate: (string, Value) -> Option<bool>): (b: bool)
    ensures m.expression.None? || IsBlank(m.expression.value) ==> b
    ensures m.expression.Some? && !IsBlank(m.expression.value) && Constant.IsBlacklisted(m.expression.value) ==> !b
    ensures m.expression.Some? && !IsBlank(m.expression.value) && !Constant.IsBlacklisted(m.expression.value) ==>
      (b <==> evaluate(m.expression.value, payload) == Some(true))
  {
    if m.expression.None? || IsBlank(m.expression.value) then true
    else if Constant.IsBlacklisted(m.expression.value) then false
    else evaluate(m.expression.value, payload) == Some(true)
  }

  /**
   * The blacklist as written does not stop `1\n;2`: both triggers hand
   * it to the evaluator, so it is eligible exactly when it evaluates to
   * TRUE.
   */
  lemma NewlineConditionIsEvaluated(m: FlowMatchResult, payload: Value, evaluate: (string, Value) -> Option<bool>)
    requires m.expression == Some("1\n;2")
    ensures KafkaEligible(m, payload, evaluate) <==> evaluate("1\n;2", payload) == Some(true)
    ensures MockService.ConditionEligible(m, payload, evaluate) <==> evaluate("1\n;2", payload) == Some(true)
  {
    Constant.NewlineSemicolonPassesGuard();
    assert !IsJavaWhitespace("1\n;2"[0]);
  }

  /**
   * The two triggers disagree exactly on conditions that are missing or
   * blank: Kafka takes them, HTTP refuses them; on every other condition
   * they agree.
   */
  lemma KafkaAndHttpDifferOnBlank(m: FlowMatchResult, payload: Value, evaluate: (string, Value) -> Option<bool>)
    ensures m.expression.None? || IsBlank(m.expression.value) ==>
      KafkaEligible(m, payload, evaluate) && !MockService.ConditionEligible(m, payload, evaluate)
    ensures m.expression.Some? && !IsBlank(m.expression.value) ==>
      KafkaEligible(m, payload, evaluate) == MockService.ConditionEligible(m, payload, evaluate)
  {
  }

  // ------------------------------------------------------------ the order on ids

  /** What `compareTo` gives: any two ids compare, and the order is transitive. */
  ghost predicate TotalOrder(le: (string, string) -> bool) {
    (forall a, b :: le(a, b) || le(b, a))
    && (forall a, b, c :: le(a, b) && le(b, c) ==> le(a, c))
  }

  /** Two ids that compare both ways are the same id. */
  ghost predicate Antisymmetric(le: (string, string) -> bool) {
    forall a, b :: le(a, b) && le(b, a) ==> a == b
  }

  lemma Reflexive(le: (string, string) -> bool, a: string)
    requires TotalOrder(le)
    ensures le(a, a)
  {
    assert le(a, a) || le(a, a);
  }

  /** `String.compareTo(a, b) <= 0`: lexicographic order on characters. */
  predicate StringLe(a: string, b: string) {
    !KeyOrder.Less(b, a)
  }

  /** String order is a total order. */
  lemma StringOrderIsTotal()
    ensures TotalOrder(StringLe) && Antisymmetric(StringLe)
  {
    forall a, b
      ensures StringLe(a, b) || StringLe(b, a)
    {
      KeyOrder.LessTotal(a, b);
      if KeyOrder.Less(a, b) { KeyOrder.LessAsymmetric(a, b); }
    }
    forall a, b, c | StringLe(a, b) && StringLe(b, c)
      ensures StringLe(a, c)
    {
      KeyOrder.LessTotal(a, b);
      if KeyOrder.Less(c, a) {
        if KeyOrder.Less(a, b) { KeyOrder.LessTransitive(c, a, b); }
      }
    }
    forall a, b | StringLe(a, b) && StringLe(b, a)
      ensures a == b
    {
      KeyOrder.LessTotal(a, b);
    }
  }

  // ------------------------------------------------------------ sorting by id

  predicate IdsPresent(cs: seq<FlowMatchResult>) {
    forall i | 0 <= i < |cs| :: cs[i].id.Some?
  }

  predicate SortedById(cs: seq<FlowMatchResult>, le: (string, string) -> bool)
    requires IdsPresent(cs)
  {
    forall i, j | 0 <= i < j < |cs| :: le(cs[i].id.value, cs[j].id.value)
  }

  /** Insert before the first candidate whose id is not below, so equal ids keep their order. */
  function InsertById(x: FlowMatchResult, s: seq<FlowMatchResult>, le: (string, string) -> bool): (r: seq<FlowMatchResult>)
    requires x.id.Some? && IdsPresent(s)
    ensures |r| == |s| + 1 && multiset(r) == multiset(s) + multiset{x} && IdsPresent(r)
  {
    if s == [] then [x]
    else if le(x.id.value, s[0].id.value) then [x] + s
    else
      var rest := InsertById(x, s[1..], le);
      assert s == [s[0]] + s[1..];
      [s[0]] + rest
  }

  /** `candidates.sort(Comparator.comparing(FlowMatchResult::getId))`: a stable sort by id. */
  function SortById(cs: seq<FlowMatchResult>, le: (string, string) -> bool): (r: seq<FlowMatchResult>)
    requires IdsPresent(cs)
    ensures |r| == |cs| && multiset(r) == multiset(cs) && IdsPresent(r)
  {
    if cs == [] then []
    else
      assert cs == [cs[0]] + cs[1..];
      InsertById(cs[0], SortById(cs[1..], le), le)
  }

  lemma {:induction false} InsertByIdSorted(x: FlowMatchResult, s: seq<FlowMatchResult>, le: (string, string) -> bool)
    requires TotalOrder(le) && x.id.Some? && IdsPresent(s) && SortedById(s, le)
    ensures SortedById(InsertById(x, s, le), le)
    decreases |s|
  {
    if s != [] && !le(x.id.value, s[0].id.value) {
      InsertByIdSorted(x, s[1..], le);
      var r := InsertById(x, s, le);
      var rest := InsertById(x, s[1..], le);
      assert r == [s[0]] + rest;
      forall k | 0 <= k < |rest|
        ensures le(s[0].id.value, rest[k].id.value)
      {
        assert rest[k] in multiset(rest);
        assert rest[k] == x || rest[k] in multiset(s[1..]);
        if rest[k] != x {
          var j :| 0 <= j < |s[1..]| && s[1..][j] == rest[k];
          assert s[j + 1] == rest[k];
        }
      }
    }
  }

  /** The sort leaves the candidates in ascending order of id. */
  lemma {:induction false} SortByIdSorted(cs: seq<FlowMatchResult>, le: (string, string) -> bool)
    requires TotalOrder(le) && IdsPresent(cs)
    ensures SortedById(SortById(cs, le), le)
    decreases |cs|
  {
    if cs != [] {
      SortByIdSorted(cs[1..], le);
      InsertByIdSorted(cs[0], SortById(cs[1..], le), le);
    }
  }

  // ------------------------------------------------------------ the choice

  /** The loop over the sorted candidates: the index of the first eligible one. */
  function FirstEligible(cs: seq<FlowMatchResult>, payload: Value, evaluate: (string, Value) -> Option<bool>): (r: Option<nat>)
    ensures r.Some? ==> r.value < |cs| && KafkaEligible(cs[r.value], payload, evaluate)
    ensures r.Some? ==> forall j | 0 <= j < r.value :: !KafkaEligible(cs[j], payload, evaluate)
    ensures r.None? ==> forall j | 0 <= j < |cs| :: !KafkaEligible(cs[j], payload, evaluate)
  {
    if cs == [] then None
    else if KafkaEligible(cs[0], payload, evaluate) then Some(0)
    else match FirstEligible(cs[1..], payload, evaluate)
      case None => None
      case Some(k) => Some(k + 1)
  }

  /** The candidates in the order the loop tries them: a single one is not sorted, and so not compared. */
  function SortedCandidates(cs: seq<FlowMatchResult>, le: (string, string) -> bool): (r: seq<FlowMatchResult>)
    requires |cs| <= 1 || IdsPresent(cs)
    ensures multiset(r) == multiset(cs)
  {
    if |cs| <= 1 then cs else SortById(cs, le)
  }

  /**
   * `findMockFlow` once the candidates are built: none at all is 404
   * MOCK_NOT_FOUND; two or more are sorted by id, and a null id among
   * them makes the comparator throw NullPointerException; the first
   * eligible candidate in that order is chosen, and 404 MOCK_NOT_FOUND
   * when none is.
   */
  function Chosen(cs: seq<FlowMatchResult>, payload: Value, evaluate: (string, Value) -> Option<bool>,
                  le: (string, string) -> bool): (r: Result<FlowMatchResult>)
    ensures cs == [] ==> r == Err(MOCK_NOT_FOUND)
    ensures |cs| >= 2 && !IdsPresent(cs) ==> r == Err(NullPointer)
    ensures r.Ok? ==> r.value in cs && KafkaEligible(r.value, payload, evaluate)
    ensures r.Err? ==> r.error == MOCK_NOT_FOUND || r.error == NullPointer
  {
    if cs == [] then Err(MOCK_NOT_FOUND)
    else if |cs| >= 2 && !IdsPresent(cs) then Err(NullPointer)
    else
      var sorted := SortedCandidates(cs, le);
      match FirstEligible(sorted, payload, evaluate)
      case None => Err(MOCK_NOT_FOUND)
      case Some(i) =>
        assert sorted[i] in multiset(cs);
        Ok(sorted[i])
  }

  /**
   * The selection step of `findMockFlow` once the candidates are built:
   * none is 404, two or more are sorted by id, then the first eligible one
   * is taken. Both service generations call this with their own id order.
   */
  method Choose(cs: seq<FlowMatchResult>, payload: Value, evaluate: (string, Value) -> Option<bool>,
                le: (string, string) -> bool) returns (r: Result<FlowMatchResult>)
    ensures r == Chosen(cs, payload, evaluate, le)
  {
    if |cs| == 0 {
      return Err(MOCK_NOT_FOUND);
    }
    if |cs| >= 2 && !IdsPresent(cs) {
      return Err(NullPointer);
    }
    var sorted := SortedCandidates(cs, le);
    r := FirstEligibleOf(sorted, payload, evaluate);
  }

  /** The loop of `findMockFlow`: the first candidate, in sorted order, whose condition holds; 404 when none does. */
  method FirstEligibleOf(sorted: seq<FlowMatchResult>, payload: Value, evaluate: (string, Value) -> Option<bool>)
    returns (r: Result<FlowMatchResult>)
    ensures FirstEligible(sorted, payload, evaluate).None? ==> r == Err(MOCK_NOT_FOUND)
    ensures FirstEligible(sorted, payload, evaluate).Some? ==> r == Ok(sorted[FirstEligible(sorted, payload, evaluate).value])
  {
    for i := 0 to |sorted|
      invariant forall j | 0 <= j < i :: !KafkaEligible(sorted[j], payload, evaluate)
    {
      if KafkaEligible(sorted[i], payload, evaluate) {
        assert FirstEligible(sorted, payload, evaluate) == Some(i);
        return Ok(sorted[i]);
      }
    }
    return Err(MOCK_NOT_FOUND);
  }

  /** Every candidate of a list is one of its sorted order, and the other way round. */
  lemma SameElements(a: seq<FlowMatchResult>, b: seq<FlowMatchResult>, x: FlowMatchResult)
    requires multiset(a) == multiset(b)
    ensures x in a <==> x in b
  {
    assert x in a <==> x in multiset(a);
    assert x in b <==> x in multiset(b);
  }

  /**
   * The candidate chosen is eligible and has the least id of all eligible
   * candidates, whatever order the candidates were listed in.
   */
  lemma ChosenIsLeastEligible(cs: seq<FlowMatchResult>, payload: Value, evaluate: (string, Value) -> Option<bool>,
                              le: (string, string) -> bool)
    requires TotalOrder(le) && IdsPresent(cs) && Chosen(cs, payload, evaluate, le).Ok?
    ensures var m := Chosen(cs, payload, evaluate, le).value;
      m in cs && KafkaEligible(m, payload, evaluate)
      && forall c | c in cs && KafkaEligible(c, payload, evaluate) :: le(m.id.value, c.id.value)
  {
    var sorted := SortedCandidates(cs, le);
    var i := FirstEligible(sorted, payload, evaluate).value;
    var m := Chosen(cs, payload, evaluate, le).value;
    assert m == sorted[i];
    if |cs| > 1 {
      SortByIdSorted(cs, le);
    }
    SameElements(cs, sorted, m);
    Reflexive(le, m.id.value);
    forall c | c in cs && KafkaEligible(c, payload, evaluate)
      ensures le(m.id.value, c.id.value)
    {
      SameElements(cs, sorted, c);
      var j :| 0 <= j < |sorted| && sorted[j] == c;
      if j != i {
        assert i < j;
      }
    }
  }

  /** The choice ends in 404 MOCK_NOT_FOUND exactly when no candidate is eligible, once the ids can be compared. */
  lemma ChosenNotFoundIffNoneEligible(cs: seq<FlowMatchResult>, payload: Value, evaluate: (string, Value) -> Option<bool>,
                                      le: (string, string) -> bool)
    requires |cs| <= 1 || IdsPresent(cs)
    ensures Chosen(cs, payload, evaluate, le) == Err(MOCK_NOT_FOUND) <==>
      forall c | c in cs :: !KafkaEligible(c, payload, evaluate)
  {
    if cs != [] {
      var sorted := SortedCandidates(cs, le);
      if FirstEligible(sorted, payload, evaluate).None? {
        forall c | c in cs
          ensures !KafkaEligible(c, payload, evaluate)
        {
          SameElements(cs, sorted, c);
        }
      }
    }
  }

  /** No two distinct candidates share an id. */
  predicate DistinctIds(cs: seq<FlowMatchResult>) {
    forall i, j | 0 <= i < |cs| && 0 <= j < |cs| && cs[i].id == cs[j].id :: cs[i] == cs[j]
  }

  /**
   * The flows come out of a hash set in an order Java leaves open; with
   * distinct ids and an order that is total and antisymmetric, every
   * order of the same candidates leads to the same choice.
   */
  lemma SelectionIgnoresListingOrder(cs: seq<FlowMatchResult>, cs': seq<FlowMatchResult>, payload: Value,
                                     evaluate: (string, Value) -> Option<bool>, le: (string, string) -> bool)
    requires multiset(cs) == multiset(cs') && DistinctIds(cs)
    requires TotalOrder(le) && Antisymmetric(le)
    ensures Chosen(cs, payload, evaluate, le) == Chosen(cs', payload, evaluate, le)
  {
    assert |cs| == |multiset(cs)| == |cs'|;
    SameIdsPresent(cs, cs');
    if cs != [] && (|cs| == 1 || IdsPresent(cs)) {
      SameEligibility(cs, cs', payload, evaluate, le);
      var r, r' := Chosen(cs, payload, evaluate, le), Chosen(cs', payload, evaluate, le);
      if r.Ok? && r'.Ok? {
        if |cs| == 1 {
          SameElements(cs, cs', cs'[0]);
        } else {
          LeastEligibleIsUnique(cs, cs', payload, evaluate, le);
        }
      }
    }
  }

  /** Reordering keeps whether every candidate has an id. */
  lemma SameIdsPresent(cs: seq<FlowMatchResult>, cs': seq<FlowMatchResult>)
    requires multiset(cs) == multiset(cs')
    ensures IdsPresent(cs) <==> IdsPresent(cs')
  {
    forall i | 0 <= i < |cs|
      ensures IdsPresent(cs') ==> cs[i].id.Some?
    {
      SameElements(cs, cs', cs[i]);
    }
    forall i | 0 <= i < |cs'|
      ensures IdsPresent(cs) ==> cs'[i].id.Some?
    {
      SameElements(cs, cs', cs'[i]);
    }
  }

  /** Reordering keeps whether the choice finds nothing. */
  lemma SameEligibility(cs: seq<FlowMatchResult>, cs': seq<FlowMatchResult>, payload: Value,
                        evaluate: (string, Value) -> Option<bool>, le: (string, string) -> bool)
    requires multiset(cs) == multiset(cs') && (|cs| <= 1 || IdsPresent(cs)) && (|cs'| <= 1 || IdsPresent(cs'))
    ensures Chosen(cs, payload, evaluate, le) == Err(MOCK_NOT_FOUND) <==> Chosen(cs', payload, evaluate, le) == Err(MOCK_NOT_FOUND)
  {
    ChosenNotFoundIffNoneEligible(cs, payload, evaluate, le);
    ChosenNotFoundIffNoneEligible(cs', payload, evaluate, le);
    forall c
      ensures c in cs <==> c in cs'
    {
      SameElements(cs, cs', c);
    }
  }

  /** With distinct ids and an antisymmetric order, the least eligible candidate is one and the same. */
  lemma LeastEligibleIsUnique(cs: seq<FlowMatchResult>, cs': seq<FlowMatchResult>, payload: Value,
                              evaluate: (string, Value) -> Option<bool>, le: (string, string) -> bool)
    requires multiset(cs) == multiset(cs') && DistinctIds(cs) && IdsPresent(cs) && IdsPresent(cs')
    requires TotalOrder(le) && Antisymmetric(le)
    requires Chosen(cs, payload, evaluate, le).Ok? && Chosen(cs', payload, evaluate, le).Ok?
    ensures Chosen(cs, payload, evaluate, le) == Chosen(cs', payload, evaluate, le)
  {
    var m, m' := Chosen(cs, payload, evaluate, le).value, Chosen(cs', payload, evaluate, le).value;
    ChosenIsLeastEligible(cs, payload, evaluate, le);
    ChosenIsLeastEligible(cs', payload, evaluate, le);
    SameElements(cs, cs', m);
    SameElements(cs, cs', m');
    var i :| 0 <= i < |cs| && cs[i] == m;
    var j :| 0 <= j < |cs| && cs[j] == m';
    assert le(m.id.value, m'.id.value) && le(m'.id.value, m.id.value);
  }

  // ------------------------------------------------------------ the context

  /**
   * `setTriggerContext`: the order number of the flow's first KAFKA_TRIGGER
   * step (`findAny` on a sequential stream); IllegalStateException when
   * there is none.
   */
  function TriggerOrder(flow: MockFlow): (r: Result<int>)
    ensures FirstElementIndex(flow.elements, KAFKA_TRIGGER).None? <==> r == Err(IllegalState)
    ensures r.Ok? ==> exists i | 0 <= i < |flow.elements| :: flow.elements[i].name == KAFKA_TRIGGER && flow.elements[i].orderNumber == r.value
  {
    match FirstElementIndex(flow.elements, KAFKA_TRIGGER)
    case None => Err(IllegalState)
    case Some(i) => Ok(flow.elements[i].orderNumber)
  }

  /** A sequence that visits every element of a set exactly once. */
  ghost predicate IsListing(listing: seq<MockFlow>, s: set<MockFlow>) {
    |listing| == |s| && (forall f | f in s :: f in listing) && (forall i | 0 <= i < |listing| :: listing[i] in s)
  }

  /** A sequence has at most as many distinct elements as it has positions. */
  lemma {:induction false} ElementsAtMost<T>(l: seq<T>)
    ensures |set x | x in l| <= |l|
  {
    if l != [] {
      ElementsAtMost(l[1..]);
      assert (set x | x in l) == {l[0]} + (set x | x in l[1..]);
    }
  }

  /** A sequence that repeats an element has fewer distinct elements than positions. */
  lemma {:induction false} RepeatShrinks<T>(l: seq<T>, i: nat, j: nat)
    requires i < j < |l| && l[i] == l[j]
    ensures |set x | x in l| < |l|
  {
    if i == 0 {
      ElementsAtMost(l[1..]);
      assert l[1..][j - 1] == l[0];
      assert (set x | x in l) == (set x | x in l[1..]);
    } else {
      RepeatShrinks(l[1..], i - 1, j - 1);
      assert (set x | x in l) == {l[0]} + (set x | x in l[1..]);
    }
  }

  /** A listing visits no element twice. */
  lemma ListingIsDistinct(listing: seq<MockFlow>, s: set<MockFlow>)
    requires IsListing(listing, s)
    ensures forall i, j | 0 <= i < j < |listing| :: listing[i] != listing[j]
  {
    assert (set x | x in listing) == s;
    forall i, j | 0 <= i < j < |listing|
      ensures listing[i] != listing[j]
    {
      if listing[i] == listing[j] {
        RepeatShrinks(listing, i, j);
      }
    }
  }

  /** A sequence without repeats counts each of its elements once. */
  lemma {:induction false} DistinctMultiset<T>(l: seq<T>)
    requires forall i, j | 0 <= i < j < |l| :: l[i] != l[j]
    ensures multiset(l) == multiset(set x | x in l)
  {
    if l != [] {
      DistinctMultiset(l[1..]);
      assert l == [l[0]] + l[1..];
      assert l[0] !in l[1..];
      assert (set x | x in l) == {l[0]} + (set x | x in l[1..]);
    }
  }

  /**
   * Two listings of the same flows, no two of which share an id, both
   * yield candidates or both fail; when they yield them, the candidates
   * are the same ones, each id at most once, in another order.
   */
  lemma CandidatesIgnoreListingOrder(l: seq<MockFlow>, l': seq<MockFlow>, s: set<MockFlow>)
    requires IsListing(l, s) && IsListing(l', s)
    requires forall f, g | f in s && g in s && f.id == g.id :: f == g
    ensures Candidates(l).Ok? <==> Candidates(l').Ok?
    ensures Candidates(l).Ok? ==>
      multiset(Candidates(l).value) == multiset(Candidates(l').value) && DistinctIds(Candidates(l).value)
  {
    CandidatesOfListingOk(l, s);
    CandidatesOfListingOk(l', s);
    if Candidates(l).Ok? {
      var cs, cs' := Candidates(l).value, Candidates(l').value;
      CandidatesOfListing(l, s);
      CandidatesOfListing(l', s);
      SameMembers(cs, cs', s);
    }
  }

  /** A listing yields candidates exactly when every flow of the set has one. */
  lemma CandidatesOfListingOk(l: seq<MockFlow>, s: set<MockFlow>)
    requires IsListing(l, s)
    ensures Candidates(l).Ok? <==> forall f | f in s :: CandidateOf(f).Ok?
  {
  }

  lemma SameMembers(cs: seq<FlowMatchResult>, cs': seq<FlowMatchResult>, s: set<MockFlow>)
    requires forall x :: x in cs <==> exists f | f in s :: CandidateOf(f) == Ok(x)
    requires forall x :: x in cs' <==> exists f | f in s :: CandidateOf(f) == Ok(x)
    ensures (set x | x in cs) == (set x | x in cs')
  {
  }

  /** The candidates of a listing of flows with distinct ids: no repeats, and exactly the candidates of the set. */
  lemma CandidatesOfListing(l: seq<MockFlow>, s: set<MockFlow>)
    requires IsListing(l, s) && Candidates(l).Ok?
    requires forall f, g | f in s && g in s && f.id == g.id :: f == g
    ensures var cs := Candidates(l).value;
      DistinctIds(cs) && multiset(cs) == multiset(set x | x in cs)
      && forall x :: x in cs <==> exists f | f in s :: CandidateOf(f) == Ok(x)
  {
    var cs := Candidates(l).value;
    ListingIsDistinct(l, s);
    assert forall i | 0 <= i < |cs| :: cs[i].id == l[i].id;
    assert DistinctIds(cs);
    DistinctMultiset(cs);
    forall x
      ensures x in cs <==> exists f | f in s :: CandidateOf(f) == Ok(x)
    {
      if x in cs {
        var i :| 0 <= i < |cs| && cs[i] == x;
        assert CandidateOf(l[i]) == Ok(x);
      }
      if exists f | f in s :: CandidateOf(f) == Ok(x) {
        var f :| f in s && CandidateOf(f) == Ok(x);
        var i :| 0 <= i < |l| && l[i] == f;
        assert cs[i] == x;
      }
    }
  }

  /** `ChosenIsLeastEligible` told of the listed flows the candidates come from. */
  lemma ChosenFlowIsLeastEligible(listing: seq<MockFlow>, payload: Value, evaluate: (string, Value) -> Option<bool>,
                                  le: (string, string) -> bool)
    requires TotalOrder(le) && Candidates(listing).Ok? && IdsPresent(Candidates(listing).value)
    requires Chosen(Candidates(listing).value, payload, evaluate, le).Ok?
    ensures var m := Chosen(Candidates(listing).value, payload, evaluate, le).value;
      exists f | f in listing :: CandidateOf(f) == Ok(m) && KafkaEligible(m, payload, evaluate) && f.id == m.id
        && forall g | g in listing && KafkaEligible(CandidateOf(g).value, payload, evaluate) :: le(f.id.value, g.id.value)
  {
    var cs := Candidates(listing).value;
    ChosenIsLeastEligible(cs, payload, evaluate, le);
    var m := Chosen(cs, payload, evaluate, le).value;
    var i :| 0 <= i < |cs| && cs[i] == m;
    var f := listing[i];
    forall g | g in listing && KafkaEligible(CandidateOf(g).value, payload, evaluate)
      ensures le(f.id.value, g.id.value)
    {
      ListedCandidate(listing, g);
    }
  }

  lemma ListedCandidate(listing: seq<MockFlow>, g: MockFlow)
    requires Candidates(listing).Ok? && g in listing
    ensures CandidateOf(g).Ok? && CandidateOf(g).value in Candidates(listing).value
  {
    var j :| 0 <= j < |listing| && listing[j] == g;
    assert Candidates(listing).value[j] == CandidateOf(g).value;
  }
}
