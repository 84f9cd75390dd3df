/**
 * The step conversion shared by MockFlowService and CreateMockService of
 * the repository generation, and the step maps `getByMockId` builds:
 * `toFlowElement` turns one request step (a JSON object) into a flow
 * element with a fresh id, one attribute per key besides `elementName`
 * and `orderNumber`, typed by the schema's rule for that key; the detail
 * view turns an element back into a map with `orderNumber` as an Integer.
 */
module FlowStepMapping {
  import opened JavaLang
  import opened Values
  import opened Records
  import opened ElementSchema
  import ValidationService

  /** The two keys `toFlowElement` reads itself instead of turning into attributes. */
  predicate IsHeaderKey(k: string) {
    k == ValidationService.ELEMENT_NAME || k == ValidationService.ORDER_NUMBER
  }

  /**
   * The key loop of `toFlowElement`, over the step's keys in order: one
   * attribute per non-header key, named by the key, typed by the name of
   * its rule's type, holding the value; `rules.get(key)` of a key without
   * a rule is null, and reading its type throws.
   */
  function AttributesOf(step: Entries, rules: seq<(string, FieldRule)>): (r: Result<seq<Attribute>>)
    decreases |step|
  {
    if step == [] then Ok([])
    else
      var attrs :- AttributesOf(step[..|step| - 1], rules);
      var e := step[|step| - 1];
      if IsHeaderKey(e.0) then Ok(attrs)
      else match FirstRule(rules, e.0)
        case None => Err(NullPointer)
        case Some(rule) => Ok(attrs + [Attribute(e.0, ValidationService.TypeName(rule.dataType), e.1)])
  }

  /**
   * `toFlowElement`, given the id `UUID.randomUUID()` would return: the
   * name and the order number are read with `toString` (null throws), the
   * order number parsed by `Integer.valueOf` (NumberFormatException is an
   * IllegalArgumentException), the name resolved by `ElementSchema.valueOf`.
   */
  function ElementOf(step: Entries, id: string): (r: Result<FlowElement>) {
    var nameObj := Lookup(step, ValidationService.ELEMENT_NAME);
    var orderObj := Lookup(step, ValidationService.ORDER_NUMBER);
    if nameObj.Null? || orderObj.Null? then Err(NullPointer)
    else match ParseInt(Text(orderObj))
      case None => Err(IllegalArgument)
      case Some(order) =>
        var schema :- ValueOf(Text(nameObj));
        var attrs :- AttributesOf(step, Rules(schema));
        Ok(FlowElement(id, Text(nameObj), order, attrs))
  }

  /** What converting the steps leaves: the elements or the first exception, and the next id the source would hand out. */
  datatype Conversion = Conversion(elements: Result<seq<FlowElement>>, next: nat)

  /** `flowSteps.stream().map(this::toFlowElement).toList()`: an id is drawn for each step converted. */
  function Converted(steps: seq<Entries>, supply: nat -> string, next: nat): Conversion {
    ConvertedBy(steps, ElementOf, supply, next)
  }

  /** The stream's `map` with any conversion that takes the id it draws. */
  function ConvertedBy(steps: seq<Entries>, convert: (Entries, string) -> Result<FlowElement>, supply: nat -> string, next: nat): Conversion
    decreases |steps|
  {
    if steps == [] then Conversion(Ok([]), next)
    else
      var c := ConvertedBy(steps[..|steps| - 1], convert, supply, next);
      if c.elements.Err? then c
      else match convert(steps[|steps| - 1], supply(c.next))
        case Err(e) => Conversion(Err(e), c.next)
        case Ok(el) => Conversion(Ok(c.elements.value + [el]), c.next + 1)
  }

  /** `put` of every attribute in order, a later name overwriting an earlier one. */
  function PutAll(es: Entries, attrs: seq<Attribute>): Entries
    decreases |attrs|
  {
    if attrs == [] then es
    else
      var a := attrs[|attrs| - 1];
      Put(PutAll(es, attrs[..|attrs| - 1]), a.name, a.value)
  }

  /** The step map `getByMockId` builds for one element: name, order number, then the attributes. */
  function DetailStep(e: FlowElement): Entries {
    var header := Put(Put([], ValidationService.ELEMENT_NAME, Str(e.name)), ValidationService.ORDER_NUMBER, Int(e.orderNumber));
    PutAll(header, e.attributes)
  }

  /** The detail steps of a flow: its elements sorted by order number, each as its step map. */
  function DetailSteps(flow: MockFlow): (r: seq<Entries>)
    ensures |r| == |flow.elements|
    ensures forall i | 0 <= i < |r| :: r[i] == DetailStep(SortByOrder(flow.elements)[i])
  {
    var sorted := SortByOrder(flow.elements);
    assert |sorted| == |multiset(sorted)| == |flow.elements|;
    seq(|sorted|, i requires 0 <= i < |sorted| => DetailStep(sorted[i]))
  }

  // ------------------------------------------------------------ properties

  lemma LookupSnoc(es: Entries, e: (string, Value), k: string)
    ensures Lookup(es + [e], k) == if k in Keys(es) then Lookup(es, k) else if k == e.0 then e.1 else Null
    decreases |es|
  {
    if es != [] {
      assert (es + [e])[1..] == es[1..] + [e];
      if es[0].0 != k {
        LookupSnoc(es[1..], e, k);
      }
    }
  }

  lemma KeysSnoc(es: Entries, e: (string, Value))
    ensures Keys(es + [e]) == Keys(es) + [e.0]
  {
  }

  /**
   * The conversion's attributes put back on a map give the step's value
   * under every non-header key of the step, and leave the map as it was
   * under every other key.
   */
  lemma {:induction false} PutAttributesRecoversStep(step: Entries, rules: seq<(string, FieldRule)>, base: Entries, k: string)
    requires UniqueKeys(step) && AttributesOf(step, rules).Ok?
    ensures var d := PutAll(base, AttributesOf(step, rules).value);
      (k in Keys(d) <==> k in Keys(base) || (k in Keys(step) && !IsHeaderKey(k)))
      && Lookup(d, k) == if k in Keys(step) && !IsHeaderKey(k) then Lookup(step, k) else Lookup(base, k)
    decreases |step|
  {
    if step != [] {
      var init := step[..|step| - 1];
      var e := step[|step| - 1];
      assert step == init + [e];
      assert UniqueKeys(init) by {
        forall i, j | 0 <= i < j < |init| ensures init[i].0 != init[j].0 {
          assert init[i] == step[i] && init[j] == step[j];
        }
      }
      assert e.0 !in Keys(init) by {
        forall i | 0 <= i < |init| ensures Keys(init)[i] != e.0 {
          assert init[i] == step[i];
        }
      }
      PutAttributesRecoversStep(init, rules, base, k);
      KeysSnoc(init, e);
      LookupSnoc(init, e, k);
      var attrs := AttributesOf(init, rules).value;
      if !IsHeaderKey(e.0) {
        var a := AttributesOf(step, rules).value;
        assert a[..|a| - 1] == attrs;
        LookupPut(PutAll(base, attrs), e.0, e.1, k);
      }
    }
  }

  /** What a converted element is made of. */
  lemma ElementParts(step: Entries, id: string, e: FlowElement)
    requires ElementOf(step, id) == Ok(e)
    ensures !Lookup(step, ValidationService.ELEMENT_NAME).Null? && !Lookup(step, ValidationService.ORDER_NUMBER).Null?
    ensures e.id == id && e.name == Text(Lookup(step, ValidationService.ELEMENT_NAME))
    ensures ParseInt(Text(Lookup(step, ValidationService.ORDER_NUMBER))) == Some(e.orderNumber)
    ensures ValueOf(e.name).Ok? && AttributesOf(step, Rules(ValueOf(e.name).value)) == Ok(e.attributes)
  {
  }

  /**
   * Round trip of `upsert` and `getByMockId`: a step with distinct keys
   * and a String name that converts comes back with the same keys and,
   * under every key but `orderNumber`, the same value; `orderNumber` comes
   * back as the Integer it parsed to, unchanged when it was an Integer.
   */
  lemma StepRoundTrip(step: Entries, id: string, e: FlowElement, k: string)
    requires UniqueKeys(step) && ElementOf(step, id) == Ok(e)
    requires Lookup(step, ValidationService.ELEMENT_NAME).Str?
    ensures k in Keys(DetailStep(e)) <==> k in Keys(step)
    ensures Lookup(DetailStep(e), k) == if k == ValidationService.ORDER_NUMBER then Int(e.orderNumber) else Lookup(step, k)
  {
    ElementParts(step, id, e);
    var h1 := Put([], ValidationService.ELEMENT_NAME, Str(e.name));
    var header := Put(h1, ValidationService.ORDER_NUMBER, Int(e.orderNumber));
    PutAttributesRecoversStep(step, Rules(ValueOf(e.name).value), header, k);
    LookupPut(h1, ValidationService.ORDER_NUMBER, Int(e.orderNumber), k);
    LookupPut([], ValidationService.ELEMENT_NAME, Str(e.name), k);
  }

  /** An `orderNumber` given as an Integer converts to that number, so `getByMockId` hands it back unchanged. */
  lemma OrderNumberKept(step: Entries, id: string, e: FlowElement)
    requires ElementOf(step, id) == Ok(e) && Lookup(step, ValidationService.ORDER_NUMBER).Int?
    ensures e.orderNumber == Lookup(step, ValidationService.ORDER_NUMBER).i
  {
    ElementParts(step, id, e);
    ParseIntOfToString(Lookup(step, ValidationService.ORDER_NUMBER).i);
  }

  /**
   * The conversion succeeds exactly when every step converts; then it
   * keeps the steps' order, the i-th element has the i-th id drawn, and
   * one id is drawn per step. A failure at step i has drawn i ids.
   */
  lemma {:induction false} ConversionMeaning(steps: seq<Entries>, convert: (Entries, string) -> Result<FlowElement>, supply: nat -> string, next: nat)
    ensures var c := ConvertedBy(steps, convert, supply, next);
      c.elements.Ok? <==> forall i | 0 <= i < |steps| :: convert(steps[i], supply(next + i)).Ok?
    ensures var c := ConvertedBy(steps, convert, supply, next);
      c.elements.Ok? ==> c.next == next + |steps| && |c.elements.value| == |steps|
    ensures var c := ConvertedBy(steps, convert, supply, next);
      c.elements.Ok? ==> forall i | 0 <= i < |steps| :: c.elements.value[i] == convert(steps[i], supply(next + i)).value
    ensures var c := ConvertedBy(steps, convert, supply, next);
      c.elements.Err? ==> next <= c.next < next + |steps| && convert(steps[c.next - next], supply(c.next)) == Err(c.elements.error)
    ensures var c := ConvertedBy(steps, convert, supply, next);
      c.elements.Err? ==> forall i | 0 <= i < c.next - next :: convert(steps[i], supply(next + i)).Ok?
    decreases |steps|
  {
    if steps != [] {
      var n := |steps| - 1;
      var init := steps[..n];
      ConversionMeaning(init, convert, supply, next);
      assert forall i | 0 <= i < n :: init[i] == steps[i];
      var c := ConvertedBy(init, convert, supply, next);
      if c.elements.Ok? {
        var last := convert(steps[n], supply(next + n));
        if last.Ok? {
          var es := c.elements.value + [last.value];
          assert forall i | 0 <= i < n :: es[i] == c.elements.value[i];
        }
      }
    }
  }

  /**
   * What `getByMockId` lists for a flow whose steps came from a request:
   * every listed step has the keys of one of the request's steps and its
   * values, except that the order number reads back as the number it
   * parsed to.
   */
  lemma DetailStepsMatchRequest(steps: seq<Entries>, supply: nat -> string, next: nat, flow: MockFlow, i: nat, k: string)
    requires Converted(steps, supply, next).elements == Ok(flow.elements)
    requires forall j | 0 <= j < |steps| :: UniqueKeys(steps[j]) && Lookup(steps[j], ValidationService.ELEMENT_NAME).Str?
    requires i < |DetailSteps(flow)|
    ensures |DetailSteps(flow)| == |steps|
    ensures exists j | 0 <= j < |steps| ::
      (k in Keys(DetailSteps(flow)[i]) <==> k in Keys(steps[j]))
      && Lookup(DetailSteps(flow)[i], k)
         == if k == ValidationService.ORDER_NUMBER then Int(flow.elements[j].orderNumber) else Lookup(steps[j], k)
  {
    ConversionMeaning(steps, ElementOf, supply, next);
    var sorted := SortByOrder(flow.elements);
    assert sorted[i] in multiset(flow.elements) by {
      assert sorted[i] in multiset(sorted);
    }
    var j :| 0 <= j < |flow.elements| && flow.elements[j] == sorted[i];
    StepRoundTrip(steps[j], supply(next + j), sorted[i], k);
  }

  // --------------------------------------------------------------- methods

  /** The `for (String key : step.keySet())` loop. */
  method StepAttributes(step: Entries, rules: seq<(string, FieldRule)>) returns (r: Result<seq<Attribute>>)
    ensures r == AttributesOf(step, rules)
  {
    var attributes: seq<Attribute> := [];
    for i := 0 to |step|
      invariant AttributesOf(step[..i], rules) == Ok(attributes)
    {
      assert step[..i + 1][..i] == step[..i];
      var key := step[i].0;
      if IsHeaderKey(key) {
        continue;
      }
      var rule := FirstRule(rules, key);
      if rule.None? {
        ErrorStays(step, rules, i + 1);
        return Err(NullPointer);
      }
      attributes := attributes + [Attribute(key, ValidationService.TypeName(rule.value.dataType), step[i].1)];
    }
    assert step[..|step|] == step;
    r := Ok(attributes);
  }

  /** Once a prefix of the keys fails, the whole loop fails the same way. */
  lemma {:induction false} ErrorStays(step: Entries, rules: seq<(string, FieldRule)>, i: nat)
    requires i <= |step| && AttributesOf(step[..i], rules).Err?
    ensures AttributesOf(step, rules) == AttributesOf(step[..i], rules)
    decreases |step| - i
  {
    if i < |step| {
      assert step[..i + 1][..i] == step[..i];
      ErrorStays(step, rules, i + 1);
    } else {
      assert step[..i] == step;
    }
  }

  /** `toFlowElement`: the id is drawn last, only for a step that converts. */
  method ToFlowElement(step: Entries, uuids: IdSource) returns (r: Result<FlowElement>)
    modifies uuids
    ensures r == ElementOf(step, uuids.supply(old(uuids.next)))
    ensures uuids.next == if r.Ok? then old(uuids.next) + 1 else old(uuids.next)
  {
    var nameObj := Lookup(step, ValidationService.ELEMENT_NAME);
    var orderObj := Lookup(step, ValidationService.ORDER_NUMBER);
    if nameObj.Null? || orderObj.Null? {
      return Err(NullPointer);
    }
    var order := ParseInt(Text(orderObj));
    if order.None? {
      return Err(IllegalArgument);
    }
    var schema := ValueOf(Text(nameObj));
    if schema.Err? {
      return Err(schema.error);
    }
    var attributes := StepAttributes(step, Rules(schema.value));
    if attributes.Err? {
      return Err(attributes.error);
    }
    var id := uuids.Fresh();
    r := Ok(FlowElement(id, Text(nameObj), order.value, attributes.value));
  }

  /** The stream `map(this::toFlowElement).toList()`, step by step. */
  method ConvertSteps(steps: seq<Entries>, uuids: IdSource) returns (r: Result<seq<FlowElement>>)
    modifies uuids
    ensures r == Converted(steps, uuids.supply, old(uuids.next)).elements
    ensures uuids.next == Converted(steps, uuids.supply, old(uuids.next)).next
  {
    var elements: seq<FlowElement> := [];
    for i := 0 to |steps|
      invariant ConvertedBy(steps[..i], ElementOf, uuids.supply, old(uuids.next)) == Conversion(Ok(elements), uuids.next)
    {
      assert steps[..i + 1][..i] == steps[..i];
      var e := ToFlowElement(steps[i], uuids);
      if e.Err? {
        ConversionErrorStays(steps, uuids.supply, old(uuids.next), i + 1);
        return Err(e.error);
      }
      elements := elements + [e.value];
    }
    assert steps[..|steps|] == steps;
    r := Ok(elements);
  }

  /** Once a prefix of the steps fails, the whole conversion fails the same way and draws no more ids. */
  lemma {:induction false} ConversionErrorStays(steps: seq<Entries>, supply: nat -> string, next: nat, i: nat)
    requires i <= |steps| && ConvertedBy(steps[..i], ElementOf, supply, next).elements.Err?
    ensures ConvertedBy(steps, ElementOf, supply, next) == ConvertedBy(steps[..i], ElementOf, supply, next)
    decreases |steps| - i
  {
    if i < |steps| {
      assert steps[..i + 1][..i] == steps[..i];
      ConversionErrorStays(steps, supply, next, i + 1);
    } else {
      assert steps[..i] == steps;
    }
  }
}
