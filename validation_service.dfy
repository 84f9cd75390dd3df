/**
 * ValidationService: checks every step of a create request against the
 * schema of its kind and collects every violation before failing, rather
 * than stopping at the first. A step whose kind is not a schema constant
 * makes `ElementSchema.valueOf` throw, and that exception escapes instead
 * of being collected.
 */
module ValidationService {
  import opened JavaLang
  import opened Values
  import opened Records
  import opened ElementSchema

  const ELEMENT_NAME: string := "elementName"
  const ORDER_NUMBER: string := "orderNumber"
  const ELEMENT_TYPE: string := "elementType"
  const MUST_NOT_BE_NULL: string := "must not be null"
  const MUST_NOT_BE_BLANK: string := "must not be blank"

  function TypeName(t: DataType): string {
    match t case STRING => "STRING" case INTEGER => "INTEGER" case TEXT => "TEXT"
  }

  /** `instanceof` for the rule's type: String for STRING and TEXT, Integer for INTEGER. */
  predicate HasType(v: Value, t: DataType) {
    if t == INTEGER then v.Int? else v.Str?
  }

  /** `validateType`: null when the value has the rule's type, else the message naming the type. */
  function TypeError(v: Value, t: DataType): (r: Option<string>)
    ensures r.None? <==> HasType(v, t)
    ensures r.Some? ==> r.value == "data type must be " + TypeName(t)
  {
    match t
    case STRING => if !v.Str? then Some("data type must be STRING") else None
    case INTEGER => if !v.Int? then Some("data type must be INTEGER") else None
    case TEXT => if !v.Str? then Some("data type must be TEXT") else None
  }

  /** `validateFields` for one rule: at most one check, notNull first, then notBlank, then the type of a non-null value. */
  function FieldCheck(step: Entries, elementName: string, field: string, rule: FieldRule): (r: seq<Check>)
    ensures |r| <= 1
    ensures r != [] ==> r[0].field == elementName + "." + field
    ensures var v := Lookup(step, field);
      r == [] <==> (!(rule.isNotNull && v.Null?) && !(rule.isNotBlank && (v.Null? || IsBlank(Text(v)))) && (v.Null? || HasType(v, rule.dataType)))
    ensures var v := Lookup(step, field);
      r != [] && r[0].message == MUST_NOT_BE_NULL ==> rule.isNotNull && v.Null?
  {
    var v := Lookup(step, field);
    if rule.isNotNull && v.Null? then [Check(elementName + "." + field, MUST_NOT_BE_NULL)]
    else if rule.isNotBlank && (v.Null? || IsBlank(Text(v))) then [Check(elementName + "." + field, MUST_NOT_BE_BLANK)]
    else if !v.Null? && TypeError(v, rule.dataType).Some? then [Check(elementName + "." + field, TypeError(v, rule.dataType).value)]
    else []
  }

  /** The checks of the rules loop, rule by rule. */
  function RuleChecks(step: Entries, elementName: string, rules: seq<(string, FieldRule)>): seq<Check>
    decreases |rules|
  {
    if rules == [] then []
    else
      var last := rules[|rules| - 1];
      RuleChecks(step, elementName, rules[..|rules| - 1]) + FieldCheck(step, elementName, last.0, last.1)
  }

  /** The keys a step may carry of its own besides the schema's fields. */
  predicate Allowed(key: string, rules: seq<(string, FieldRule)>) {
    key == ELEMENT_TYPE || key == ELEMENT_NAME || key == ORDER_NUMBER || FirstRule(rules, key).Some?
  }

  function NotAllowed(key: string, kind: string): Check {
    Check(key, "Field '" + key + "' is not allowed for element type " + kind)
  }

  /** The checks of the key loop, key by key, against the rules of the kind named. */
  function ExtraKeyChecks(keys: seq<string>, rules: seq<(string, FieldRule)>, kind: string): seq<Check>
    decreases |keys|
  {
    if keys == [] then []
    else
      var k := keys[|keys| - 1];
      ExtraKeyChecks(keys[..|keys| - 1], rules, kind) + (if Allowed(k, rules) then [] else [NotAllowed(k, kind)])
  }

  /** `validateSteps`: the checks one step adds, or the exception `valueOf` throws. */
  function StepChecks(step: Entries): (r: Result<seq<Check>>)
    ensures r.Err? ==> r.error == IllegalArgument
  {
    var nameObj := Lookup(step, ELEMENT_NAME);
    if nameObj.Null? then Ok([Check(ELEMENT_NAME, MUST_NOT_BE_NULL)])
    else
      var name := Text(nameObj);
      match ValueOf(name)
      case Err(e) => Err(e)
      case Ok(s) => Ok(OrderCheck(step, name) + RuleChecks(step, name, Rules(s)) + ExtraKeyChecks(Keys(step), Rules(s), Name(s)))
  }

  /** The check a missing order number adds; checking goes on after it. */
  function OrderCheck(step: Entries, elementName: string): (r: seq<Check>)
    ensures r == [] <==> !Lookup(step, ORDER_NUMBER).Null?
  {
    if Lookup(step, ORDER_NUMBER).Null? then [Check(elementName + "." + ORDER_NUMBER, MUST_NOT_BE_NULL)] else []
  }

  /** The checks of the steps in order, or the first exception. */
  function AllChecks(steps: seq<Entries>): Result<seq<Check>> {
    Collect(steps, StepChecks)
  }

  /** Checking steps one after another with any per-step check, stopping at the first exception. */
  function Collect(steps: seq<Entries>, check: Entries -> Result<seq<Check>>): Result<seq<Check>>
    decreases |steps|
  {
    if steps == [] then Ok([])
    else
      match Collect(steps[..|steps| - 1], check)
      case Err(e) => Err(e)
      case Ok(cs) =>
        match check(steps[|steps| - 1])
        case Err(e) => Err(e)
        case Ok(c) => Ok(cs + c)
  }

  /** Once a prefix of the steps throws, so does every longer run of steps, with the same exception. */
  lemma {:induction false} ErrorPersists(steps: seq<Entries>, i: nat, check: Entries -> Result<seq<Check>>)
    requires i <= |steps| && Collect(steps[..i], check).Err?
    ensures Collect(steps, check) == Collect(steps[..i], check)
    decreases |steps| - i
  {
    if i < |steps| {
      assert steps[..|steps| - 1][..i] == steps[..i];
      ErrorPersists(steps[..|steps| - 1], i, check);
    } else {
      assert steps[..i] == steps;
    }
  }

  /** What `validate` throws, if anything. */
  function Verdict(request: CreateMockRequest): Result<()> {
    if request.flowSteps.None? then Err(NullPointer)
    else match AllChecks(request.flowSteps.value)
      case Err(e) => Err(e)
      case Ok(checks) => if checks == [] then Ok(()) else Err(Validation(checks))
  }

  /** `validate`: a BaseException(400, VALIDATION_EXCEPTION) carrying every check, when there is one. */
  method Validate(request: CreateMockRequest) returns (r: Result<()>)
    ensures r == Verdict(request)
    ensures request.flowSteps.None? ==> r == Err(NullPointer)
    ensures request.flowSteps.Some? && AllChecks(request.flowSteps.value).Err? ==> r == Err(AllChecks(request.flowSteps.value).error)
    ensures request.flowSteps.Some? && AllChecks(request.flowSteps.value).Ok? ==>
      (r == Ok(()) <==> AllChecks(request.flowSteps.value).value == [])
      && (r.Err? ==> r.error == Validation(AllChecks(request.flowSteps.value).value))
  {
    if request.flowSteps.None? {
      return Err(NullPointer);
    }
    var steps := request.flowSteps.value;
    var errors: seq<Check> := [];
    var i := 0;
    while i < |steps|
      invariant 0 <= i <= |steps|
      invariant Collect(steps[..i], StepChecks) == Ok(errors)
    {
      var res := ValidateSteps(steps[i], errors);
      assert steps[..i + 1][..i] == steps[..i];
      if res.Err? {
        ErrorPersists(steps, i + 1, StepChecks);
        return Err(res.error);
      }
      errors := res.value;
      i := i + 1;
    }
    assert steps[..i] == steps;
    if |errors| > 0 {
      return Err(Validation(errors));
    }
    return Ok(());
  }

  /** `validateSteps`, appending to `errors`. */
  method ValidateSteps(step: Entries, errors: seq<Check>) returns (r: Result<seq<Check>>)
    ensures StepChecks(step).Ok? ==> r == Ok(errors + StepChecks(step).value)
    ensures StepChecks(step).Err? ==> r == Err(StepChecks(step).error)
  {
    var out := errors;
    var elementNameObj := Lookup(step, ELEMENT_NAME);
    if elementNameObj.Null? {
      return Ok(out + [Check(ELEMENT_NAME, MUST_NOT_BE_NULL)]);
    }
    var elementName := Text(elementNameObj);
    var orderNumberObj := Lookup(step, ORDER_NUMBER);
    if orderNumberObj.Null? {
      out := out + [Check(elementName + "." + ORDER_NUMBER, MUST_NOT_BE_NULL)];
    }
    assert out == errors + OrderCheck(step, elementName);
    var schema := ValueOf(elementName);
    if schema.Err? {
      return Err(schema.error);
    }
    ghost var rc := RuleChecks(step, elementName, Rules(schema.value));
    ghost var kc := ExtraKeyChecks(Keys(step), Rules(schema.value), Name(schema.value));
    out := ValidateRules(step, out, Rules(schema.value), elementName);
    out := ValidateKeys(Keys(step), out, Rules(schema.value), Name(schema.value));
    Regroup(errors, OrderCheck(step, elementName), rc, kc);
    return Ok(out);
  }

  /** The loop over `rules.entrySet()`. */
  method ValidateRules(step: Entries, errors: seq<Check>, rules: seq<(string, FieldRule)>, elementName: string) returns (r: seq<Check>)
    ensures r == errors + RuleChecks(step, elementName, rules)
  {
    r := errors;
    var i := 0;
    while i < |rules|
      invariant 0 <= i <= |rules|
      invariant r == errors + RuleChecks(step, elementName, rules[..i])
    {
      r := ValidateFields(step, r, rules[i], elementName);
      assert rules[..i + 1][..i] == rules[..i];
      i := i + 1;
    }
    assert rules[..i] == rules;
  }

  /** The loop over `step.keySet()`. */
  method ValidateKeys(keys: seq<string>, errors: seq<Check>, rules: seq<(string, FieldRule)>, kind: string) returns (r: seq<Check>)
    ensures r == errors + ExtraKeyChecks(keys, rules, kind)
  {
    r := errors;
    var j := 0;
    while j < |keys|
      invariant 0 <= j <= |keys|
      invariant r == errors + ExtraKeyChecks(keys[..j], rules, kind)
    {
      var key := keys[j];
      if !(key == ELEMENT_TYPE) && !(key == ELEMENT_NAME) && !(key == ORDER_NUMBER) && FirstRule(rules, key).None? {
        r := r + [NotAllowed(key, kind)];
      }
      assert keys[..j + 1][..j] == keys[..j];
      j := j + 1;
    }
    assert keys[..j] == keys;
  }

  lemma Regroup(w: seq<Check>, a: seq<Check>, b: seq<Check>, c: seq<Check>)
    ensures w + a + b + c == w + (a + b + c)
  {
  }

  lemma DropEmpty(e: seq<Check>, a: seq<Check>, b: seq<Check>)
    requires e == []
    ensures e + a + b == a + b
  {
  }

  /** `validateFields`, appending at most one check. */
  method ValidateFields(step: Entries, errors: seq<Check>, entry: (string, FieldRule), elementName: string) returns (r: seq<Check>)
    ensures r == errors + FieldCheck(step, elementName, entry.0, entry.1)
  {
    var (field, rule) := entry;
    var value := Lookup(step, field);
    if rule.isNotNull && value.Null? {
      return errors + [Check(elementName + "." + field, MUST_NOT_BE_NULL)];
    }
    if rule.isNotBlank && (value.Null? || IsBlank(Text(value))) {
      return errors + [Check(elementName + "." + field, MUST_NOT_BE_BLANK)];
    }
    r := errors;
    if !value.Null? {
      var typeError := TypeError(value, rule.dataType);
      if typeError.Some? {
        r := errors + [Check(elementName + "." + field, typeError.value)];
      }
    }
  }

  // ------------------------------------------------------------ properties

  /** A step without `elementName` adds exactly one check and nothing else of it is looked at. */
  lemma MissingNameOneCheck(step: Entries)
    requires Lookup(step, ELEMENT_NAME).Null?
    ensures StepChecks(step) == Ok([Check(ELEMENT_NAME, MUST_NOT_BE_NULL)])
  {
  }

  /** What a step whose name is the constant s gets: the order check, the rule checks, the key checks. */
  lemma StepChecksOfKind(step: Entries, s: Schema)
    requires !Lookup(step, ELEMENT_NAME).Null? && ValueOf(Text(Lookup(step, ELEMENT_NAME))) == Ok(s)
    ensures var name := Text(Lookup(step, ELEMENT_NAME));
      StepChecks(step) == Ok(OrderCheck(step, name) + RuleChecks(step, name, Rules(s)) + ExtraKeyChecks(Keys(step), Rules(s), Name(s)))
  {
  }

  /**
   * A missing order number adds one check in front and checking goes on:
   * the rest is what the same step with an order number gets.
   */
  lemma MissingOrderAddsOne(step: Entries, order: Value)
    requires !Lookup(step, ELEMENT_NAME).Null? && Lookup(step, ORDER_NUMBER).Null? && !order.Null?
    requires ValueOf(Text(Lookup(step, ELEMENT_NAME))).Ok?
    ensures var name := Text(Lookup(step, ELEMENT_NAME));
      StepChecks(Put(step, ORDER_NUMBER, order)).Ok?
      && StepChecks(step).value == [Check(name + "." + ORDER_NUMBER, MUST_NOT_BE_NULL)] + StepChecks(Put(step, ORDER_NUMBER, order)).value
  {
    var step' := Put(step, ORDER_NUMBER, order);
    var name := Text(Lookup(step, ELEMENT_NAME));
    var s := ValueOf(name).value;
    LookupPut(step, ORDER_NUMBER, order, ELEMENT_NAME);
    StepChecksOfKind(step, s);
    StepChecksOfKind(step', s);
    NoFieldIsOrderNumber(s);
    OrderCheckInFront(step, order, name, Rules(s), Name(s));
  }

  /** The heart of the lemma above, for any rules without an order-number field. */
  lemma OrderCheckInFront(step: Entries, order: Value, name: string, rules: seq<(string, FieldRule)>, kind: string)
    requires Lookup(step, ORDER_NUMBER).Null? && !order.Null?
    requires forall i | 0 <= i < |rules| :: rules[i].0 != ORDER_NUMBER
    ensures var step' := Put(step, ORDER_NUMBER, order);
      OrderCheck(step, name) + RuleChecks(step, name, rules) + ExtraKeyChecks(Keys(step), rules, kind)
      == [Check(name + "." + ORDER_NUMBER, MUST_NOT_BE_NULL)] + (OrderCheck(step', name) + RuleChecks(step', name, rules) + ExtraKeyChecks(Keys(step'), rules, kind))
  {
    var step' := Put(step, ORDER_NUMBER, order);
    LookupPut(step, ORDER_NUMBER, order, ORDER_NUMBER);
    PutOtherFieldSameChecks(step, order, name, rules);
    PutOrderSameKeyChecks(step, order, rules, kind);
    var missing := [Check(name + "." + ORDER_NUMBER, MUST_NOT_BE_NULL)];
    var rc, kc := RuleChecks(step, name, rules), ExtraKeyChecks(Keys(step), rules, kind);
    assert OrderCheck(step, name) == missing && OrderCheck(step', name) == [];
    assert RuleChecks(step', name, rules) == rc && ExtraKeyChecks(Keys(step'), rules, kind) == kc;
    InFront(missing, rc, kc);
  }

  lemma InFront(m: seq<Check>, a: seq<Check>, b: seq<Check>)
    ensures m + a + b == m + ([] + a + b)
  {
    assert [] + a == a;
  }

  lemma NoFieldIsOrderNumber(s: Schema)
    ensures forall i | 0 <= i < |Rules(s)| :: Rules(s)[i].0 != ORDER_NUMBER
  {
  }

  /** Putting an order number changes no rule check when no rule is about the order number. */
  lemma PutOtherFieldSameChecks(step: Entries, order: Value, name: string, rules: seq<(string, FieldRule)>)
    requires forall i | 0 <= i < |rules| :: rules[i].0 != ORDER_NUMBER
    ensures RuleChecks(Put(step, ORDER_NUMBER, order), name, rules) == RuleChecks(step, name, rules)
  {
    forall i | 0 <= i < |rules| ensures Lookup(step, rules[i].0) == Lookup(Put(step, ORDER_NUMBER, order), rules[i].0) {
      LookupPut(step, ORDER_NUMBER, order, rules[i].0);
    }
    SameLookupsSameChecks(step, Put(step, ORDER_NUMBER, order), name, rules);
  }

  /** The order number is a bookkeeping key, so putting it changes no key check. */
  lemma PutOrderSameKeyChecks(step: Entries, order: Value, rules: seq<(string, FieldRule)>, kind: string)
    ensures ExtraKeyChecks(Keys(Put(step, ORDER_NUMBER, order)), rules, kind) == ExtraKeyChecks(Keys(step), rules, kind)
  {
    if ORDER_NUMBER !in Keys(step) {
      var ks := Keys(step) + [ORDER_NUMBER];
      assert ks[..|ks| - 1] == Keys(step);
    }
  }

  /** The rules loop looks a field up and nothing else, so steps that agree on the fields get the same checks. */
  lemma {:induction false} SameLookupsSameChecks(step: Entries, step': Entries, name: string, rules: seq<(string, FieldRule)>)
    requires forall i | 0 <= i < |rules| :: Lookup(step, rules[i].0) == Lookup(step', rules[i].0)
    ensures RuleChecks(step, name, rules) == RuleChecks(step', name, rules)
    decreases |rules|
  {
    if rules != [] {
      SameLookupsSameChecks(step, step', name, rules[..|rules| - 1]);
    }
  }

  /** The key loop reports exactly the keys that are neither bookkeeping keys nor fields of the rules, each by its bare name. */
  lemma {:induction false} ExtraKeyChecksMeaning(keys: seq<string>, rules: seq<(string, FieldRule)>, kind: string)
    ensures forall c :: c in ExtraKeyChecks(keys, rules, kind) <==> exists k | k in keys :: !Allowed(k, rules) && c == NotAllowed(k, kind)
    ensures ExtraKeyChecks(keys, rules, kind) == [] <==> forall k | k in keys :: Allowed(k, rules)
    decreases |keys|
  {
    if keys != [] {
      var init := keys[..|keys| - 1];
      var k := keys[|keys| - 1];
      ExtraKeyChecksMeaning(init, rules, kind);
      assert keys == init + [k];
      forall c | c in ExtraKeyChecks(keys, rules, kind) ensures exists k' | k' in keys :: !Allowed(k', rules) && c == NotAllowed(k', kind) {
        if c in ExtraKeyChecks(init, rules, kind) {
          var k' :| k' in init && !Allowed(k', rules) && c == NotAllowed(k', kind);
          assert k' in keys;
        } else {
          assert c == NotAllowed(k, kind) && !Allowed(k, rules);
        }
      }
      forall c | exists k' | k' in keys :: !Allowed(k', rules) && c == NotAllowed(k', kind) ensures c in ExtraKeyChecks(keys, rules, kind) {
        var k' :| k' in keys && !Allowed(k', rules) && c == NotAllowed(k', kind);
        if k' in init {
          assert c in ExtraKeyChecks(init, rules, kind);
        }
      }
    }
  }

  /** The rules loop adds nothing exactly when every field of the step obeys its rule. */
  lemma RuleChecksEmpty(step: Entries, name: string, rules: seq<(string, FieldRule)>)
    ensures RuleChecks(step, name, rules) == [] <==> forall i | 0 <= i < |rules| :: FieldCheck(step, name, rules[i].0, rules[i].1) == []
  {
    if RuleChecks(step, name, rules) == [] {
      NoChecksEveryRulePasses(step, name, rules);
    }
    if forall i | 0 <= i < |rules| :: FieldCheck(step, name, rules[i].0, rules[i].1) == [] {
      EveryRulePassesNoChecks(step, name, rules);
    }
  }

  lemma {:induction false} NoChecksEveryRulePasses(step: Entries, name: string, rules: seq<(string, FieldRule)>)
    requires RuleChecks(step, name, rules) == []
    ensures forall i | 0 <= i < |rules| :: FieldCheck(step, name, rules[i].0, rules[i].1) == []
    decreases |rules|
  {
    if rules != [] {
      var init := rules[..|rules| - 1];
      var last := rules[|rules| - 1];
      var a, b := RuleChecks(step, name, init), FieldCheck(step, name, last.0, last.1);
      assert RuleChecks(step, name, rules) == a + b;
      EmptyConcat(a, b);
      assert a == [] && b == [];
      NoChecksEveryRulePasses(step, name, init);
      forall i | 0 <= i < |rules|
        ensures FieldCheck(step, name, rules[i].0, rules[i].1) == []
      {
        if i < |init| {
          assert rules[i] == init[i] && FieldCheck(step, name, init[i].0, init[i].1) == [];
        } else {
          assert i == |rules| - 1;
        }
      }
    }
  }

  lemma {:induction false} EveryRulePassesNoChecks(step: Entries, name: string, rules: seq<(string, FieldRule)>)
    requires forall i | 0 <= i < |rules| :: FieldCheck(step, name, rules[i].0, rules[i].1) == []
    ensures RuleChecks(step, name, rules) == []
    decreases |rules|
  {
    if rules != [] {
      var init := rules[..|rules| - 1];
      var last := rules[|rules| - 1];
      forall i | 0 <= i < |init|
        ensures FieldCheck(step, name, init[i].0, init[i].1) == []
      {
        assert init[i] == rules[i];
      }
      EveryRulePassesNoChecks(step, name, init);
      assert FieldCheck(step, name, last.0, last.1) == [];
      assert RuleChecks(step, name, rules) == [] + [];
    }
  }

  lemma EmptyConcat(a: seq<Check>, b: seq<Check>)
    ensures a + b == [] <==> a == [] && b == []
  {
    assert |a + b| == |a| + |b|;
  }

  /** A step the schema of its kind accepts in full: named, numbered, every field obeying its rule, no foreign key. */
  predicate Conforms(step: Entries) {
    var nameObj := Lookup(step, ELEMENT_NAME);
    !nameObj.Null? && ValueOf(Text(nameObj)).Ok? && !Lookup(step, ORDER_NUMBER).Null?
    && var s := ValueOf(Text(nameObj)).value;
    (forall i | 0 <= i < |Rules(s)| :: FieldCheck(step, Text(nameObj), Rules(s)[i].0, Rules(s)[i].1) == [])
    && (forall k | k in Keys(step) :: Allowed(k, Rules(s)))
  }

  /** A step passes without a check exactly when it conforms. */
  lemma StepPassesIffConforms(step: Entries)
    ensures StepChecks(step) == Ok([]) <==> Conforms(step)
  {
    var nameObj := Lookup(step, ELEMENT_NAME);
    if !nameObj.Null? && ValueOf(Text(nameObj)).Ok? {
      var s := ValueOf(Text(nameObj)).value;
      StepChecksOfKind(step, s);
      RuleChecksEmpty(step, Text(nameObj), Rules(s));
      ExtraKeyChecksMeaning(Keys(step), Rules(s), Name(s));
    }
  }

  /** Checks of separate runs of steps are reported together, in step order. */
  lemma ChecksConcatenate(a: seq<Entries>, b: seq<Entries>)
    requires AllChecks(a).Ok? && AllChecks(b).Ok?
    ensures AllChecks(a + b) == Ok(AllChecks(a).value + AllChecks(b).value)
  {
    CollectConcatenate(a, b, StepChecks);
  }

  lemma {:induction false} CollectConcatenate(a: seq<Entries>, b: seq<Entries>, check: Entries -> Result<seq<Check>>)
    requires Collect(a, check).Ok? && Collect(b, check).Ok?
    ensures Collect(a + b, check) == Ok(Collect(a, check).value + Collect(b, check).value)
    decreases |b|
  {
    if b == [] {
      assert a + b == a;
      assert Collect(a, check).value + [] == Collect(a, check).value;
    } else {
      var init := b[..|b| - 1];
      CollectConcatenate(a, init, check);
      var ab := a + b;
      assert ab[..|ab| - 1] == a + init;
      assert ab[|ab| - 1] == b[|b| - 1];
      Assoc(Collect(a, check).value, Collect(init, check).value, check(b[|b| - 1]).value);
    }
  }

  lemma Assoc(a: seq<Check>, b: seq<Check>, c: seq<Check>)
    ensures (a + b) + c == a + (b + c)
  {
  }

  /** `validate` throws the IllegalArgumentException of `valueOf` exactly when some step names no schema constant. */
  lemma ThrowsIffUnknownKind(steps: seq<Entries>)
    ensures AllChecks(steps).Err? <==> exists i | 0 <= i < |steps| :: StepChecks(steps[i]).Err?
    ensures AllChecks(steps).Err? ==> AllChecks(steps).error == IllegalArgument
  {
    CollectThrowsIffSomeStep(steps, StepChecks);
  }

  /** A run of steps throws exactly when one of its steps does, and then with the exception of the first such step. */
  lemma {:induction false} CollectThrowsIffSomeStep(steps: seq<Entries>, check: Entries -> Result<seq<Check>>)
    ensures Collect(steps, check).Err? <==> exists i | 0 <= i < |steps| :: check(steps[i]).Err?
    ensures Collect(steps, check).Err? ==>
      exists i | 0 <= i < |steps| :: check(steps[i]) == Collect(steps, check) && forall j | 0 <= j < i :: check(steps[j]).Ok?
    decreases |steps|
  {
    if steps != [] {
      var init := steps[..|steps| - 1];
      CollectThrowsIffSomeStep(init, check);
      assert forall i | 0 <= i < |init| :: init[i] == steps[i];
    }
  }

  /** A request passes validation exactly when every one of its steps conforms to the schema of its kind. */
  lemma PassesIffAllConform(steps: seq<Entries>)
    ensures AllChecks(steps) == Ok([]) <==> forall i | 0 <= i < |steps| :: Conforms(steps[i])
  {
    CollectEmptyIffEachEmpty(steps, StepChecks);
    forall i | 0 <= i < |steps| ensures StepChecks(steps[i]) == Ok([]) <==> Conforms(steps[i]) {
      StepPassesIffConforms(steps[i]);
    }
  }

  /** A run of steps yields no check and no exception exactly when each step does. */
  lemma {:induction false} CollectEmptyIffEachEmpty(steps: seq<Entries>, check: Entries -> Result<seq<Check>>)
    ensures Collect(steps, check) == Ok([]) <==> forall i | 0 <= i < |steps| :: check(steps[i]) == Ok([])
    decreases |steps|
  {
    if steps != [] {
      var init := steps[..|steps| - 1];
      CollectEmptyIffEachEmpty(init, check);
      assert forall i | 0 <= i < |init| :: init[i] == steps[i];
    }
  }

  /** Only an unknown kind makes `valueOf` throw: a step whose name is a schema constant never does. */
  lemma UnknownKindThrows(step: Entries)
    requires !Lookup(step, ELEMENT_NAME).Null?
    ensures StepChecks(step).Err? <==> forall s: Schema :: Name(s) != Text(Lookup(step, ELEMENT_NAME))
  {
    var name := Text(Lookup(step, ELEMENT_NAME));
    if ValueOf(name).Ok? {
      assert Name(ValueOf(name).value) == name;
    }
  }
}
