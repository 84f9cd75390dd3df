/**
 * ElementSchema: the fixed table of step kinds and, for each, the fields a
 * step of that kind may carry with the rule each field obeys. The table is
 * listed in declaration order; `Map.of` promises no iteration order, and
 * this model fixes the declared one.
 */
module ElementSchema {
  import opened JavaLang

  datatype DataType = STRING | INTEGER | TEXT

  datatype FieldRule = FieldRule(dataType: DataType, isNotNull: bool, isNotBlank: bool)

  datatype Schema =
    | CONDITION
    | API_TRIGGER_REQUEST
    | API_TRIGGER_RESPONSE
    | KAFKA_TRIGGER
    | CALLBACK_API
    | KAFKA_PUBLISHER
    | GLOBAL_VARIABLE

  /** The constants in declaration order. */
  const ALL: seq<Schema> := [CONDITION, API_TRIGGER_REQUEST, API_TRIGGER_RESPONSE, KAFKA_TRIGGER,
                             CALLBACK_API, KAFKA_PUBLISHER, GLOBAL_VARIABLE]

  /** `name()`. */
  function Name(s: Schema): string {
    match s
    case CONDITION => "CONDITION"
    case API_TRIGGER_REQUEST => "API_TRIGGER_REQUEST"
    case API_TRIGGER_RESPONSE => "API_TRIGGER_RESPONSE"
    case KAFKA_TRIGGER => "KAFKA_TRIGGER"
    case CALLBACK_API => "CALLBACK_API"
    case KAFKA_PUBLISHER => "KAFKA_PUBLISHER"
    case GLOBAL_VARIABLE => "GLOBAL_VARIABLE"
  }

  /** `ElementSchema.valueOf`: the constant with exactly this name; IllegalArgumentException otherwise. */
  function ValueOf(name: string): (r: Result<Schema>)
    ensures r.Ok? ==> Name(r.value) == name
    ensures r.Err? ==> r.error == IllegalArgument && forall s: Schema :: Name(s) != name
  {
    if name == "CONDITION" then Ok(CONDITION)
    else if name == "API_TRIGGER_REQUEST" then Ok(API_TRIGGER_REQUEST)
    else if name == "API_TRIGGER_RESPONSE" then Ok(API_TRIGGER_RESPONSE)
    else if name == "KAFKA_TRIGGER" then Ok(KAFKA_TRIGGER)
    else if name == "CALLBACK_API" then Ok(CALLBACK_API)
    else if name == "KAFKA_PUBLISHER" then Ok(KAFKA_PUBLISHER)
    else if name == "GLOBAL_VARIABLE" then Ok(GLOBAL_VARIABLE)
    else Err(IllegalArgument)
  }

  function NotBlank(t: DataType): FieldRule { FieldRule(t, false, true) }
  function NotNull(t: DataType): FieldRule { FieldRule(t, true, false) }

  /** `getRules()`, as a list of (field, rule) pairs. */
  function Rules(s: Schema): seq<(string, FieldRule)> {
    match s
    case CONDITION => [("expression", NotBlank(STRING))]
    case API_TRIGGER_REQUEST => [("method", NotBlank(STRING)), ("path", NotBlank(STRING))]
    case API_TRIGGER_RESPONSE =>
      [("status", NotNull(INTEGER)), ("latency", NotNull(INTEGER)), ("header", NotBlank(TEXT)), ("body", NotBlank(TEXT))]
    case KAFKA_TRIGGER => [("topic", NotBlank(STRING)), ("broker", NotBlank(STRING))]
    case CALLBACK_API =>
      [("path", NotBlank(STRING)), ("method", NotBlank(STRING)), ("latency", NotNull(INTEGER)),
       ("header", NotBlank(TEXT)), ("param", NotBlank(TEXT)), ("body", NotBlank(TEXT))]
    case KAFKA_PUBLISHER => [("topic", NotBlank(STRING)), ("broker", NotBlank(STRING)), ("body", NotBlank(TEXT))]
    case GLOBAL_VARIABLE => [("variable", NotBlank(TEXT))]
  }

  /** The field names of a schema. */
  function Fields(s: Schema): (fs: seq<string>)
    ensures |fs| == |Rules(s)| && forall i | 0 <= i < |fs| :: fs[i] == Rules(s)[i].0
  {
    seq(|Rules(s)|, i requires 0 <= i < |Rules(s)| => Rules(s)[i].0)
  }

  /** `rules.get(field)`. */
  function RuleOf(s: Schema, field: string): (r: Option<FieldRule>)
    ensures r.None? <==> field !in Fields(s)
    ensures r.Some? ==> exists i | 0 <= i < |Rules(s)| :: Rules(s)[i] == (field, r.value)
  {
    FirstRule(Rules(s), field)
  }

  function FirstRule(rs: seq<(string, FieldRule)>, field: string): (r: Option<FieldRule>)
    ensures r.None? <==> forall i | 0 <= i < |rs| :: rs[i].0 != field
    ensures r.Some? ==> exists i | 0 <= i < |rs| :: rs[i] == (field, r.value)
  {
    if rs == [] then None
    else if rs[0].0 == field then Some(rs[0].1)
    else
      var r := FirstRule(rs[1..], field);
      assert forall i | 1 <= i < |rs| :: rs[i] == rs[1..][i - 1];
      r
  }

  // ------------------------------------------------------------ properties

  /** There are exactly seven kinds, each named once, and `valueOf(name())` gives each back. */
  lemma SevenKinds()
    ensures |ALL| == 7
    ensures forall s: Schema :: s in ALL
    ensures forall i, j | 0 <= i < j < |ALL| :: Name(ALL[i]) != Name(ALL[j])
    ensures forall s: Schema :: ValueOf(Name(s)) == Ok(s)
  {
    forall s: Schema ensures s in ALL {
      match s
      case CONDITION => assert ALL[0] == s;
      case API_TRIGGER_REQUEST => assert ALL[1] == s;
      case API_TRIGGER_RESPONSE => assert ALL[2] == s;
      case KAFKA_TRIGGER => assert ALL[3] == s;
      case CALLBACK_API => assert ALL[4] == s;
      case KAFKA_PUBLISHER => assert ALL[5] == s;
      case GLOBAL_VARIABLE => assert ALL[6] == s;
    }
  }

  /** A name that `valueOf` accepts is the name of the constant it returns, so the two are inverse. */
  lemma ValueOfName(name: string)
    requires ValueOf(name).Ok?
    ensures Name(ValueOf(name).value) == name && ValueOf(name).value in ALL
  {
  }

  /** No schema lists a field twice, as befits a map. */
  lemma FieldsDistinct(s: Schema)
    ensures forall i, j | 0 <= i < j < |Rules(s)| :: Rules(s)[i].0 != Rules(s)[j].0
  {
  }

  /** Every INTEGER rule is notNull only, and every STRING or TEXT rule notBlank only. */
  lemma RuleFlagsFollowType(s: Schema, i: nat)
    requires i < |Rules(s)|
    ensures var r := Rules(s)[i].1;
      (r.dataType == INTEGER ==> r.isNotNull && !r.isNotBlank)
      && (r.dataType != INTEGER ==> r.isNotBlank && !r.isNotNull)
  {
  }

  /** The field sets of the seven kinds. */
  lemma FieldSets()
    ensures Fields(CONDITION) == ["expression"]
    ensures Fields(API_TRIGGER_REQUEST) == ["method", "path"]
    ensures Fields(API_TRIGGER_RESPONSE) == ["status", "latency", "header", "body"]
    ensures Fields(KAFKA_TRIGGER) == ["topic", "broker"]
    ensures Fields(CALLBACK_API) == ["path", "method", "latency", "header", "param", "body"]
    ensures Fields(KAFKA_PUBLISHER) == Fields(KAFKA_TRIGGER) + ["body"]
    ensures Fields(GLOBAL_VARIABLE) == ["variable"]
  {
  }

  /** The types: STRING for names and expressions, INTEGER for status and latency, TEXT for free text. */
  lemma TypesByField(s: Schema, i: nat)
    requires i < |Rules(s)|
    ensures var (field, r) := Rules(s)[i];
      (field in {"expression", "method", "path", "topic", "broker"} ==> r.dataType == STRING)
      && (field in {"status", "latency"} ==> r.dataType == INTEGER)
      && (field in {"header", "body", "param", "variable"} ==> r.dataType == TEXT)
  {
  }
}
