/**
 * ElementService: what the steps of a flow do when they run. Only three
 * kinds act: CALLBACK_API calls back an HTTP client, KAFKA_PUBLISHER
 * publishes a message, GLOBAL_VARIABLE upserts global variables; each maps
 * its attributes onto a payload object by field name, resolves the
 * placeholders of its body (or variable list) and stores the payload in
 * the execution context under its order number. Every other kind does
 * nothing. The HTTP call and the Kafka send are not modelled; the JSON
 * parser is the oracle `parse`.
 */
module ElementService {
  import opened JavaLang
  import opened Values
  import opened Records
  import opened RocksStore
  import opened GlobalEnvironmentStorage
  import opened ExecutionContext
  import PlaceholderService

  const CALLBACK_API: string := "CALLBACK_API"
  const KAFKA_PUBLISHER: string := "KAFKA_PUBLISHER"
  const GLOBAL_VARIABLE: string := "GLOBAL_VARIABLE"

  /** The declared type of a payload field, as far as `convertValue` tells types apart. */
  datatype FieldType = IntegerField | BooleanField | StringField

  /** A payload class: its simple name and its declared fields, in declaration order. */
  datatype PayloadClass = PayloadClass(name: string, fields: seq<(string, FieldType)>)

  const CALLBACK_PAYLOAD: PayloadClass := PayloadClass("CallbackApiPayload",
    [("path", StringField), ("method", StringField), ("latency", IntegerField),
     ("header", StringField), ("param", StringField), ("body", StringField)])
  const PUBLISHER_PAYLOAD: PayloadClass := PayloadClass("KafkaPublisherPayload",
    [("topic", StringField), ("broker", StringField), ("body", StringField)])
  const VARIABLE_PAYLOAD: PayloadClass := PayloadClass("GlobalVariablePayload", [("variable", StringField)])

  // ------------------------------------------------- attributes to payload

  /** `getField`: the declared type of the field with this name, or null when the class declares none. */
  function DeclaredType(fields: seq<(string, FieldType)>, name: string): (r: Option<FieldType>)
    ensures r.None? <==> forall i | 0 <= i < |fields| :: fields[i].0 != name
    ensures r.Some? ==> exists i | 0 <= i < |fields| :: fields[i] == (name, r.value)
  {
    if fields == [] then None
    else if fields[0].0 == name then Some(fields[0].1)
    else
      var r := DeclaredType(fields[1..], name);
      assert forall i | 1 <= i < |fields| :: fields[i] == fields[1..][i - 1];
      r
  }

  /** `newInstance()`: every field of the payload (all boxed types) starts out null. */
  function Defaults(fields: seq<(string, FieldType)>): (r: Entries)
    ensures |r| == |fields| && forall i | 0 <= i < |r| :: r[i] == (fields[i].0, Null)
  {
    seq(|fields|, i requires 0 <= i < |fields| => (fields[i].0, Null))
  }

  /** A value a field of this type can hold: an Integer, a Boolean or a String. */
  predicate HasFieldType(v: Value, t: FieldType) {
    match t
    case IntegerField => v.Int? && IsInt32(v.i)
    case BooleanField => v.Bool?
    case StringField => v.Str?
  }

  const TRUE_WORD: string := "true"

  /** `Boolean.valueOf`, that is `"true".equalsIgnoreCase(s)`, against the word's own lower-case letters. */
  predicate IsTrueWord(s: string) {
    LowerCase(s) == TRUE_WORD
  }

  /**
   * `convertValue`: null stays null; an Integer field gets `Integer.valueOf`
   * of the text (NumberFormatException when it is no 32-bit integer), a
   * Boolean field whether the text is "true" in any case, any other field
   * the text itself.
   */
  function ConvertValue(v: Value, t: FieldType): (r: Result<Value>)
    ensures r.Ok? ==> (r.value.Null? <==> v.Null?)
    ensures r.Ok? && !v.Null? ==> HasFieldType(r.value, t)
    ensures r.Err? <==> !v.Null? && t == IntegerField && ParseInt(Text(v)).None?
    ensures r.Err? ==> r.error == NumberFormat
    ensures !v.Null? && t == StringField ==> r == Ok(Str(Text(v)))
    ensures !v.Null? && t == BooleanField ==> (r == Ok(Bool(true)) <==> IsTrueWord(Text(v)))
  {
    if v.Null? then Ok(Null)
    else
      match t
      case IntegerField => (match ParseInt(Text(v)) case Some(n) => Ok(Int(n)) case None => Err(NumberFormat))
      case BooleanField => Ok(Bool(IsTrueWord(Text(v))))
      case StringField => Ok(Str(Text(v)))
  }

  /**
   * The fields of the payload after `mapAttributes` has applied the
   * attributes in order, or the RuntimeException it wraps a failed
   * conversion in. An attribute that names no declared field is skipped.
   */
  function MappedFields(attrs: seq<Attribute>, fields: seq<(string, FieldType)>): (r: Result<Entries>)
    ensures r.Ok? ==> Keys(r.value) == Keys(Defaults(fields))
    ensures r.Err? ==> r.error == Runtime
    decreases |attrs|
  {
    if attrs == [] then Ok(Defaults(fields))
    else
      var fs :- MappedFields(attrs[..|attrs| - 1], fields);
      var a := attrs[|attrs| - 1];
      match DeclaredType(fields, a.name)
      case None => Ok(fs)
      case Some(t) =>
        match ConvertValue(a.value, t)
        case Err(_) => Err(Runtime)
        case Ok(v) =>
          DeclaredIsKey(fields, a.name, t);
          Ok(Put(fs, a.name, v))
  }

  lemma DeclaredIsKey(fields: seq<(string, FieldType)>, name: string, t: FieldType)
    requires DeclaredType(fields, name) == Some(t)
    ensures name in Keys(Defaults(fields))
  {
    var i :| 0 <= i < |fields| && fields[i] == (name, t);
    assert Keys(Defaults(fields))[i] == name;
  }

  /** `mapAttributes(attributes, clazz)`: the payload object, or the exception. */
  function Mapped(attrs: seq<Attribute>, cls: PayloadClass): (r: Result<Value>)
    ensures r.Ok? <==> MappedFields(attrs, cls.fields).Ok?
    ensures r.Ok? ==> r.value == JObject(cls.name, MappedFields(attrs, cls.fields).value)
  {
    match MappedFields(attrs, cls.fields)
    case Err(e) => Err(e)
    case Ok(fs) => Ok(JObject(cls.name, fs))
  }

  /** The index of the last attribute with this name, if any. */
  function LastAttributeIndex(attrs: seq<Attribute>, name: string): (r: Option<nat>)
    ensures r.Some? ==> r.value < |attrs| && attrs[r.value].name == name
    ensures r.Some? ==> forall j | r.value < j < |attrs| :: attrs[j].name != name
    ensures r.None? ==> forall j | 0 <= j < |attrs| :: attrs[j].name != name
    decreases |attrs|
  {
    if attrs == [] then None
    else if attrs[|attrs| - 1].name == name then Some(|attrs| - 1)
    else LastAttributeIndex(attrs[..|attrs| - 1], name)
  }

  /** `getAttributeValue`: the first attribute with that name cast to String; null when there is none or its value is null. */
  function AttributeValue(e: FlowElement, name: string): (r: Result<Option<string>>)
    ensures FirstAttributeIndex(e.attributes, name).None? ==> r == Ok(None)
    ensures FirstAttributeIndex(e.attributes, name).Some? ==>
      var v := e.attributes[FirstAttributeIndex(e.attributes, name).value].value;
      (r == Ok(None) <==> v.Null?) && (r.Ok? && r.value.Some? ==> v == Str(r.value.value))
      && (r.Err? <==> !v.Null? && !v.Str?)
    ensures r.Err? ==> r.error == ClassCast
  {
    match FirstAttributeIndex(e.attributes, name)
    case None => Ok(None)
    case Some(i) =>
      match e.attributes[i].value
      case Null => Ok(None)
      case Str(s) => Ok(Some(s))
      case _ => Err(ClassCast)
  }

  /** `findIndex`: the first index of an element with this name, or -1. */
  function ElementIndex(es: seq<FlowElement>, name: string): (r: int)
    ensures -1 <= r < |es|
    ensures r >= 0 ==> es[r].name == name && forall j | 0 <= j < r :: es[j].name != name
    ensures r == -1 <==> forall j | 0 <= j < |es| :: es[j].name != name
  {
    match FirstElementIndex(es, name) case Some(i) => i case None => -1
  }

  // ------------------------------------------------------------- actions

  /** What running steps leaves behind: the context, the next unused uuid, the variable store, and the exception if one was thrown. */
  datatype Outcome = Outcome(ctx: ExecContext, next: nat, vars: map<string, Stored>, result: Result<()>)

  /** The text a String field of a payload holds: its string, or null. */
  function FieldText(fields: Entries, name: string): Option<string> {
    match Lookup(fields, name) case Str(s) => Some(s) case _ => None
  }

  function StrOrNull(t: Option<string>): (v: Value)
    ensures t.None? <==> v.Null?
  {
    if t.Some? then Str(t.value) else Null
  }

  /** An Integer field of a payload: its value, or null. */
  function IntField(fields: Entries, name: string): Option<int> {
    match Lookup(fields, name) case Int(i) => Some(i) case _ => None
  }

  /** `ThreadUtil.sleep(latency)`: a null latency cannot be unboxed and `Thread.sleep` refuses a negative one. */
  function Sleep(latency: Option<int>): Result<()> {
    if latency.None? then Err(NullPointer)
    else if latency.value < 0 then Err(IllegalArgument)
    else Ok(())
  }

  /** `resolvePlaceholders` of a String field: null stays null and draws no uuid. */
  function Resolved(template: Option<string>, env: PlaceholderService.Env, next: nat): (r: (Option<string>, nat))
    ensures template.None? ==> r == (None, next)
    ensures template.Some? ==> r.0.Some? && (r.0.value, r.1) == PlaceholderService.Render(template.value, 0, PlaceholderService.Step(env), next)
  {
    if template.None? then (None, next)
    else
      var rendered := PlaceholderService.Render(template.value, 0, PlaceholderService.Step(env), next);
      (Some(rendered.0), rendered.1)
  }

  /**
   * CALLBACK_API and KAFKA_PUBLISHER: map the attributes, resolve the body,
   * hand the payload over and store it at the element's order number. The
   * callback first sleeps for its latency (and throws on a null or negative
   * one), then reads the body as JSON before it sends (and throws when the
   * body is no JSON); the publisher swallows every failure of its own.
   */
  function Send(fe: FlowElement, cls: PayloadClass, callsBack: bool, env: PlaceholderService.Env, next: nat,
                vars: map<string, Stored>, parse: string -> Option<Value>): (o: Outcome)
    ensures o.result.Err? ==> o.ctx == env.ctx
    ensures o.result.Ok? ==> fe.orderNumber in o.ctx && o.ctx == env.ctx[fe.orderNumber := o.ctx[fe.orderNumber]]
    ensures o.vars == vars
  {
    match MappedFields(fe.attributes, cls.fields)
    case Err(e) => Outcome(env.ctx, next, vars, Err(e))
    case Ok(fields) =>
      var resolved := Resolved(FieldText(fields, "body"), env, next);
      var body := resolved.0;
      var slept := if callsBack then Sleep(IntField(fields, "latency")) else Ok(());
      if slept.Err? then Outcome(env.ctx, resolved.1, vars, Err(slept.error))
      else if callsBack && body.Some? && parse(body.value).None? then Outcome(env.ctx, resolved.1, vars, Err(Decode))
      else Outcome(env.ctx[fe.orderNumber := JObject(cls.name, Put(fields, "body", StrOrNull(body)))], resolved.1, vars, Ok(()))
  }

  /**
   * A callback whose mapped latency is null or negative throws what
   * `Thread.sleep` throws and stores nothing; the publisher has no latency.
   */
  lemma CallbackNeedsLatency(fe: FlowElement, cls: PayloadClass, env: PlaceholderService.Env, next: nat,
                             vars: map<string, Stored>, parse: string -> Option<Value>)
    requires MappedFields(fe.attributes, cls.fields).Ok?
    ensures var latency := IntField(MappedFields(fe.attributes, cls.fields).value, "latency");
      var o := Send(fe, cls, true, env, next, vars, parse);
      (latency.None? ==> o.result == Err(NullPointer) && o.ctx == env.ctx)
      && (latency.Some? && latency.value < 0 ==> o.result == Err(IllegalArgument) && o.ctx == env.ctx)
  {
  }

  /** The nodes a `for (JsonNode node : tree)` visits: an array's items, an object's values, nothing for a scalar. */
  function Children(doc: Value): (r: seq<Value>)
    ensures doc.JList? ==> r == doc.items
    ensures doc.JMap? ==> |r| == |doc.entries| && forall i | 0 <= i < |r| :: r[i] == doc.entries[i].1
    ensures !doc.JList? && !doc.JMap? ==> r == []
  {
    match doc
    case JList(xs) => xs
    case JMap(es) => seq(|es|, i requires 0 <= i < |es| => es[i].1)
    case _ => []
  }

  /** `node.get(name)`: an object's member, null for anything else. */
  function NodeField(node: Value, name: string): Value {
    match node case JMap(es) => Lookup(es, name) case _ => Null
  }

  /** `JsonNode.asText()`: a scalar's text, "" for an object or an array. */
  function AsText(node: Value): string {
    match node
    case JMap(_) => ""
    case JList(_) => ""
    case _ => Text(node)
  }

  /** The variable one node upserts: none when its key is missing or null; a missing or null value gives a null value. */
  function NodeVariable(node: Value): (r: Option<GlobalVariable>)
    ensures r.None? <==> NodeField(node, "key").Null?
    ensures r.Some? ==> r.value.key == Some(AsText(NodeField(node, "key")))
    ensures r.Some? ==> (r.value.value.Null? <==> NodeField(node, "value").Null?)
    ensures r.Some? && !r.value.value.Null? ==> r.value.value == Str(AsText(NodeField(node, "value")))
  {
    var key := NodeField(node, "key");
    var value := NodeField(node, "value");
    if key.Null? then None
    else Some(GlobalVariable(Some(AsText(key)), if value.Null? then Null else Str(AsText(value))))
  }

  /** The variables of the nodes in order, keyless nodes left out. */
  function NodeVariables(nodes: seq<Value>): (r: seq<GlobalVariable>)
    ensures |r| <= |nodes|
    ensures forall v | v in r :: v.key.Some?
    decreases |nodes|
  {
    if nodes == [] then []
    else
      var last := NodeVariable(nodes[|nodes| - 1]);
      NodeVariables(nodes[..|nodes| - 1]) + (if last.Some? then [last.value] else [])
  }

  /** `upsert` of each variable in turn; the first exception ends the run and the earlier upserts stay. */
  function UpsertAll(kv: map<string, Stored>, vs: seq<GlobalVariable>): (e: Effect<()>)
    decreases |vs|
  {
    if vs == [] then Effect(kv, Ok(()))
    else
      var e := UpsertAll(kv, vs[..|vs| - 1]);
      if e.result.Err? then e else UpsertEffect(e.kv, vs[|vs| - 1])
  }

  /**
   * GLOBAL_VARIABLE: map the attributes, resolve the variable text, read it
   * as JSON, upsert the variable of every keyed node, then store the payload
   * with the resolved text. A null text makes the loop throw
   * NullPointerException; text that is no JSON makes the parser throw.
   */
  function SetVariables(fe: FlowElement, env: PlaceholderService.Env, next: nat, vars: map<string, Stored>,
                        parse: string -> Option<Value>): (o: Outcome)
    ensures o.result.Err? ==> o.ctx == env.ctx
    ensures o.result.Ok? ==> fe.orderNumber in o.ctx && o.ctx == env.ctx[fe.orderNumber := o.ctx[fe.orderNumber]]
  {
    match MappedFields(fe.attributes, VARIABLE_PAYLOAD.fields)
    case Err(e) => Outcome(env.ctx, next, vars, Err(e))
    case Ok(fields) =>
      var resolved := Resolved(FieldText(fields, "variable"), env, next);
      var text := resolved.0;
      if text.None? then Outcome(env.ctx, resolved.1, vars, Err(NullPointer))
      else
        match parse(text.value)
        case None => Outcome(env.ctx, resolved.1, vars, Err(Decode))
        case Some(doc) =>
          var e := UpsertAll(vars, NodeVariables(Children(doc)));
          if e.result.Err? then Outcome(env.ctx, resolved.1, e.kv, e.result)
          else Outcome(env.ctx[fe.orderNumber := JObject(VARIABLE_PAYLOAD.name, Put(fields, "variable", Str(text.value)))],
                       resolved.1, e.kv, Ok(()))
  }

  predicate Acts(name: string) {
    name == CALLBACK_API || name == KAFKA_PUBLISHER || name == GLOBAL_VARIABLE
  }

  /** `executeElementAction`: the action of the element's kind, and nothing at all for any other kind. */
  function Act(fe: FlowElement, env: PlaceholderService.Env, next: nat, vars: map<string, Stored>,
               parse: string -> Option<Value>): (o: Outcome)
    ensures !Acts(fe.name) ==> o == Outcome(env.ctx, next, vars, Ok(()))
    ensures o.result.Err? ==> o.ctx == env.ctx
    ensures o.result.Ok? && Acts(fe.name) ==> fe.orderNumber in o.ctx && o.ctx == env.ctx[fe.orderNumber := o.ctx[fe.orderNumber]]
    ensures fe.name != GLOBAL_VARIABLE ==> o.vars == vars
  {
    if fe.name == CALLBACK_API then Send(fe, CALLBACK_PAYLOAD, true, env, next, vars, parse)
    else if fe.name == KAFKA_PUBLISHER then Send(fe, PUBLISHER_PAYLOAD, false, env, next, vars, parse)
    else if fe.name == GLOBAL_VARIABLE then SetVariables(fe, env, next, vars, parse)
    else Outcome(env.ctx, next, vars, Ok(()))
  }

  /** One element acting on what the steps before it left behind, over the placeholder store `pkv`. */
  function StepOf(pkv: map<string, Stored>, supply: nat -> string, spel: (string, Value) -> Option<string>,
                  parse: string -> Option<Value>): (FlowElement, Outcome) -> Outcome
  {
    (fe: FlowElement, o: Outcome) => Act(fe, PlaceholderService.Env(o.ctx, pkv, supply, spel), o.next, o.vars, parse)
  }

  /**
   * `step` does to a state that completed what `Act` does, over the
   * placeholder store `pkv`. Used to reason about runs without looking
   * inside the actions.
   */
  ghost predicate IsStep(step: (FlowElement, Outcome) -> Outcome, pkv: map<string, Stored>, supply: nat -> string,
                         spel: (string, Value) -> Option<string>, parse: string -> Option<Value>)
  {
    forall fe, c, n, kv {:trigger Act(fe, PlaceholderService.Env(c, pkv, supply, spel), n, kv, parse)} ::
      step(fe, Outcome(c, n, kv, Ok(()))) == Act(fe, PlaceholderService.Env(c, pkv, supply, spel), n, kv, parse)
  }

  lemma StepOfIsStep(pkv: map<string, Stored>, supply: nat -> string, spel: (string, Value) -> Option<string>,
                     parse: string -> Option<Value>)
    ensures IsStep(StepOf(pkv, supply, spel, parse), pkv, supply, spel, parse)
  {
  }

  /** Elements run one after another from `start`; the first exception ends the run. */
  function Run(es: seq<FlowElement>, step: (FlowElement, Outcome) -> Outcome, start: Outcome): (o: Outcome)
    decreases |es|
  {
    if es == [] then start
    else
      var o := Run(es[..|es| - 1], step, start);
      if o.result.Err? then o else step(es[|es| - 1], o)
  }

  /**
   * A run over one context, one uuid supply and one variable store. The
   * placeholder store `pkv` belongs to the other code generation and no
   * action writes it.
   */
  function RunAll(es: seq<FlowElement>, pkv: map<string, Stored>, supply: nat -> string,
                  spel: (string, Value) -> Option<string>, ctx: ExecContext, next: nat,
                  vars: map<string, Stored>, parse: string -> Option<Value>): Outcome
  {
    Run(es, StepOf(pkv, supply, spel, parse), Outcome(ctx, next, vars, Ok(())))
  }

  // ------------------------------------------------------------ the service

  class Service {
    const placeholders: PlaceholderService.Service
    const variables: Storage
    const parse: string -> Option<Value>

    constructor (placeholders: PlaceholderService.Service, variables: Storage, parse: string -> Option<Value>)
      ensures this.placeholders == placeholders && this.variables == variables && this.parse == parse
    {
      this.placeholders := placeholders;
      this.variables := variables;
      this.parse := parse;
    }

    /** The placeholder environment over this context. */
    function EnvOf(ctx: ExecContext): PlaceholderService.Env
      reads placeholders.globals.common.db
    {
      PlaceholderService.Env(ctx, placeholders.globals.common.db.kv, placeholders.uuids.supply, placeholders.spel)
    }

    /** The two generations keep their variables in separate stores. */
    predicate Separate() {
      placeholders.globals.common.db != variables.db
    }

    /** `executeElementAction`. */
    method ExecuteElementAction(fe: FlowElement, ctx: Context) returns (r: Result<()>)
      requires variables.db.Valid()
      modifies ctx, placeholders.uuids, variables.db
      ensures variables.db.Valid()
      ensures var o := Act(fe, old(EnvOf(ctx.entries)), old(placeholders.uuids.next), old(variables.db.kv), parse);
        ctx.entries == o.ctx && placeholders.uuids.next == o.next && variables.db.kv == o.vars && r == o.result
    {
      if fe.name == CALLBACK_API {
        r := ExecuteSend(fe, CALLBACK_PAYLOAD, true, ctx);
      } else if fe.name == KAFKA_PUBLISHER {
        r := ExecuteSend(fe, PUBLISHER_PAYLOAD, false, ctx);
      } else if fe.name == GLOBAL_VARIABLE {
        r := ExecuteGlobalVariable(fe, ctx);
      } else {
        r := Ok(());
      }
    }

    /** `executeElementAction` as one step of a run: what `step` does to the state. */
    method Perform(fe: FlowElement, ctx: Context, ghost step: (FlowElement, Outcome) -> Outcome) returns (r: Result<()>)
      requires variables.db.Valid()
      requires IsStep(step, placeholders.globals.common.db.kv, placeholders.uuids.supply, placeholders.spel, parse)
      modifies ctx, placeholders.uuids, variables.db
      ensures variables.db.Valid()
      ensures Outcome(ctx.entries, placeholders.uuids.next, variables.db.kv, r) ==
        step(fe, Outcome(old(ctx.entries), old(placeholders.uuids.next), old(variables.db.kv), Ok(())))
    {
      r := ExecuteElementAction(fe, ctx);
    }

    /**
     * The `for` loops over a flow's steps in order: index `from` up to
     * `to`, each step over the context, up to the first exception.
     */
    method RunSteps(es: seq<FlowElement>, from: nat, to: nat, ctx: Context, ghost step: (FlowElement, Outcome) -> Outcome)
      returns (r: Result<()>)
      requires from <= to <= |es|
      requires variables.db.Valid() && Separate()
      requires IsStep(step, placeholders.globals.common.db.kv, placeholders.uuids.supply, placeholders.spel, parse)
      modifies ctx, placeholders.uuids, variables.db
      ensures variables.db.Valid()
      ensures Outcome(ctx.entries, placeholders.uuids.next, variables.db.kv, r) ==
        Run(es[from..to], step, Outcome(old(ctx.entries), old(placeholders.uuids.next), old(variables.db.kv), Ok(())))
    {
      ghost var pkv := placeholders.globals.common.db.kv;
      ghost var init := Outcome(ctx.entries, placeholders.uuids.next, variables.db.kv, Ok(()));
      var i := from;
      while i < to
        invariant from <= i <= to
        invariant variables.db.Valid()
        invariant placeholders.globals.common.db.kv == pkv
        invariant Outcome(ctx.entries, placeholders.uuids.next, variables.db.kv, Ok(())) == Run(es[from..i], step, init)
      {
        RunExtends(es, from, i, step, init);
        r := Perform(es[i], ctx, step);
        if r.Err? {
          RunStopsAt(es, from, i + 1, to, step, init);
          return;
        }
        assert r.value == ();
        i := i + 1;
      }
      return Ok(());
    }

    /** `executeCallbackAttributes` and `executeKafkaPublisherAttributes`. */
    method ExecuteSend(fe: FlowElement, cls: PayloadClass, callsBack: bool, ctx: Context) returns (r: Result<()>)
      modifies ctx, placeholders.uuids
      ensures var o := Send(fe, cls, callsBack, old(EnvOf(ctx.entries)), old(placeholders.uuids.next), variables.db.kv, parse);
        ctx.entries == o.ctx && placeholders.uuids.next == o.next && r == o.result
    {
      var mapped := MapAttributes(fe.attributes, cls);
      if mapped.Err? {
        return Err(mapped.error);
      }
      var fields := mapped.value.fields;
      var body := ResolveField(fields, "body", ctx);
      if callsBack {
        var slept := Sleep(IntField(fields, "latency"));
        if slept.Err? {
          return Err(slept.error);
        }
        if body.Some? && parse(body.value).None? {
          return Err(Decode);
        }
      }
      ctx.Put(fe.orderNumber, JObject(cls.name, Put(fields, "body", StrOrNull(body))));
      return Ok(());
    }

    /** `resolvePlaceholders(payload.getBody(), context)` and its kin. */
    method ResolveField(fields: Entries, name: string, ctx: Context) returns (r: Option<string>)
      modifies placeholders.uuids
      ensures (r, placeholders.uuids.next) == Resolved(FieldText(fields, name), EnvOf(ctx.entries), old(placeholders.uuids.next))
    {
      r := placeholders.ResolvePlaceholders(FieldText(fields, name), ctx.entries);
    }

    /** `executeGlobalVariableAttributes`. */
    method ExecuteGlobalVariable(fe: FlowElement, ctx: Context) returns (r: Result<()>)
      requires variables.db.Valid()
      modifies ctx, placeholders.uuids, variables.db
      ensures variables.db.Valid()
      ensures var o := SetVariables(fe, old(EnvOf(ctx.entries)), old(placeholders.uuids.next), old(variables.db.kv), parse);
        ctx.entries == o.ctx && placeholders.uuids.next == o.next && variables.db.kv == o.vars && r == o.result
    {
      var mapped := MapAttributes(fe.attributes, VARIABLE_PAYLOAD);
      if mapped.Err? {
        return Err(mapped.error);
      }
      var fields := mapped.value.fields;
      var text := ResolveField(fields, "variable", ctx);
      if text.None? {
        return Err(NullPointer);
      }
      var doc := parse(text.value);
      if doc.None? {
        return Err(Decode);
      }
      var upserted := UpsertNodes(Children(doc.value));
      if upserted.Err? {
        return upserted;
      }
      ctx.Put(fe.orderNumber, JObject(VARIABLE_PAYLOAD.name, Put(fields, "variable", Str(text.value))));
      return Ok(());
    }

    /** The loop over the nodes of the parsed variable list. */
    method UpsertNodes(nodes: seq<Value>) returns (r: Result<()>)
      requires variables.db.Valid()
      modifies variables.db
      ensures variables.db.Valid()
      ensures Effect(variables.db.kv, r) == UpsertAll(old(variables.db.kv), NodeVariables(nodes))
    {
      ghost var kv0 := variables.db.kv;
      var i := 0;
      while i < |nodes|
        invariant 0 <= i <= |nodes|
        invariant variables.db.Valid()
        invariant Effect(variables.db.kv, Ok(())) == UpsertAll(kv0, NodeVariables(nodes[..i]))
      {
        var node := nodes[i];
        UpsertStep(kv0, nodes, i, variables.db.kv);
        var keyNode := NodeField(node, "key");
        var valueNode := NodeField(node, "value");
        if !keyNode.Null? {
          var key := AsText(keyNode);
          var value := if !valueNode.Null? then Str(AsText(valueNode)) else Null;
          var res := variables.Upsert(GlobalVariable(Some(key), value));
          if res.Err? {
            return res;
          }
        }
        i := i + 1;
      }
      assert nodes[..i] == nodes;
      return Ok(());
    }

    /** `mapAttributes`: a fresh payload, then one reflective field set per attribute that names a declared field. */
    method MapAttributes(attrs: seq<Attribute>, cls: PayloadClass) returns (r: Result<Value>)
      ensures r == Mapped(attrs, cls)
    {
      var fields := Defaults(cls.fields);
      var i := 0;
      while i < |attrs|
        invariant 0 <= i <= |attrs|
        invariant MappedFields(attrs[..i], cls.fields) == Ok(fields)
      {
        var attr := attrs[i];
        assert attrs[..i + 1][..i] == attrs[..i];
        var field := DeclaredType(cls.fields, attr.name);
        if field.Some? {
          var value := ConvertValue(attr.value, field.value);
          if value.Err? {
            MappedFailureSticks(attrs, i + 1, cls.fields);
            return Err(Runtime);
          }
          DeclaredIsKey(cls.fields, attr.name, field.value);
          fields := Put(fields, attr.name, value.value);
        }
        i := i + 1;
      }
      assert attrs[..i] == attrs;
      return Ok(JObject(cls.name, fields));
    }

    /** `findIndex`. */
    method FindIndex(elements: seq<FlowElement>, elementType: string) returns (r: int)
      ensures r == ElementIndex(elements, elementType)
    {
      var i := 0;
      while i < |elements|
        invariant 0 <= i <= |elements|
        invariant forall j | 0 <= j < i :: elements[j].name != elementType
      {
        if elementType == elements[i].name {
          return i;
        }
        i := i + 1;
      }
      return -1;
    }
  }

  // ------------------------------------------------------------ properties

  /** Once a prefix of the upserts throws, the whole run ends in that state. */
  lemma {:induction false} UpsertFailureSticks(kv: map<string, Stored>, pre: seq<GlobalVariable>, all: seq<GlobalVariable>)
    requires pre <= all && UpsertAll(kv, pre).result.Err?
    ensures UpsertAll(kv, all) == UpsertAll(kv, pre)
    decreases |all|
  {
    if |all| > |pre| {
      assert pre <= all[..|all| - 1];
      UpsertFailureSticks(kv, pre, all[..|all| - 1]);
    } else {
      assert pre == all;
    }
  }

  /** Once a prefix of the attributes fails to convert, so does the whole mapping. */
  lemma {:induction false} MappedFailureSticks(attrs: seq<Attribute>, i: nat, fields: seq<(string, FieldType)>)
    requires i <= |attrs| && MappedFields(attrs[..i], fields).Err?
    ensures MappedFields(attrs, fields).Err?
    decreases |attrs| - i
  {
    if i < |attrs| {
      assert attrs[..|attrs| - 1][..i] == attrs[..i];
      MappedFailureSticks(attrs[..|attrs| - 1], i, fields);
    } else {
      assert attrs[..i] == attrs;
    }
  }

  /** A value that already has the field's type passes through `convertValue` unchanged. */
  lemma ConvertKeepsTyped(v: Value, t: FieldType)
    requires HasFieldType(v, t)
    ensures ConvertValue(v, t) == Ok(v)
  {
    match t
    case IntegerField => ParseIntToString(v.i);
    case BooleanField =>
      if v.b {
        LowerCaseOfLower(TRUE_WORD);
      }
    case StringField =>
  }

  /**
   * Each declared field of a mapped payload holds the converted value of
   * the last attribute with its name, and stays null when no attribute
   * names it; a name the class does not declare is no field at all.
   */
  lemma {:induction false} MappedFieldsMeaning(attrs: seq<Attribute>, fields: seq<(string, FieldType)>, f: string)
    requires MappedFields(attrs, fields).Ok?
    ensures DeclaredType(fields, f).None? ==> f !in Keys(MappedFields(attrs, fields).value)
    ensures DeclaredType(fields, f).Some? ==>
      var v := Lookup(MappedFields(attrs, fields).value, f);
      match LastAttributeIndex(attrs, f)
      case None => v == Null
      case Some(i) => ConvertValue(attrs[i].value, DeclaredType(fields, f).value) == Ok(v)
    decreases |attrs|
  {
    var fs := MappedFields(attrs, fields).value;
    if DeclaredType(fields, f).None? {
      assert forall i | 0 <= i < |fields| :: Keys(Defaults(fields))[i] != f;
    }
    if attrs == [] {
      if DeclaredType(fields, f).Some? {
        DefaultsLookup(fields, f);
      }
    } else {
      var init := attrs[..|attrs| - 1];
      var a := attrs[|attrs| - 1];
      MappedFieldsMeaning(init, fields, f);
      var prev := MappedFields(init, fields).value;
      if DeclaredType(fields, a.name).Some? {
        LookupPut(prev, a.name, ConvertValue(a.value, DeclaredType(fields, a.name).value).value, f);
      }
    }
  }

  lemma DefaultsLookup(fields: seq<(string, FieldType)>, f: string)
    ensures Lookup(Defaults(fields), f) == Null
  {
    DefaultsLookupFrom(Defaults(fields), f);
  }

  lemma {:induction false} DefaultsLookupFrom(es: Entries, f: string)
    requires forall i | 0 <= i < |es| :: es[i].1 == Null
    ensures Lookup(es, f) == Null
    decreases |es|
  {
    if es != [] {
      assert forall i | 0 <= i < |es| - 1 :: es[1..][i] == es[i + 1];
      DefaultsLookupFrom(es[1..], f);
    }
  }

  /** The mapping throws exactly when an attribute that names a declared field holds a value its type rejects. */
  lemma MappedFieldsFails(attrs: seq<Attribute>, fields: seq<(string, FieldType)>)
    ensures MappedFields(attrs, fields).Err? <==> exists i | 0 <= i < |attrs| :: Rejects(fields, attrs[i])
  {
    if MappedFields(attrs, fields).Err? {
      FailureHasRejected(attrs, fields);
    }
    if i :| 0 <= i < |attrs| && Rejects(fields, attrs[i]) {
      RejectedFails(attrs, fields, i);
    }
  }

  lemma {:induction false} FailureHasRejected(attrs: seq<Attribute>, fields: seq<(string, FieldType)>)
    requires MappedFields(attrs, fields).Err?
    ensures exists i | 0 <= i < |attrs| :: Rejects(fields, attrs[i])
    decreases |attrs|
  {
    var init := attrs[..|attrs| - 1];
    MappedLast(attrs, fields);
    if MappedFields(init, fields).Err? {
      FailureHasRejected(init, fields);
      var i :| 0 <= i < |init| && Rejects(fields, init[i]);
      assert attrs[i] == init[i];
    } else {
      assert Rejects(fields, attrs[|attrs| - 1]);
    }
  }

  lemma {:induction false} RejectedFails(attrs: seq<Attribute>, fields: seq<(string, FieldType)>, i: nat)
    requires i < |attrs| && Rejects(fields, attrs[i])
    ensures MappedFields(attrs, fields).Err?
    decreases |attrs|
  {
    var init := attrs[..|attrs| - 1];
    MappedLast(attrs, fields);
    if i < |init| {
      assert init[i] == attrs[i];
      RejectedFails(init, fields, i);
      assert MappedFields(init, fields).Err?;
    } else {
      assert i == |attrs| - 1;
    }
  }

  /** The last attribute makes the mapping throw exactly when it is rejected, once the earlier ones did not. */
  lemma MappedLast(attrs: seq<Attribute>, fields: seq<(string, FieldType)>)
    requires attrs != []
    ensures MappedFields(attrs, fields).Err?
      <==> MappedFields(attrs[..|attrs| - 1], fields).Err? || Rejects(fields, attrs[|attrs| - 1])
  {
  }

  predicate Rejects(fields: seq<(string, FieldType)>, a: Attribute) {
    DeclaredType(fields, a.name).Some? && ConvertValue(a.value, DeclaredType(fields, a.name).value).Err?
  }

  /** One pass of the upsert loop: the run so far followed by this node's variable, if it has one. */
  lemma UpsertStep(kv0: map<string, Stored>, nodes: seq<Value>, i: nat, kv: map<string, Stored>)
    requires i < |nodes| && Effect(kv, Ok(())) == UpsertAll(kv0, NodeVariables(nodes[..i]))
    ensures NodeVariable(nodes[i]).None? ==> UpsertAll(kv0, NodeVariables(nodes[..i + 1])) == Effect(kv, Ok(()))
    ensures NodeVariable(nodes[i]).Some? ==>
      UpsertAll(kv0, NodeVariables(nodes[..i + 1])) == UpsertEffect(kv, NodeVariable(nodes[i]).value)
    ensures UpsertAll(kv0, NodeVariables(nodes[..i + 1])).result.Err? ==>
      UpsertAll(kv0, NodeVariables(nodes)) == UpsertAll(kv0, NodeVariables(nodes[..i + 1]))
  {
    var pre := NodeVariables(nodes[..i]);
    NodeVariablesSnoc(nodes, i);
    if NodeVariable(nodes[i]).Some? {
      UpsertAllSnoc(kv0, pre, NodeVariable(nodes[i]).value);
    } else {
      assert pre + [] == pre;
    }
    if UpsertAll(kv0, NodeVariables(nodes[..i + 1])).result.Err? {
      NodeVariablesPrefix(nodes, i + 1);
      UpsertFailureSticks(kv0, NodeVariables(nodes[..i + 1]), NodeVariables(nodes));
    }
  }

  /** One more node adds its variable, if it has one, to the end. */
  lemma NodeVariablesSnoc(nodes: seq<Value>, i: nat)
    requires i < |nodes|
    ensures NodeVariables(nodes[..i + 1]) ==
      NodeVariables(nodes[..i]) + (if NodeVariable(nodes[i]).Some? then [NodeVariable(nodes[i]).value] else [])
  {
    assert nodes[..i + 1][..i] == nodes[..i];
  }

  /** One more upsert applies to the store the earlier ones left, unless one of them threw. */
  lemma UpsertAllSnoc(kv: map<string, Stored>, vs: seq<GlobalVariable>, v: GlobalVariable)
    ensures UpsertAll(kv, vs + [v]) ==
      if UpsertAll(kv, vs).result.Err? then UpsertAll(kv, vs) else UpsertEffect(UpsertAll(kv, vs).kv, v)
  {
    assert (vs + [v])[..|vs|] == vs;
  }

  /** The last variable with key k in a run of upserts, if any. */
  function LastWithKey(vs: seq<GlobalVariable>, k: string): (r: Option<GlobalVariable>)
    ensures r.Some? ==> r.value in vs && r.value.key == Some(k)
    ensures r.None? ==> forall v | v in vs :: v.key != Some(k)
    decreases |vs|
  {
    if vs == [] then None
    else if vs[|vs| - 1].key == Some(k) then Some(vs[|vs| - 1])
    else
      var r := LastWithKey(vs[..|vs| - 1], k);
      assert forall v | v in vs[..|vs| - 1] :: v in vs;
      assert vs == vs[..|vs| - 1] + [vs[|vs| - 1]];
      r
  }

  /**
   * After a run of upserts that all succeed, each key upserted has exactly
   * one entry, the last value given for it, and every other key keeps its
   * entries as they were.
   */
  lemma {:induction false} UpsertAllLastWins(kv: map<string, Stored>, vs: seq<GlobalVariable>, k: string)
    requires AllVariables(kv).Ok? && UpsertAll(kv, vs).result.Ok?
    ensures AllVariables(UpsertAll(kv, vs).kv).Ok?
    ensures WithKey(AllVariables(UpsertAll(kv, vs).kv).value, k) ==
      match LastWithKey(vs, k) case Some(v) => [v] case None => WithKey(AllVariables(kv).value, k)
    decreases |vs|
  {
    if vs != [] {
      var init := vs[..|vs| - 1];
      var last := vs[|vs| - 1];
      var e := UpsertAll(kv, init);
      UpsertAllLastWins(kv, init, k);
      UpsertLeavesOneEntry(e.kv, last, k);
    }
  }

  /** A thrown action leaves the context as it was; a completed one of the three kinds adds or replaces only its own order number. */
  lemma ActTouchesOwnOrder(fe: FlowElement, env: PlaceholderService.Env, next: nat, vars: map<string, Stored>,
                           parse: string -> Option<Value>, order: int)
    requires order != fe.orderNumber
    ensures ContextGet(Act(fe, env, next, vars, parse).ctx, order) == ContextGet(env.ctx, order)
  {
  }

  /**
   * The payload a completed CALLBACK_API or KAFKA_PUBLISHER step stores
   * holds the resolved body in its `body` field and the mapped attribute
   * values in every other field; a completed callback had a latency of
   * zero or more and a body that reads as JSON.
   */
  lemma SendStoresResolvedBody(fe: FlowElement, cls: PayloadClass, callsBack: bool, env: PlaceholderService.Env,
                               next: nat, vars: map<string, Stored>, parse: string -> Option<Value>, f: string)
    requires Send(fe, cls, callsBack, env, next, vars, parse).result.Ok?
    ensures MappedFields(fe.attributes, cls.fields).Ok?
    ensures var fields := MappedFields(fe.attributes, cls.fields).value;
      var payload := Send(fe, cls, callsBack, env, next, vars, parse).ctx[fe.orderNumber];
      payload.JObject? && payload.cls == cls.name
      && Lookup(payload.fields, f) == if f == "body" then StrOrNull(Resolved(FieldText(fields, "body"), env, next).0) else Lookup(fields, f)
    ensures var fields := MappedFields(fe.attributes, cls.fields).value;
      var body := Resolved(FieldText(fields, "body"), env, next).0;
      callsBack ==> (IntField(fields, "latency").Some? && IntField(fields, "latency").value >= 0
                     && (body.Some? ==> parse(body.value).Some?))
  {
    var fields := MappedFields(fe.attributes, cls.fields).value;
    var body := Resolved(FieldText(fields, "body"), env, next).0;
    LookupPut(fields, "body", StrOrNull(body), f);
  }

  /** A run of steps cut in two is the first part followed by the second, unless the first part throws. */
  lemma {:induction false} RunConcatenate(a: seq<FlowElement>, b: seq<FlowElement>, step: (FlowElement, Outcome) -> Outcome,
                                         start: Outcome)
    ensures var o := Run(a, step, start);
      Run(a + b, step, start) == if o.result.Err? then o else Run(b, step, o)
    decreases |b|
  {
    var o := Run(a, step, start);
    if b == [] {
      assert a + b == a;
    } else {
      var init := b[..|b| - 1];
      RunConcatenate(a, init, step, start);
      var ab := a + b;
      assert ab[..|ab| - 1] == a + init;
      assert ab[|ab| - 1] == b[|b| - 1];
      if o.result.Err? {
        RunErrSticks(init, step, o);
      }
    }
  }

  /** A run that starts from an exception ends in it. */
  lemma {:induction false} RunErrSticks(es: seq<FlowElement>, step: (FlowElement, Outcome) -> Outcome, start: Outcome)
    requires start.result.Err?
    ensures Run(es, step, start) == start
    decreases |es|
  {
    if es != [] {
      RunErrSticks(es[..|es| - 1], step, start);
    }
  }

  /** Steps that leave the state as they find it leave a whole run unchanged. */
  lemma {:induction false} RunIdle(es: seq<FlowElement>, step: (FlowElement, Outcome) -> Outcome, start: Outcome)
    requires forall i | 0 <= i < |es| :: step(es[i], start) == start
    ensures Run(es, step, start) == start
    decreases |es|
  {
    if es != [] {
      RunIdle(es[..|es| - 1], step, start);
    }
  }

  /** The run over one more step is that step applied to the run so far. */
  lemma RunExtends(es: seq<FlowElement>, from: nat, i: nat, step: (FlowElement, Outcome) -> Outcome, start: Outcome)
    requires from <= i < |es|
    ensures var o := Run(es[from..i], step, start);
      Run(es[from..i + 1], step, start) == if o.result.Err? then o else step(es[i], o)
  {
    assert es[from..i + 1][..i - from] == es[from..i];
  }

  /** A run that throws on a prefix of the steps throws the same on all of them. */
  lemma RunStopsAt(es: seq<FlowElement>, from: nat, i: nat, to: nat, step: (FlowElement, Outcome) -> Outcome, start: Outcome)
    requires from <= i <= to <= |es| && Run(es[from..i], step, start).result.Err?
    ensures Run(es[from..to], step, start) == Run(es[from..i], step, start)
  {
    assert es[from..to] == es[from..i] + es[i..to];
    RunConcatenate(es[from..i], es[i..to], step, start);
  }

  /** Steps of kinds that do not act change nothing, wherever they stand in a run. */
  lemma InertStepsChangeNothing(es: seq<FlowElement>, pkv: map<string, Stored>, supply: nat -> string,
                                spel: (string, Value) -> Option<string>, ctx: ExecContext, next: nat,
                                vars: map<string, Stored>, parse: string -> Option<Value>)
    requires forall i | 0 <= i < |es| :: !Acts(es[i].name)
    ensures RunAll(es, pkv, supply, spel, ctx, next, vars, parse) == Outcome(ctx, next, vars, Ok(()))
  {
    var step := StepOf(pkv, supply, spel, parse);
    var start := Outcome(ctx, next, vars, Ok(()));
    forall i | 0 <= i < |es| ensures step(es[i], start) == start {
      var o := Act(es[i], PlaceholderService.Env(ctx, pkv, supply, spel), next, vars, parse);
    }
    RunIdle(es, step, start);
  }

  /** The variables of a prefix of the nodes are a prefix of the variables of all of them. */
  lemma {:induction false} NodeVariablesPrefix(nodes: seq<Value>, i: nat)
    requires i <= |nodes|
    ensures NodeVariables(nodes[..i]) <= NodeVariables(nodes)
    decreases |nodes| - i
  {
    if i < |nodes| {
      assert nodes[..|nodes| - 1][..i] == nodes[..i];
      NodeVariablesPrefix(nodes[..|nodes| - 1], i);
    } else {
      assert nodes[..i] == nodes;
    }
  }
}
