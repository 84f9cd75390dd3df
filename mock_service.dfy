/**
 * MockService: the answer to an HTTP call on a mock. The request path is
 * looked up among the stored flows (the exact path first, then the
 * templated path of the same method), the trigger payload is put in a
 * fresh context at the request step's order number, the steps between the
 * request step and the response step run, the response step is rendered,
 * and the steps after the response step are handed to the asynchronous
 * executor.
 */
module MockService {
  import opened JavaLang
  import opened Values
  import opened Records
  import opened RocksStore
  import opened ExecutionContext
  import opened ElementService
  import RequestUrlService
  import Constant
  import MockFlowRepository
  import MockFlowStorage
  import AsyncFlowExecutor
  import PlaceholderService
  import RocksDbRepository

  const API_TRIGGER_REQUEST: string := "API_TRIGGER_REQUEST"
  const API_TRIGGER_RESPONSE: string := "API_TRIGGER_RESPONSE"
  const CONTENT_TYPE: string := "Content-Type"
  const APPLICATION_JSON: string := "application/json"
  const MIN_STATUS: int := 100
  const MAX_STATUS: int := 999

  /** `ApiResponsePayload`, the attributes of the response step. */
  const RESPONSE_PAYLOAD: PayloadClass := PayloadClass("ApiResponsePayload",
    [("status", IntegerField), ("latency", IntegerField), ("header", StringField), ("body", StringField)])

  /** One response header: its name and its value, which may be null. */
  type Header = (string, Option<string>)

  const JSON_CONTENT: Header := (CONTENT_TYPE, Some(APPLICATION_JSON))

  /** The `ResponseEntity`: status code, headers in the order they were added, body. */
  datatype Response = Response(status: int, headers: seq<Header>, body: Option<string>)

  // ------------------------------------------------------------ parsing

  /**
   * `ParserUtil.toMap`: null stays null, and so does the JSON literal
   * null; anything but a JSON object is a RuntimeException.
   */
  function ToMap(json: Option<string>, parse: string -> Option<Value>): (r: Result<Value>)
    ensures json.None? ==> r == Ok(Null)
    ensures r.Ok? ==> r.value.Null? || r.value.JMap?
    ensures json.Some? ==> (r.Ok? <==> parse(json.value).Some? && (parse(json.value).value.Null? || parse(json.value).value.JMap?))
    ensures json.Some? && r.Ok? ==> r.value == parse(json.value).value
    ensures r.Err? ==> r.error == Runtime
  {
    if json.None? then Ok(Null)
    else match parse(json.value)
      case Some(Null) => Ok(Null)
      case Some(JMap(es)) => Ok(JMap(es))
      case _ => Err(Runtime)
  }

  /** A JSON member a `Map<String, String>` can hold: null, a string, a number or a boolean. */
  predicate IsScalar(v: Value) {
    v.Null? || v.Str? || v.Int? || v.Bool? || v.Num?
  }

  /** A scalar read as a String: null stays null, anything else is its text. */
  function ScalarText(v: Value): Option<string> {
    if v.Null? then None else Some(Text(v))
  }

  function StringEntries(es: Entries): (hs: seq<Header>)
    ensures |hs| == |es| && forall i | 0 <= i < |es| :: hs[i] == (es[i].0, ScalarText(es[i].1))
  {
    seq(|es|, i requires 0 <= i < |es| => (es[i].0, ScalarText(es[i].1)))
  }

  /**
   * `ParserUtil.toStringMap`: as `toMap`, and a member that is an object
   * or an array cannot be read as a String either.
   */
  function ToStringMap(json: Option<string>, parse: string -> Option<Value>): (r: Result<Option<seq<Header>>>)
    ensures json.None? ==> r == Ok(None)
    ensures r.Err? ==> r.error == Runtime
    ensures json.Some? ==> (r == Ok(None) <==> parse(json.value) == Some(Null))
    ensures r.Ok? && r.value.Some? ==>
      json.Some? && parse(json.value).Some? && parse(json.value).value.JMap?
      && var es := parse(json.value).value.entries;
         (forall i | 0 <= i < |es| :: IsScalar(es[i].1))
         && |r.value.value| == |es| && forall i | 0 <= i < |es| :: r.value.value[i] == (es[i].0, ScalarText(es[i].1))
  {
    if json.None? then Ok(None)
    else match parse(json.value)
      case Some(Null) => Ok(None)
      case Some(JMap(es)) => if forall i | 0 <= i < |es| :: IsScalar(es[i].1) then Ok(Some(StringEntries(es))) else Err(Runtime)
      case _ => Err(Runtime)
  }

  // ------------------------------------------------------ finding a mock

  /**
   * `findMatchingMockFlow`: the method-level row of the group, kept when
   * its path template matches the request path segment for segment. The
   * repository reads that row as an `Optional`, so the list this builds
   * holds at most one candidate, here an `Option`.
   */
  function MethodCandidate(kv: map<string, Stored>, groupId: Option<string>, httpMethod: string, path: string)
    : (r: Result<Option<FlowMatchResult>>)
    ensures var row := RocksDbRepository.Find(kv, MockFlowRepository.MethodKey(groupId, Some(httpMethod)), AsMatch);
      (r.Err? <==> row.Some? && row.value.path.None?)
      && ((r.Ok? && r.value.Some?) <==> (row.Some? && row.value.path.Some?
            && RequestUrlService.PartsMatch(RequestUrlService.SplitPath(row.value.path.value), RequestUrlService.SplitPath(path))))
      && (r.Ok? && r.value.Some? ==> r.value == row)
    ensures r.Err? ==> r.error == NullPointer
  {
    match RocksDbRepository.Find(kv, MockFlowRepository.MethodKey(groupId, Some(httpMethod)), AsMatch)
    case None => Ok(None)
    case Some(m) =>
      if m.path.None? then Err(NullPointer)
      else if RequestUrlService.PartsMatch(RequestUrlService.SplitPath(m.path.value), RequestUrlService.SplitPath(path))
      then Ok(Some(m))
      else Ok(None)
  }

  /**
   * `isConditionEligible`: a missing or blank condition, or one the
   * blacklist matches (`Constant.IsBlacklisted`), is not eligible and is
   * never evaluated; otherwise the condition must evaluate to TRUE over
   * the trigger payload (an evaluation that fails is `None`).
   * `findMockFlow` consults it only when it has two candidates or more,
   * which never happens.
   */
  function ConditionEligible(m: FlowMatchResult, payload: Value, evaluate: (string, Value) -> Option<bool>): (b: bool)
    ensures b ==> m.expression.Some? && evaluate(m.expression.value, payload) == Some(true)
    ensures m.expression.None? || IsBlank(m.expression.value) || Constant.IsBlacklisted(m.expression.value) ==> !b
    ensures m.expression.Some? && !IsBlank(m.expression.value) && !Constant.IsBlacklisted(m.expression.value) ==>
      (b <==> evaluate(m.expression.value, payload) == Some(true))
  {
    if m.expression.None? || IsBlank(m.expression.value) then false
    else if Constant.IsBlacklisted(m.expression.value) then false
    else evaluate(m.expression.value, payload) == Some(true)
  }

  /**
   * `findMockFlow`: the row stored under the exact method and path wins;
   * without one, the method-level row answers when its template matches
   * the path; otherwise 404 MOCK_NOT_FOUND. A method-level row without a
   * path is a NullPointerException. With one candidate at most, the
   * conditions are never consulted.
   */
  function FoundMatch(kv: map<string, Stored>, groupId: Option<string>, httpMethod: string, path: string)
    : (r: Result<FlowMatchResult>)
    ensures var exact := RocksDbRepository.Find(kv, MockFlowRepository.MatchKey(groupId, Some(httpMethod), Some(path)), AsMatch);
      exact.Some? ==> r == Ok(exact.value)
    ensures var exact := RocksDbRepository.Find(kv, MockFlowRepository.MatchKey(groupId, Some(httpMethod), Some(path)), AsMatch);
      var row := RocksDbRepository.Find(kv, MockFlowRepository.MethodKey(groupId, Some(httpMethod)), AsMatch);
      exact.None? ==>
        (r.Ok? <==> row.Some? && row.value.path.Some?
                    && RequestUrlService.PartsMatch(RequestUrlService.SplitPath(row.value.path.value), RequestUrlService.SplitPath(path)))
        && (r.Ok? ==> r.value == row.value)
        && (row.Some? && row.value.path.None? ==> r == Err(NullPointer))
    ensures r.Err? ==> r.error == MOCK_NOT_FOUND || r.error == NullPointer
  {
    match RocksDbRepository.Find(kv, MockFlowRepository.MatchKey(groupId, Some(httpMethod), Some(path)), AsMatch)
    case Some(m) => Ok(m)
    case None =>
      var c :- MethodCandidate(kv, groupId, httpMethod, path);
      if c.None? then Err(MOCK_NOT_FOUND) else Ok(c.value)
  }

  /** `findMock`: the flow stored under the matched row's id, or 404 MOCK_NOT_FOUND. */
  function FoundFlow(kv: map<string, Stored>, groupId: Option<string>, httpMethod: string, path: string)
    : (r: Result<MockFlow>)
    ensures r.Ok? ==>
      FoundMatch(kv, groupId, httpMethod, path).Ok?
      && RocksDbRepository.Find(kv, MockFlowRepository.FlowKey(FoundMatch(kv, groupId, httpMethod, path).value.id), AsFlow) == Some(r.value)
    ensures FoundMatch(kv, groupId, httpMethod, path).Ok?
      && RocksDbRepository.Find(kv, MockFlowRepository.FlowKey(FoundMatch(kv, groupId, httpMethod, path).value.id), AsFlow).None?
      ==> r == Err(MOCK_NOT_FOUND)
    ensures r.Err? ==> r.error == MOCK_NOT_FOUND || r.error == NullPointer
  {
    var m :- FoundMatch(kv, groupId, httpMethod, path);
    match RocksDbRepository.Find(kv, MockFlowRepository.FlowKey(m.id), AsFlow)
    case None => Err(MOCK_NOT_FOUND)
    case Some(flow) => Ok(flow)
  }

  // ------------------------------------------------------------ the trigger

  /** `TriggerPayload` with its fields header, path and body. */
  function TriggerPayload(header: Entries, path: Value, body: Value): (p: Value)
    ensures p.JObject? && Keys(p.fields) == ["header", "path", "body"] && UniqueKeys(p.fields)
    ensures Lookup(p.fields, "header") == JMap(header) && Lookup(p.fields, "path") == path && Lookup(p.fields, "body") == body
  {
    var fields := [("header", JMap(header)), ("path", path), ("body", body)];
    assert fields[1..] == [("path", path), ("body", body)] && fields[1..][1..] == [("body", body)];
    assert Lookup(fields[1..][1..], "body") == body && Lookup(fields[1..], "body") == body;
    JObject("TriggerPayload", fields)
  }

  /** `getTriggerPath`: the path attribute of the first request step; null when there is no request step. */
  function TriggerPath(flow: MockFlow): Result<Option<string>> {
    match FirstElementIndex(flow.elements, API_TRIGGER_REQUEST)
    case None => Ok(None)
    case Some(i) => AttributeValue(flow.elements[i], "path")
  }

  /** `extractPathVariables(template, path)`: a null template cannot be split. */
  function PathVariablesOf(template: Option<string>, path: string): Result<Entries> {
    if template.None? then Err(NullPointer)
    else RequestUrlService.PathVariables(RequestUrlService.SplitPath(template.value), RequestUrlService.SplitPath(path))
  }

  /** The flow that answers a request, and the trigger payload with its path variables. */
  datatype Trigger = Trigger(flow: MockFlow, payload: Value)

  /**
   * Everything `getMockResponse` does before it writes the context: read
   * the body, cut the group off the path, find the mock and bind the path
   * variables.
   */
  function Prepared(kv: map<string, Stored>, groupName: string, requestUri: string, httpMethod: string,
                    requestBody: Option<string>, headers: Entries, parse: string -> Option<Value>): (r: Result<Trigger>)
    ensures r.Ok? ==>
      ToMap(requestBody, parse).Ok? && RequestUrlService.GetRequestPath(groupName, requestUri).Ok?
      && var body := ToMap(requestBody, parse).value;
         var path := RequestUrlService.GetRequestPath(groupName, requestUri).value;
         FoundFlow(kv, None, httpMethod, path) == Ok(r.value.flow)
         && TriggerPath(r.value.flow).Ok?
         && PathVariablesOf(TriggerPath(r.value.flow).value, path).Ok?
         && r.value.payload == TriggerPayload(headers, JMap(PathVariablesOf(TriggerPath(r.value.flow).value, path).value), body)
  {
    var body :- ToMap(requestBody, parse);
    var path :- RequestUrlService.GetRequestPath(groupName, requestUri);
    var flow :- FoundFlow(kv, None, httpMethod, path);
    var template :- TriggerPath(flow);
    var vars :- PathVariablesOf(template, path);
    Ok(Trigger(flow, TriggerPayload(headers, JMap(vars), body)))
  }

  /** `setTriggerContext`'s `findAny().orElseThrow()`: the order number of a request step. */
  function RequestOrder(flow: MockFlow): (r: Result<int>)
    ensures r.Err? <==> forall j | 0 <= j < |flow.elements| :: flow.elements[j].name != API_TRIGGER_REQUEST
    ensures r.Err? ==> r.error == NoSuchElement
    ensures r.Ok? ==> exists j | 0 <= j < |flow.elements| :: flow.elements[j].name == API_TRIGGER_REQUEST && flow.elements[j].orderNumber == r.value
  {
    match FirstElementIndex(flow.elements, API_TRIGGER_REQUEST)
    case None => Err(NoSuchElement)
    case Some(i) => Ok(flow.elements[i].orderNumber)
  }

  /**
   * `runElementsBeforeResponse`: in the flow's steps sorted by order
   * number, the ones strictly between the first request step and the
   * first response step; none when the response step does not come after
   * the request step. BeforeResponseMeaning states what it holds.
   */
  function BeforeResponse(flow: MockFlow): seq<FlowElement> {
    var es := SortByOrder(flow.elements);
    Window(es, ElementIndex(es, API_TRIGGER_REQUEST), ElementIndex(es, API_TRIGGER_RESPONSE))
  }

  /** The steps strictly between indices `start` and `end`, none when `end` does not come after `start + 1`. */
  function Window(es: seq<FlowElement>, start: int, end: int): seq<FlowElement>
    requires -1 <= start && end <= |es|
  {
    if start + 1 < end then es[start + 1..end] else []
  }

  /**
   * The window run before the response holds no response step, is in
   * order-number order, and is the stretch of sorted steps that ends just
   * before the first response step; it is empty when the response step does
   * not come after the request step.
   */
  lemma BeforeResponseMeaning(flow: MockFlow)
    ensures forall x | x in BeforeResponse(flow) :: x.name != API_TRIGGER_RESPONSE
    ensures SortedByOrder(BeforeResponse(flow))
    ensures var es := SortByOrder(flow.elements);
      ElementIndex(es, API_TRIGGER_RESPONSE) <= ElementIndex(es, API_TRIGGER_REQUEST) + 1 ==> BeforeResponse(flow) == []
    ensures var es := SortByOrder(flow.elements); var s := ElementIndex(es, API_TRIGGER_REQUEST); var e := ElementIndex(es, API_TRIGGER_RESPONSE);
      BeforeResponse(flow) != [] ==> s + 1 < e && es[e].name == API_TRIGGER_RESPONSE && BeforeResponse(flow) == es[s + 1..e]
  {
    var es := SortByOrder(flow.elements);
    WindowOf(es, ElementIndex(es, API_TRIGGER_REQUEST), ElementIndex(es, API_TRIGGER_RESPONSE), API_TRIGGER_RESPONSE);
  }

  /** The stretch of sorted steps after `start` that ends at the first `to` step, at index `end`. */
  lemma WindowOf(es: seq<FlowElement>, start: int, end: int, to: string)
    requires -1 <= start < |es| && -1 <= end < |es| && SortedByOrder(es)
    requires end >= 0 ==> es[end].name == to && forall j | 0 <= j < end :: es[j].name != to
    ensures var r := Window(es, start, end);
      (forall x | x in r :: x.name != to) && SortedByOrder(r) && (end <= start + 1 ==> r == [])
      && (r != [] ==> start + 1 < end && es[end].name == to && r == es[start + 1..end])
  {
    if start + 1 < end {
      Records.SliceSorted(es, start + 1, end);
      var r := es[start + 1..end];
      forall x | x in r
        ensures x.name != to
      {
        var i :| 0 <= i < |r| && r[i] == x;
        assert x == es[start + 1 + i];
      }
    }
  }

  // ------------------------------------------------------------ the response

  /** `ResponseEntity.status(status)`: a null status cannot be unboxed and a status code has three digits. */
  function Status(status: Option<int>): Result<int> {
    if status.None? then Err(NullPointer)
    else if MIN_STATUS <= status.value <= MAX_STATUS then Ok(status.value)
    else Err(IllegalArgument)
  }

  /**
   * The headers of the response: Content-Type application/json, then the
   * members of the header attribute's JSON object in order. A header
   * attribute that is the JSON literal null yields a null map that
   * `forEach` cannot walk.
   */
  function ResponseHeaders(header: Option<string>, parse: string -> Option<Value>): (r: Result<seq<Header>>)
    ensures r.Ok? ==> |r.value| >= 1 && r.value[0] == JSON_CONTENT
    ensures header.None? ==> r == Ok([JSON_CONTENT])
    ensures header.Some? && parse(header.value) == Some(Null) ==> r == Err(NullPointer)
    ensures r.Ok? && header.Some? ==>
      ToStringMap(header, parse).Ok? && ToStringMap(header, parse).value.Some?
      && r.value[1..] == ToStringMap(header, parse).value.value
    ensures r.Err? ==> r.error == Runtime || r.error == NullPointer
  {
    if header.None? then Ok([JSON_CONTENT])
    else match ToStringMap(header, parse)
      case Err(e) => Err(e)
      case Ok(None) => Err(NullPointer)
      case Ok(Some(hs)) => Ok([JSON_CONTENT] + hs)
  }

  /** What `returnResponse` leaves behind: the context, the next unused uuid, and the response or its exception. */
  datatype Answer = Answer(ctx: ExecContext, next: nat, result: Result<Response>)

  /**
   * `returnResponse`: the first response step, in the flow's own order,
   * mapped onto `ApiResponsePayload`; the latency is slept, the headers
   * collected, the body resolved over the context, the payload (with the
   * body as written) stored at the step's order number, and the status
   * applied last.
   */
  function Answered(flow: MockFlow, env: PlaceholderService.Env, next: nat, parse: string -> Option<Value>): (a: Answer)
    ensures FirstElementIndex(flow.elements, API_TRIGGER_RESPONSE).None? ==> a == Answer(env.ctx, next, Err(NoSuchElement))
    ensures a.result.Ok? ==>
      FirstElementIndex(flow.elements, API_TRIGGER_RESPONSE).Some?
      && var fe := flow.elements[FirstElementIndex(flow.elements, API_TRIGGER_RESPONSE).value];
         MappedFields(fe.attributes, RESPONSE_PAYLOAD.fields).Ok?
         && var fields := MappedFields(fe.attributes, RESPONSE_PAYLOAD.fields).value;
            var body := Resolved(FieldText(fields, "body"), env, next);
            a.ctx == env.ctx[fe.orderNumber := JObject(RESPONSE_PAYLOAD.name, fields)]
            && IntField(fields, "latency").Some? && IntField(fields, "latency").value >= 0
            && IntField(fields, "status") == Some(a.result.value.status)
            && MIN_STATUS <= a.result.value.status <= MAX_STATUS
            && ResponseHeaders(FieldText(fields, "header"), parse) == Ok(a.result.value.headers)
            && a.result.value.body == body.0 && a.next == body.1
    ensures a.ctx != env.ctx ==> a.result.Ok? || a.result.error == NullPointer || a.result.error == IllegalArgument
    ensures a.result.Err? && a.next != next ==> a.result.error == NullPointer || a.result.error == IllegalArgument
  {
    match FirstElementIndex(flow.elements, API_TRIGGER_RESPONSE)
    case None => Answer(env.ctx, next, Err(NoSuchElement))
    case Some(i) =>
      var fe := flow.elements[i];
      match MappedFields(fe.attributes, RESPONSE_PAYLOAD.fields)
      case Err(e) => Answer(env.ctx, next, Err(e))
      case Ok(fields) =>
        match Sleep(IntField(fields, "latency"))
        case Err(e) => Answer(env.ctx, next, Err(e))
        case Ok(_) =>
          match ResponseHeaders(FieldText(fields, "header"), parse)
          case Err(e) => Answer(env.ctx, next, Err(e))
          case Ok(headers) =>
            var body := Resolved(FieldText(fields, "body"), env, next);
            var ctx := env.ctx[fe.orderNumber := JObject(RESPONSE_PAYLOAD.name, fields)];
            match Status(IntField(fields, "status"))
            case Err(e) => Answer(ctx, body.1, Err(e))
            case Ok(status) => Answer(ctx, body.1, Ok(Response(status, headers, body.0)))
  }

  /** What the synchronous part of `getMockResponse` leaves behind, and its response or exception. */
  datatype Served = Served(ctx: ExecContext, next: nat, vars: map<string, Stored>, result: Result<Response>)

  /**
   * The answering half of `getMockResponse`: the trigger payload goes into the
   * context, the steps before the response run, and the response is
   * rendered over what they left.
   */
  function Serve(t: Trigger, pkv: map<string, Stored>, supply: nat -> string, spel: (string, Value) -> Option<string>,
                 ctx: ExecContext, next: nat, vars: map<string, Stored>, parse: string -> Option<Value>): (s: Served)
    ensures RequestOrder(t.flow).Err? ==> s == Served(ctx, next, vars, Err(NoSuchElement))
    ensures s.result.Ok? ==> RequestOrder(t.flow).Ok? && FirstElementIndex(t.flow.elements, API_TRIGGER_RESPONSE).Some?
  {
    match RequestOrder(t.flow)
    case Err(e) => Served(ctx, next, vars, Err(e))
    case Ok(order) =>
      var o := RunAll(BeforeResponse(t.flow), pkv, supply, spel, ctx[order := t.payload], next, vars, parse);
      if o.result.Err? then Served(o.ctx, o.next, o.vars, Err(o.result.error))
      else
        var a := Answered(t.flow, PlaceholderService.Env(o.ctx, pkv, supply, spel), o.next, parse);
        Served(a.ctx, a.next, o.vars, a.result)
  }

  // ------------------------------------------------------------ the service

  class Service {
    const elements: ElementService.Service
    const flows: MockFlowRepository.FlowRepository
    const executor: AsyncFlowExecutor.Executor

    constructor (elements: ElementService.Service, flows: MockFlowRepository.FlowRepository,
                 executor: AsyncFlowExecutor.Executor)
      ensures this.elements == elements && this.flows == flows && this.executor == executor
    {
      this.elements := elements;
      this.flows := flows;
      this.executor := executor;
    }

    /**
     * The executor runs the steps with this element service, and reads the
     * flow from the store that the variable steps write.
     */
    predicate Wired() {
      executor.elements == elements && executor.flows.db == elements.variables.db && elements.Separate()
    }

    /**
     * `getMockResponse`: a request that finds no flow changes nothing; a
     * flow whose synchronous part throws stops there; otherwise the steps
     * after the response step run over the same context, reading the flow
     * again by its id, and their outcome does not change the response.
     */
    method GetMockResponse(groupName: string, requestUri: string, httpMethod: string, requestBody: Option<string>,
                           headers: Entries) returns (r: Result<Response>)
      requires Wired() && elements.variables.db.Valid()
      modifies elements.placeholders.uuids, elements.variables.db
      ensures elements.variables.db.Valid()
      ensures var p := Prepared(old(flows.common.db.kv), groupName, requestUri, httpMethod, requestBody, headers,
                                elements.parse);
        p.Err? ==> r == Err(p.error) && elements.placeholders.uuids.next == old(elements.placeholders.uuids.next)
                   && elements.variables.db.kv == old(elements.variables.db.kv)
      ensures var p := Prepared(old(flows.common.db.kv), groupName, requestUri, httpMethod, requestBody, headers,
                                elements.parse);
        p.Ok? ==>
          var s := Serve(p.value, old(elements.placeholders.globals.common.db.kv), elements.placeholders.uuids.supply,
                         elements.placeholders.spel, map[], old(elements.placeholders.uuids.next),
                         old(elements.variables.db.kv), elements.parse);
          r == s.result
          && (s.result.Err? ==> elements.placeholders.uuids.next == s.next && elements.variables.db.kv == s.vars)
          && (s.result.Ok? ==>
                var o := AsyncFlowExecutor.AfterTriggerRun(MockFlowStorage.FlowAt(s.vars, FormatNullable(p.value.flow.id)),
                                                           API_TRIGGER_RESPONSE, old(elements.placeholders.globals.common.db.kv),
                                                           elements.placeholders.uuids.supply, elements.placeholders.spel,
                                                           s.ctx, s.next, s.vars, elements.parse);
                elements.placeholders.uuids.next == o.next && elements.variables.db.kv == o.vars)
    {
      var t := Prepare(groupName, requestUri, httpMethod, requestBody, headers);
      if t.Err? {
        return Err(t.error);
      }
      var context := new Context();
      r := Respond(t.value, context);
      if r.Err? {
        return;
      }
      var _ := executor.RunElementsAfterTrigger(FormatNullable(t.value.flow.id), API_TRIGGER_RESPONSE, context);
    }

    /**
     * The matching half of `getMockResponse`: the body is parsed, the path
     * taken from the URI, the flow found, and the path variables bound by
     * the trigger's URL template.
     */
    method Prepare(groupName: string, requestUri: string, httpMethod: string, requestBody: Option<string>,
                   headers: Entries) returns (r: Result<Trigger>)
      ensures r == Prepared(flows.common.db.kv, groupName, requestUri, httpMethod, requestBody, headers, elements.parse)
    {
      var body := ToMap(requestBody, elements.parse);
      if body.Err? {
        return Err(body.error);
      }
      var path := RequestUrlService.GetRequestPath(groupName, requestUri);
      if path.Err? {
        return Err(path.error);
      }
      var flow := FindMock(None, httpMethod, path.value);
      if flow.Err? {
        return Err(flow.error);
      }
      var template := TriggerPath(flow.value);
      if template.Err? {
        return Err(template.error);
      }
      if template.value.None? {
        return Err(NullPointer);
      }
      var vars := RequestUrlService.ExtractPathVariables(template.value.value, path.value);
      if vars.Err? {
        return Err(vars.error);
      }
      return Ok(Trigger(flow.value, TriggerPayload(headers, JMap(vars.value), body.value)));
    }

    /** The answering half of `getMockResponse`, over the context the request created. */
    method Respond(t: Trigger, ctx: Context) returns (r: Result<Response>)
      requires Wired() && elements.variables.db.Valid()
      modifies ctx, elements.placeholders.uuids, elements.variables.db
      ensures elements.variables.db.Valid()
      ensures Served(ctx.entries, elements.placeholders.uuids.next, elements.variables.db.kv, r) ==
        Serve(t, elements.placeholders.globals.common.db.kv, elements.placeholders.uuids.supply, elements.placeholders.spel,
              old(ctx.entries), old(elements.placeholders.uuids.next), old(elements.variables.db.kv), elements.parse)
    {
      var stored := SetTriggerContext(t.flow, t.payload, ctx);
      if stored.Err? {
        return Err(stored.error);
      }
      var run := RunElementsBeforeResponse(t.flow, ctx);
      if run.Err? {
        return Err(run.error);
      }
      r := ReturnResponse(t.flow, ctx);
    }

    /** `setTriggerContext`: the payload goes in at the request step's order number. */
    method SetTriggerContext(flow: MockFlow, payload: Value, ctx: Context) returns (r: Result<()>)
      modifies ctx
      ensures RequestOrder(flow).Err? ==> r == Err(NoSuchElement) && ctx.entries == old(ctx.entries)
      ensures RequestOrder(flow).Ok? ==> r == Ok(()) && ctx.entries == old(ctx.entries)[RequestOrder(flow).value := payload]
    {
      var order := RequestOrder(flow);
      if order.Err? {
        return Err(order.error);
      }
      ctx.Put(order.value, payload);
      return Ok(());
    }

    /** `runElementsBeforeResponse`: the steps between the request step and the response step, in order. */
    method RunElementsBeforeResponse(flow: MockFlow, ctx: Context) returns (r: Result<()>)
      requires elements.variables.db.Valid() && elements.Separate()
      modifies ctx, elements.placeholders.uuids, elements.variables.db
      ensures elements.variables.db.Valid()
      ensures Outcome(ctx.entries, elements.placeholders.uuids.next, elements.variables.db.kv, r) ==
        RunAll(BeforeResponse(flow), old(elements.placeholders.globals.common.db.kv), elements.placeholders.uuids.supply,
               elements.placeholders.spel, old(ctx.entries), old(elements.placeholders.uuids.next),
               old(elements.variables.db.kv), elements.parse)
    {
      var es := SortByOrder(flow.elements);
      var start := elements.FindIndex(es, API_TRIGGER_REQUEST);
      var end := elements.FindIndex(es, API_TRIGGER_RESPONSE);
      ghost var step := StepOf(elements.placeholders.globals.common.db.kv, elements.placeholders.uuids.supply,
                               elements.placeholders.spel, elements.parse);
      StepOfIsStep(elements.placeholders.globals.common.db.kv, elements.placeholders.uuids.supply,
                   elements.placeholders.spel, elements.parse);
      if start + 1 < end {
        assert BeforeResponse(flow) == es[start + 1..end];
        r := elements.RunSteps(es, start + 1, end, ctx, step);
      } else {
        r := Ok(());
      }
    }

    /** `returnResponse`. */
    method ReturnResponse(flow: MockFlow, ctx: Context) returns (r: Result<Response>)
      modifies ctx, elements.placeholders.uuids
      ensures var a := Answered(flow, old(elements.EnvOf(ctx.entries)), old(elements.placeholders.uuids.next), elements.parse);
        ctx.entries == a.ctx && elements.placeholders.uuids.next == a.next && r == a.result
    {
      var found := FirstElementIndex(flow.elements, API_TRIGGER_RESPONSE);
      if found.None? {
        return Err(NoSuchElement);
      }
      var fe := flow.elements[found.value];
      var payload := elements.MapAttributes(fe.attributes, RESPONSE_PAYLOAD);
      if payload.Err? {
        return Err(payload.error);
      }
      var fields := payload.value.fields;
      var slept := Sleep(IntField(fields, "latency"));
      if slept.Err? {
        return Err(slept.error);
      }
      var headers := ResponseHeaders(FieldText(fields, "header"), elements.parse);
      if headers.Err? {
        return Err(headers.error);
      }
      var body := elements.ResolveField(fields, "body", ctx);
      ctx.Put(fe.orderNumber, payload.value);
      var status := Status(IntField(fields, "status"));
      if status.Err? {
        return Err(status.error);
      }
      return Ok(Response(status.value, headers.value, body));
    }

    /** `findMock`. */
    method FindMock(groupId: Option<string>, httpMethod: string, path: string) returns (r: Result<MockFlow>)
      ensures r == FoundFlow(flows.common.db.kv, groupId, httpMethod, path)
    {
      var m := FindMockFlow(groupId, httpMethod, path);
      if m.Err? {
        return Err(m.error);
      }
      var flow := flows.FindById(m.value.id);
      if flow.None? {
        return Err(MOCK_NOT_FOUND);
      }
      return Ok(flow.value);
    }

    /** `findMockFlow`, over its list of at most one candidate. */
    method FindMockFlow(groupId: Option<string>, httpMethod: string, path: string) returns (r: Result<FlowMatchResult>)
      ensures r == FoundMatch(flows.common.db.kv, groupId, httpMethod, path)
    {
      var candidate := flows.FindMatchingByMethodAndPath(groupId, httpMethod, path);
      if candidate.None? {
        var dynamic := FindMatchingMockFlow(groupId, httpMethod, path);
        if dynamic.Err? {
          return Err(dynamic.error);
        }
        candidate := dynamic.value;
      }
      if candidate.None? {
        return Err(MOCK_NOT_FOUND);
      }
      return Ok(candidate.value);
    }

    /** `findMatchingMockFlow`. */
    method FindMatchingMockFlow(groupId: Option<string>, httpMethod: string, requestUrl: string)
      returns (r: Result<Option<FlowMatchResult>>)
      ensures r == MethodCandidate(flows.common.db.kv, groupId, httpMethod, requestUrl)
    {
      var requestUrlParts := RequestUrlService.SplitPath(requestUrl);
      var found := flows.FindMatchingByMethod(groupId, httpMethod);
      if found.None? {
        return Ok(None);
      }
      if found.value.path.None? {
        return Err(NullPointer);
      }
      var matches := RequestUrlService.UrlMatches(found.value.path.value, requestUrlParts);
      return Ok(if matches then found else None);
    }
  }

  // ------------------------------------------------------------ properties

  /**
   * When the request step comes before the response step, every step after
   * the request step runs exactly once: the ones before the response
   * synchronously, then the response step itself, then the asynchronous
   * ones after it.
   */
  lemma StepsAfterRequestPartitioned(flow: MockFlow)
    requires var es := SortByOrder(flow.elements);
      0 <= ElementIndex(es, API_TRIGGER_REQUEST) < ElementIndex(es, API_TRIGGER_RESPONSE)
    ensures var es := SortByOrder(flow.elements);
      es[ElementIndex(es, API_TRIGGER_REQUEST) + 1..] ==
        BeforeResponse(flow) + [es[ElementIndex(es, API_TRIGGER_RESPONSE)]] + AsyncFlowExecutor.AfterTrigger(flow, API_TRIGGER_RESPONSE)
  {
    var es := SortByOrder(flow.elements);
    var s := ElementIndex(es, API_TRIGGER_REQUEST);
    var e := ElementIndex(es, API_TRIGGER_RESPONSE);
    BeforeResponseIs(flow, es, s, e);
    AsyncFlowExecutor.AfterTriggerIs(flow, API_TRIGGER_RESPONSE, es, e);
    SplitAround(es, s + 1, e, BeforeResponse(flow), AsyncFlowExecutor.AfterTrigger(flow, API_TRIGGER_RESPONSE));
  }

  lemma BeforeResponseIs(flow: MockFlow, es: seq<FlowElement>, s: int, e: int)
    requires es == SortByOrder(flow.elements) && s == ElementIndex(es, API_TRIGGER_REQUEST) && e == ElementIndex(es, API_TRIGGER_RESPONSE)
    requires 0 <= s < e
    ensures BeforeResponse(flow) == es[s + 1..e]
  {
  }

  lemma SplitAround(es: seq<FlowElement>, lo: nat, k: nat, before: seq<FlowElement>, after: seq<FlowElement>)
    requires lo <= k < |es| && before == es[lo..k] && after == es[k + 1..]
    ensures es[lo..] == before + [es[k]] + after
  {
  }

  /**
   * When no step between the request and the response acts, the response
   * is rendered over the context holding only what the trigger put there.
   */
  lemma InertWindowAnswersOverTrigger(t: Trigger, pkv: map<string, Stored>, supply: nat -> string,
                                      spel: (string, Value) -> Option<string>, ctx: ExecContext, next: nat,
                                      vars: map<string, Stored>, parse: string -> Option<Value>)
    requires RequestOrder(t.flow).Ok?
    requires forall i | 0 <= i < |BeforeResponse(t.flow)| :: !Acts(BeforeResponse(t.flow)[i].name)
    ensures var a := Answered(t.flow, PlaceholderService.Env(ctx[RequestOrder(t.flow).value := t.payload], pkv, supply, spel),
                              next, parse);
      Serve(t, pkv, supply, spel, ctx, next, vars, parse) == Served(a.ctx, a.next, vars, a.result)
  {
    InertStepsChangeNothing(BeforeResponse(t.flow), pkv, supply, spel, ctx[RequestOrder(t.flow).value := t.payload], next, vars, parse);
  }

  /** The payload the response step stores keeps its body as written; only the response carries the resolved body. */
  lemma StoredResponseKeepsTemplate(flow: MockFlow, env: PlaceholderService.Env, next: nat, parse: string -> Option<Value>)
    requires Answered(flow, env, next, parse).result.Ok?
    ensures var fe := flow.elements[FirstElementIndex(flow.elements, API_TRIGGER_RESPONSE).value];
      var stored := Answered(flow, env, next, parse).ctx[fe.orderNumber];
      stored.JObject? && Lookup(stored.fields, "body") == Lookup(MappedFields(fe.attributes, RESPONSE_PAYLOAD.fields).value, "body")
  {
  }
}
