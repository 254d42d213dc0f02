/**
 * The `POST /vapi/tools` handler: the shared-secret check, the envelope check,
 * the loop over `toolCallList`, and the mapping of a thrown error to the
 * response status and body.
 */
module Webhook {
  import opened Wrappers
  import opened JsValue
  import opened Calendar
  import opened Auth
  import opened Tools

  /**
   * The environment the handler reads: the optional shared secret
   * (`VAPI_SHARED_SECRET`) and the target calendar (`GOOGLE_CALENDAR_ID`),
   * each `None` when unset.
   */
  datatype Config = Config(sharedSecret: Option<string>, calendarId: Option<string>)

  /** A response body: `{ results }` or `{ error }`. */
  datatype Body = Results(items: seq<Item>) | ErrorBody(error: string)

  datatype Response = Response(status: int, body: Body)

  /** A handled request: the response sent and the calendar operations issued, in order. */
  datatype Exchange = Exchange(response: Response, trace: seq<Op>)

  const InvalidPayload := "Invalid payload: expected tool-calls"
  /** The TypeError a JavaScript engine (V8) throws for `for (... of x)` when `x` is not iterable. */
  const NotIterable := Thrown(None, "toolCallList is not iterable")

  /**
   * The `catch` block: the status is `e.statusCode || 500` and the body
   * `{ error: e.message || "Server error" }`.
   */
  function ErrorResponse(e: Thrown): (r: Response)
    ensures r.body.ErrorBody?
    ensures r.status != 0
    ensures e.statusCode.Some? && e.statusCode.value != 0 ==> r.status == e.statusCode.value
    ensures e.statusCode.None? || e.statusCode.value == 0 ==> r.status == 500
    ensures e.message != "" ==> r.body.error == e.message
    ensures e.message == "" ==> r.body.error == "Server error"
  {
    var status := if e.statusCode.Some? && e.statusCode.value != 0 then e.statusCode.value else 500;
    Response(status, ErrorBody(if e.message == "" then "Server error" else e.message))
  }

  /** `!message || message.type !== "tool-calls"` is false. */
  predicate ValidEnvelope(message: Value)
  {
    Truthy(message) && Prop(message, "type") == Some(JStr("tool-calls"))
  }

  /**
   * The calls `for (const toolCall of message.toolCallList || [])` visits: none
   * for a falsy list, the elements of an array, the characters of a string
   * (as one-character strings); any other value is not iterable and throws.
   */
  function ToolCallList(list: Value): (r: Result<seq<Json>, Thrown>)
    ensures !Truthy(list) ==> r == Ok([])
    ensures list.Some? && list.value.JArr? ==> r == Ok(list.value.elems)
    ensures r.Err? <==> Truthy(list) && !list.value.JArr? && !list.value.JStr?
    ensures list.Some? && list.value.JStr? ==> r == Ok(Characters(list.value.s))
    ensures r.Err? ==> r.error == NotIterable
  {
    if !Truthy(list) then Ok([])
    else match list.value
      case JArr(xs) => Ok(xs)
      case JStr(s) => Ok(Characters(s))
      case _ => Err(NotIterable)
  }

  /** The one-character strings of `s`, in order: what `for ... of` visits in a string. */
  function Characters(s: string): (r: seq<Json>)
    ensures |r| == |s|
  {
    if s == [] then [] else [JStr([s[0]])] + Characters(s[1..])
  }

  /** Item `i` of `Characters(s)` is the one-character string of `s[i]`. */
  lemma {:induction false} CharactersAt(s: string, i: nat)
    requires i < |s|
    ensures Characters(s)[i] == JStr([s[i]])
  {
    if i > 0 {
      CharactersAt(s[1..], i - 1);
    }
  }

  /** What the handler does with one request, as a function of its inputs. */
  function Respond(config: Config, header: Option<string>, body: Value, provider: Provider): (r: Exchange)
    // the secret is checked first, whatever the body, and a mismatch contacts nothing
    ensures AssertAuth(config.sharedSecret, header).Fail? ==>
              r == Exchange(Response(401, ErrorBody("Unauthorized")), [])
    // a malformed envelope is refused before anything is contacted
    ensures AssertAuth(config.sharedSecret, header).Pass? && !ValidEnvelope(Prop(body, "message")) ==>
              r == Exchange(Response(400, ErrorBody(InvalidPayload)), [])
    // a missing list is an empty batch
    ensures AssertAuth(config.sharedSecret, header).Pass? && ValidEnvelope(Prop(body, "message")) &&
            Prop(Prop(body, "message"), "toolCallList").None? ==>
              r == Exchange(Response(200, Results([])), [])
    // a truthy list that is neither an array nor a string is not iterable: 500, nothing contacted
    ensures var list := Prop(Prop(body, "message"), "toolCallList");
            AssertAuth(config.sharedSecret, header).Pass? && ValidEnvelope(Prop(body, "message")) &&
            Truthy(list) && !list.value.JArr? && !list.value.JStr? ==>
              r == Exchange(Response(500, ErrorBody("toolCallList is not iterable")), [])
    // the calendar is contacted only for an authorised, well-formed request
    ensures r.trace != [] ==> AssertAuth(config.sharedSecret, header).Pass? && ValidEnvelope(Prop(body, "message"))
    // results are only ever sent whole, with status 200
    ensures r.response.body.Results? ==> r.response.status == 200
  {
    if AssertAuth(config.sharedSecret, header).Fail? then
      Exchange(ErrorResponse(AssertAuth(config.sharedSecret, header).error), [])
    else if !ValidEnvelope(Prop(body, "message")) then
      Exchange(Response(400, ErrorBody(InvalidPayload)), [])
    else match ToolCallList(Prop(Prop(body, "message"), "toolCallList"))
      case Err(e) => Exchange(ErrorResponse(e), [])
      case Ok(calls) =>
        var run := RunCalls(provider, config.calendarId, calls);
        match run.outcome
        case Err(e) => Exchange(ErrorResponse(e), run.trace)
        case Ok(items) => Exchange(Response(200, Results(items)), run.trace)
  }

  /** An authorised, well-formed request with an iterable list is answered by its batch. */
  lemma RespondRunsCalls(config: Config, header: Option<string>, body: Value, provider: Provider)
    requires AssertAuth(config.sharedSecret, header).Pass? && ValidEnvelope(Prop(body, "message"))
    requires CallsOf(body).Ok?
    ensures var run := RunCalls(provider, config.calendarId, CallsOf(body).value);
            Respond(config, header, body, provider) ==
              Exchange(if run.outcome.Err? then ErrorResponse(run.outcome.error) else Response(200, Results(run.outcome.value)),
                       run.trace)
  {
  }

  /**
   * The handler itself: `body` is the parsed request body (`None` when
   * absent), `header` the `x-vapi-secret` header, `provider` the calendar
   * service. Returns the response and the operations issued, in order.
   */
  method Handle(config: Config, header: Option<string>, body: Value, provider: Provider)
    returns (response: Response, trace: seq<Op>)
    ensures Exchange(response, trace) == Respond(config, header, body, provider)
  {
    trace := [];
    var auth := AssertAuth(config.sharedSecret, header);
    if auth.Fail? {
      response := ErrorResponse(auth.error);
      return;
    }
    var message := Prop(body, "message");
    if !Truthy(message) || Prop(message, "type") != Some(JStr("tool-calls")) {
      response := Response(400, ErrorBody(InvalidPayload));
      return;
    }
    var toolCallList := ToolCallList(Prop(message, "toolCallList"));
    if toolCallList.Err? {
      response := ErrorResponse(toolCallList.error);
      return;
    }
    RespondRunsCalls(config, header, body, provider);
    var outcome;
    outcome, trace := Tools.RunToolCalls(provider, config.calendarId, toolCallList.value);
    match outcome
    case Err(e) => response := ErrorResponse(e);
    case Ok(results) => response := Response(200, Results(results));
  }

  /** The tool calls of an authorised, well-formed request, when its list is iterable. */
  function CallsOf(body: Value): Result<seq<Json>, Thrown>
  {
    ToolCallList(Prop(Prop(body, "message"), "toolCallList"))
  }

  /**
   * A response carrying results answers an authorised, well-formed request
   * with one item per tool call, in input order, each echoing its call's id,
   * `ok: false` exactly for the unknown tools; and the calendar saw exactly
   * the intended operation of each recognised call, in order.
   */
  lemma SuccessfulResponse(config: Config, header: Option<string>, body: Value, provider: Provider)
    requires Respond(config, header, body, provider).response.body.Results?
    ensures var r := Respond(config, header, body, provider);
            var items := r.response.body.items;
            AssertAuth(config.sharedSecret, header).Pass? && ValidEnvelope(Prop(body, "message")) &&
            CallsOf(body).Ok? && |items| == |CallsOf(body).value| &&
            (forall k :: 0 <= k < |items| ==>
              items[k].toolCallId == Prop(Some(CallsOf(body).value[k]), "id") &&
              (IsOk(items[k].result) <==> ToolOf(NameOf(CallsOf(body).value[k])) != OtherTool)) &&
            r.trace == IntendedOps(config.calendarId, CallsOf(body).value, |CallsOf(body).value|)
  {
    var calls := CallsOf(body).value;
    ItemsFollowCalls(provider, config.calendarId, calls, |calls|);
    SuccessIssuesIntendedOps(provider, config.calendarId, calls, |calls|);
  }

  /**
   * If tool call `k` of an authorised, well-formed request throws `e`, the
   * whole request fails with `e`'s status and message, no results are sent,
   * and the calendar saw nothing after call `k`'s own operation.
   */
  lemma BatchFailureIsFatal(config: Config, header: Option<string>, body: Value, provider: Provider, k: nat)
    requires AssertAuth(config.sharedSecret, header).Pass? && ValidEnvelope(Prop(body, "message"))
    requires CallsOf(body).Ok? && k < |CallsOf(body).value|
    requires RunPrefix(Dispatch(provider, config.calendarId), CallsOf(body).value, k).outcome.Ok?
    requires CallStep(provider, config.calendarId, CallsOf(body).value[k],
                      RunPrefix(Dispatch(provider, config.calendarId), CallsOf(body).value, k).trace).outcome.Err?
    ensures var calls := CallsOf(body).value;
            var before := RunPrefix(Dispatch(provider, config.calendarId), calls, k);
            var s := CallStep(provider, config.calendarId, calls[k], before.trace);
            Respond(config, header, body, provider) == Exchange(ErrorResponse(s.outcome.error), before.trace + s.ops)
  {
    var calls := CallsOf(body).value;
    var before := RunPrefix(Dispatch(provider, config.calendarId), calls, k);
    var s := CallStep(provider, config.calendarId, calls[k], before.trace);
    Advance(Dispatch(provider, config.calendarId), calls, k, before.outcome.value, before.trace, s.outcome, s.ops);
  }

  /**
   * The worked example: one `cancel_appointment` call `a1` for event
   * `evt123`, which the calendar accepts, yields one cancelled item echoing
   * `a1` and exactly one delete.
   */
  lemma CancelExample(calendarId: Option<string>, provider: Provider)
    requires provider([], Delete(calendarId, JStr("evt123"))).Done?
    ensures var call := JObj(map["id" := JStr("a1"),
                                 "function" := JObj(map["name" := JStr("cancel_appointment"),
                                                        "arguments" := JObj(map["eventId" := JStr("evt123")])])]);
            var body := JObj(map["message" := JObj(map["type" := JStr("tool-calls"), "toolCallList" := JArr([call])])]);
            Respond(Config(None, calendarId), None, Some(body), provider) ==
              Exchange(Response(200, Results([Item(Some(JStr("a1")), Cancelled(JStr("evt123")))])),
                       [Delete(calendarId, JStr("evt123"))])
  {
    var call := JObj(map["id" := JStr("a1"),
                         "function" := JObj(map["name" := JStr("cancel_appointment"),
                                                "arguments" := JObj(map["eventId" := JStr("evt123")])])]);
    var body := JObj(map["message" := JObj(map["type" := JStr("tool-calls"), "toolCallList" := JArr([call])])]);
    assert CallsOf(Some(body)) == Ok([call]);
    assert NameOf(call) == Some(JStr("cancel_appointment"));
    assert Arg(call, "eventId") == Some(JStr("evt123"));
    assert Prop(Some(call), "id") == Some(JStr("a1"));
    var op := Delete(calendarId, JStr("evt123"));
    var item := Item(Some(JStr("a1")), Cancelled(JStr("evt123")));
    assert CallStep(provider, calendarId, call, []) == Step(Ok(item), [op]);
    assert RunPrefix(Dispatch(provider, calendarId), [call], 0) == Run(Ok([]), []);
    assert [] + [item] == [item] && [] + [op] == [op];
    assert RunCalls(provider, calendarId, [call]) == Run(Ok([Item(Some(JStr("a1")), Cancelled(JStr("evt123")))]), [op]);
    assert ValidEnvelope(Prop(Some(body), "message"));
  }

  /**
   * In a batch of three calls where the second one's operation fails, the
   * request fails as a whole: no results for the first call are sent and the
   * third call is never issued.
   */
  lemma SecondOfThreeFails(config: Config, header: Option<string>, c1: Json, c2: Json, c3: Json, provider: Provider)
    requires AssertAuth(config.sharedSecret, header).Pass?
    requires CallStep(provider, config.calendarId, c1, []).outcome.Ok?
    requires CallStep(provider, config.calendarId, c2, CallStep(provider, config.calendarId, c1, []).ops).outcome.Err?
    ensures var body := JObj(map["message" := JObj(map["type" := JStr("tool-calls"), "toolCallList" := JArr([c1, c2, c3])])]);
            var s1 := CallStep(provider, config.calendarId, c1, []);
            var s2 := CallStep(provider, config.calendarId, c2, s1.ops);
            Respond(config, header, Some(body), provider) == Exchange(ErrorResponse(s2.outcome.error), s1.ops + s2.ops)
  {
    var body := JObj(map["message" := JObj(map["type" := JStr("tool-calls"), "toolCallList" := JArr([c1, c2, c3])])]);
    var calls := [c1, c2, c3];
    assert CallsOf(Some(body)) == Ok(calls);
    assert RunPrefix(Dispatch(provider, config.calendarId), calls, 1).trace == CallStep(provider, config.calendarId, c1, []).ops;
    BatchFailureIsFatal(config, header, Some(body), provider, 1);
  }

  /**
   * A tool call whose name is an object with its own `toString` key cannot be
   * named in the "Unknown tool function" message: the conversion throws, and
   * the request fails with a 500 instead of answering with an item.
   */
  lemma ObjectNameWithToStringFails(calendarId: Option<string>, provider: Provider)
    ensures var call := JObj(map["id" := JStr("a1"),
                                 "function" := JObj(map["name" := JObj(map["toString" := JStr("x")])])]);
            var body := JObj(map["message" := JObj(map["type" := JStr("tool-calls"), "toolCallList" := JArr([call])])]);
            Respond(Config(None, calendarId), None, Some(body), provider) ==
              Exchange(Response(500, ErrorBody("Cannot convert object to primitive value")), [])
  {
    var name := JObj(map["toString" := JStr("x")]);
    var call := JObj(map["id" := JStr("a1"), "function" := JObj(map["name" := name])]);
    var body := JObj(map["message" := JObj(map["type" := JStr("tool-calls"), "toolCallList" := JArr([call])])]);
    assert CallsOf(Some(body)) == Ok([call]);
    assert NameOf(call) == Some(name);
    assert !Printable(name);
    assert CallStep(provider, calendarId, call, []) == Step(Err(NoPrimitive), []);
    Advance(Dispatch(provider, calendarId), [call], 0, [], [], Err(NoPrimitive), []);
  }

  /**
   * A `null` entry in `toolCallList` fails at `toolCall.id`: the request
   * fails with a 500 carrying the TypeError's message, and nothing is issued.
   */
  lemma NullToolCallFails(calendarId: Option<string>, provider: Provider)
    ensures var body := JObj(map["message" := JObj(map["type" := JStr("tool-calls"), "toolCallList" := JArr([JNull])])]);
            Respond(Config(None, calendarId), None, Some(body), provider) ==
              Exchange(Response(500, ErrorBody("Cannot read properties of null (reading 'id')")), [])
  {
    var body := JObj(map["message" := JObj(map["type" := JStr("tool-calls"), "toolCallList" := JArr([JNull])])]);
    assert CallsOf(Some(body)) == Ok([JNull]);
    Advance(Dispatch(provider, calendarId), [JNull], 0, [], [], Err(NullToolCall), []);
  }
}
