/**
 * The tool dispatcher of `POST /vapi/tools`: what one tool call does
 * (`CallStep`) and what a whole `toolCallList` does when its calls are handled
 * in order and the first thrown error ends the batch (`RunPrefix`, `RunCalls`),
 * with the loop itself as the methods `RunToolCalls` and `HandleToolCall`.
 */
module Tools {
  import opened Wrappers
  import opened JsValue
  import opened Calendar

  /** The tool a call names, by exact string comparison of `function.name`. */
  datatype Tool = CancelTool | RescheduleTool | OtherTool

  /** The `result` object of one handled call. */
  datatype ToolResult =
    | Cancelled(eventId: Json)                    // { ok: true, action: "cancelled", eventId }
    | Rescheduled(eventId: Json, htmlLink: Value) // { ok: true, action: "rescheduled", eventId, htmlLink }
    | UnknownTool(error: string)                  // { ok: false, error }

  /** One entry of `results`: `{ toolCallId, result }`. */
  datatype Item = Item(toolCallId: Value, result: ToolResult)

  /** What one tool call does: its item or the error it throws, and the operations it issued. */
  datatype Step = Step(outcome: Result<Item, Thrown>, ops: seq<Op>)

  /** What a batch does: all its items or the error that ended it, and every operation issued. */
  datatype Run = Run(outcome: Result<seq<Item>, Thrown>, trace: seq<Op>)

  const CancelNeedsEventId := Thrown(None, "cancel_appointment requires eventId")
  const RescheduleNeedsArgs := Thrown(None, "reschedule_appointment requires eventId, start, end")
  /** The TypeError a JavaScript engine (V8) throws for `null.id`. */
  const NullToolCall := Thrown(None, "Cannot read properties of null (reading 'id')")

  function ToolOf(name: Value): Tool
  {
    if name == Some(JStr("cancel_appointment")) then CancelTool
    else if name == Some(JStr("reschedule_appointment")) then RescheduleTool
    else OtherTool
  }

  /** `toolCall.function?.name`. */
  function NameOf(call: Json): Value
  {
    Prop(Prop(Some(call), "function"), "name")
  }

  /** `toolCall.function?.arguments || {}`. */
  function ArgsOf(call: Json): Value
  {
    Some(OrElse(Prop(Prop(Some(call), "function"), "arguments"), JObj(map[])))
  }

  /** The argument `key` of a call (the destructuring `const { key } = args`). */
  function Arg(call: Json, key: string): Value
  {
    Prop(ArgsOf(call), key)
  }

  /** Whether `${name}` converts `name` without throwing. */
  predicate NamePrintable(name: Value)
  {
    name.None? || Printable(name.value)
  }

  /** The error text of an unrecognised tool: `Unknown tool function: ${name}`. */
  function UnknownMessage(name: Value): string
    requires NamePrintable(name)
  {
    "Unknown tool function: " + Display(name)
  }

  /** Whether the item's `ok` flag is true. */
  predicate IsOk(r: ToolResult)
  {
    !r.UnknownTool?
  }

  /**
   * The operation a recognised call is meant to issue once its required
   * arguments are all truthy; `None` for an unrecognised call or one missing
   * an argument. This is stated independently of `CallStep`.
   */
  function IntendedOp(calendarId: Option<string>, call: Json): Option<Op>
  {
    if call.JNull? then None
    else match ToolOf(NameOf(call))
      case CancelTool =>
        if Truthy(Arg(call, "eventId")) then Some(Delete(calendarId, Arg(call, "eventId").value)) else None
      case RescheduleTool =>
        if Truthy(Arg(call, "eventId")) && Truthy(Arg(call, "start")) && Truthy(Arg(call, "end"))
        then Some(Patch(calendarId, Arg(call, "eventId").value, Arg(call, "start").value, Arg(call, "end").value))
        else None
      case OtherTool => None
  }

  /**
   * One turn of the `for ... of` loop: `call` is the tool call, `before` the
   * operations this request already issued.
   */
  function CallStep(provider: Provider, calendarId: Option<string>, call: Json, before: seq<Op>): (r: Step)
    // at most one remote operation per call, and only the intended one
    ensures |r.ops| <= 1
    // a `null` entry throws at `toolCall.id`, before any operation
    ensures call.JNull? ==> r == Step(Err(NullToolCall), [])
    ensures r.ops != [] ==> IntendedOp(calendarId, call) == Some(r.ops[0])
    // a recognised call with all its arguments issues its operation
    ensures IntendedOp(calendarId, call).Some? ==> r.ops == [IntendedOp(calendarId, call).value]
    // every item echoes the call's id
    ensures r.outcome.Ok? ==> r.outcome.value.toolCallId == Prop(Some(call), "id")
    // an unrecognised name yields an `ok: false` item naming it and issues nothing
    ensures !call.JNull? && ToolOf(NameOf(call)) == OtherTool && NamePrintable(NameOf(call)) ==>
              r == Step(Ok(Item(Prop(Some(call), "id"), UnknownTool(UnknownMessage(NameOf(call))))), [])
    // ... unless naming it in the message throws, which ends the batch
    ensures !call.JNull? && ToolOf(NameOf(call)) == OtherTool && !NamePrintable(NameOf(call)) ==>
              r == Step(Err(NoPrimitive), [])
    ensures r.outcome.Ok? ==> (IsOk(r.outcome.value.result) <==> ToolOf(NameOf(call)) != OtherTool)
    // a missing argument throws the validation error before any operation
    ensures !call.JNull? && ToolOf(NameOf(call)) == CancelTool && !Truthy(Arg(call, "eventId")) ==>
              r == Step(Err(CancelNeedsEventId), [])
    ensures !call.JNull? && ToolOf(NameOf(call)) == RescheduleTool && IntendedOp(calendarId, call).None? ==>
              r == Step(Err(RescheduleNeedsArgs), [])
    // once issued, the operation's reply decides: its error is thrown, its link is copied
    ensures r.ops != [] && provider(before, r.ops[0]).Failed? ==> r.outcome == Err(provider(before, r.ops[0]).error)
    ensures r.ops != [] && provider(before, r.ops[0]).Done? ==>
              r.outcome.Ok? &&
              r.outcome.value.result ==
                (match r.ops[0]
                 case Delete(_, eventId) => Cancelled(eventId)
                 case Patch(_, eventId, _, _) => Rescheduled(eventId, provider(before, r.ops[0]).htmlLink))
  {
    if call.JNull? then Step(Err(NullToolCall), [])
    else
      var toolCallId := Prop(Some(call), "id");
      var name := NameOf(call);
      match ToolOf(name)
      case CancelTool =>
        var eventId := Arg(call, "eventId");
        if !Truthy(eventId) then Step(Err(CancelNeedsEventId), [])
        else
          var op := Delete(calendarId, eventId.value);
          (match provider(before, op)
           case Failed(e) => Step(Err(e), [op])
           case Done(_) => Step(Ok(Item(toolCallId, Cancelled(eventId.value))), [op]))
      case RescheduleTool =>
        var eventId, start, end := Arg(call, "eventId"), Arg(call, "start"), Arg(call, "end");
        if !Truthy(eventId) || !Truthy(start) || !Truthy(end) then Step(Err(RescheduleNeedsArgs), [])
        else
          var op := Patch(calendarId, eventId.value, start.value, end.value);
          (match provider(before, op)
           case Failed(e) => Step(Err(e), [op])
           case Done(link) => Step(Ok(Item(toolCallId, Rescheduled(eventId.value, link))), [op]))
      case OtherTool =>
        if !NamePrintable(name) then Step(Err(NoPrimitive), [])
        else Step(Ok(Item(toolCallId, UnknownTool(UnknownMessage(name)))), [])
  }

  /**
   * What one turn of the loop does with a tool call, given the operations
   * already issued: the handler's turn is `Dispatch`.
   */
  type Turn = (Json, seq<Op>) -> Step

  /** The handler's turn: `CallStep` against `provider` and `calendarId`. */
  function Dispatch(provider: Provider, calendarId: Option<string>): Turn
  {
    (call, before) => CallStep(provider, calendarId, call, before)
  }

  /**
   * The loop over `calls` after its first `n` calls: the calls take their
   * turns in order, items are appended, and the first thrown error ends the
   * batch, keeping the operations issued so far.
   */
  function RunPrefix(turn: Turn, calls: seq<Json>, n: nat): (r: Run)
    requires n <= |calls|
    decreases n
    ensures r.outcome.Ok? ==> |r.outcome.value| == n
  {
    if n == 0 then Run(Ok([]), [])
    else Extend(turn, calls[n - 1], RunPrefix(turn, calls, n - 1))
  }

  /**
   * One more call after the run `prev`: nothing once a call has thrown;
   * otherwise the call's operations are appended, and its item or its error.
   */
  function Extend(turn: Turn, call: Json, prev: Run): (r: Run)
    ensures prev.outcome.Err? ==> r == prev
    ensures prev.outcome.Ok? ==> r.trace == prev.trace + turn(call, prev.trace).ops
    ensures r.outcome.Ok? <==> prev.outcome.Ok? && turn(call, prev.trace).outcome.Ok?
    ensures r.outcome.Ok? ==> r.outcome.value == prev.outcome.value + [turn(call, prev.trace).outcome.value]
  {
    if prev.outcome.Err? then prev
    else
      var s := turn(call, prev.trace);
      match s.outcome
      case Err(e) => Run(Err(e), prev.trace + s.ops)
      case Ok(item) => Run(Ok(prev.outcome.value + [item]), prev.trace + s.ops)
  }

  /** The whole loop of the handler over `calls`. */
  function RunCalls(provider: Provider, calendarId: Option<string>, calls: seq<Json>): Run
  {
    RunPrefix(Dispatch(provider, calendarId), calls, |calls|)
  }

  /** The operations of the recognised, fully-argued calls among the first `n`, in order. */
  function IntendedOps(calendarId: Option<string>, calls: seq<Json>, n: nat): seq<Op>
    requires n <= |calls|
    decreases n
  {
    if n == 0 then []
    else
      IntendedOps(calendarId, calls, n - 1) +
      (match IntendedOp(calendarId, calls[n - 1])
       case Some(op) => [op]
       case None => [])
  }

  /** Once the first `k` calls have thrown, the later calls change nothing. */
  lemma {:induction false} AbortStopsBatch(turn: Turn, calls: seq<Json>, k: nat, n: nat)
    requires k <= n <= |calls|
    requires RunPrefix(turn, calls, k).outcome.Err?
    ensures RunPrefix(turn, calls, n) == RunPrefix(turn, calls, k)
    decreases n
  {
    if k < n {
      AbortStopsBatch(turn, calls, k, n - 1);
    }
  }

  /**
   * One turn of the loop over `calls`, after a successful prefix of `i` calls:
   * a throw ends the whole batch, an item extends the prefix's run.
   */
  lemma Advance(turn: Turn, calls: seq<Json>, i: nat,
                results: seq<Item>, trace: seq<Op>, result: Result<Item, Thrown>, ops: seq<Op>)
    requires i < |calls|
    requires RunPrefix(turn, calls, i) == Run(Ok(results), trace)
    requires turn(calls[i], trace) == Step(result, ops)
    ensures result.Err? ==> RunPrefix(turn, calls, |calls|) == Run(Err(result.error), trace + ops)
    ensures result.Ok? ==> RunPrefix(turn, calls, i + 1) == Run(Ok(results + [result.value]), trace + ops)
  {
    if result.Err? {
      AbortStopsBatch(turn, calls, i + 1, |calls|);
    }
  }

  /**
   * The operations and items after `k` calls are a prefix of those after
   * `n >= k` calls: nothing issued or produced is ever taken back or reordered.
   */
  lemma {:induction false} PrefixOfRun(turn: Turn, calls: seq<Json>, k: nat, n: nat)
    requires k <= n <= |calls|
    ensures RunPrefix(turn, calls, k).trace <= RunPrefix(turn, calls, n).trace
    ensures RunPrefix(turn, calls, n).outcome.Ok? ==>
              RunPrefix(turn, calls, k).outcome.Ok? &&
              RunPrefix(turn, calls, k).outcome.value <= RunPrefix(turn, calls, n).outcome.value
    decreases n
  {
    if k < n {
      PrefixOfRun(turn, calls, k, n - 1);
    }
  }

  /**
   * A failed run of the first `n` calls failed at one call `k`: every call
   * before it succeeded, call `k` threw the run's error, and no later call
   * issued anything.
   */
  lemma {:induction false} FailureAtOneCall(turn: Turn, calls: seq<Json>, n: nat)
    requires n <= |calls|
    requires RunPrefix(turn, calls, n).outcome.Err?
    ensures exists k :: 0 <= k < n && FailsAt(turn, calls, k, n)
    decreases n
  {
    if RunPrefix(turn, calls, n - 1).outcome.Err? {
      FailureAtOneCall(turn, calls, n - 1);
      var k :| 0 <= k < n - 1 && FailsAt(turn, calls, k, n - 1);
      assert FailsAt(turn, calls, k, n);
    } else {
      assert FailsAt(turn, calls, n - 1, n);
    }
  }

  /**
   * Calls `0..k-1` ran successfully, call `k` threw, and the run of the first
   * `n` calls ends with that error and with call `k`'s operations.
   */
  ghost predicate FailsAt(turn: Turn, calls: seq<Json>, k: nat, n: nat)
    requires k < n <= |calls|
  {
    var before := RunPrefix(turn, calls, k);
    var s := turn(calls[k], before.trace);
    before.outcome.Ok? && s.outcome.Err? &&
    RunPrefix(turn, calls, n) == Run(Err(s.outcome.error), before.trace + s.ops)
  }

  /** The handler's loop issues at most one operation per call. */
  lemma {:induction false} AtMostOneOpPerCall(provider: Provider, calendarId: Option<string>, calls: seq<Json>, n: nat)
    requires n <= |calls|
    ensures |RunPrefix(Dispatch(provider, calendarId), calls, n).trace| <= n
    decreases n
  {
    if n > 0 {
      AtMostOneOpPerCall(provider, calendarId, calls, n - 1);
    }
  }

  /**
   * A successful run of the first `n` calls has one item per call, in input
   * order: item `k` echoes the id of call `k`, and is `ok: false` exactly
   * when call `k` names no known tool.
   */
  lemma {:induction false} ItemsFollowCalls(provider: Provider, calendarId: Option<string>, calls: seq<Json>, n: nat)
    requires n <= |calls|
    requires RunPrefix(Dispatch(provider, calendarId), calls, n).outcome.Ok?
    ensures var items := RunPrefix(Dispatch(provider, calendarId), calls, n).outcome.value;
            |items| == n &&
            forall k :: 0 <= k < n ==>
              items[k].toolCallId == Prop(Some(calls[k]), "id") &&
              (IsOk(items[k].result) <==> ToolOf(NameOf(calls[k])) != OtherTool)
    decreases n
  {
    if n > 0 {
      ItemsFollowCalls(provider, calendarId, calls, n - 1);
      var prev := RunPrefix(Dispatch(provider, calendarId), calls, n - 1);
      var s := CallStep(provider, calendarId, calls[n - 1], prev.trace);
      var items := RunPrefix(Dispatch(provider, calendarId), calls, n).outcome.value;
      assert items == prev.outcome.value + [s.outcome.value];
      forall k | 0 <= k < n
        ensures items[k].toolCallId == Prop(Some(calls[k]), "id")
        ensures IsOk(items[k].result) <==> ToolOf(NameOf(calls[k])) != OtherTool
      {
        if k < n - 1 {
          assert items[k] == prev.outcome.value[k];
        } else {
          assert items[k] == s.outcome.value;
        }
      }
    }
  }

  /**
   * A successful run of the first `n` calls issued exactly the intended
   * operation of each recognised, fully-argued call, in input order, and
   * nothing else.
   */
  lemma {:induction false} SuccessIssuesIntendedOps(provider: Provider, calendarId: Option<string>, calls: seq<Json>, n: nat)
    requires n <= |calls|
    requires RunPrefix(Dispatch(provider, calendarId), calls, n).outcome.Ok?
    ensures RunPrefix(Dispatch(provider, calendarId), calls, n).trace == IntendedOps(calendarId, calls, n)
    decreases n
  {
    if n > 0 {
      SuccessIssuesIntendedOps(provider, calendarId, calls, n - 1);
      var prev := RunPrefix(Dispatch(provider, calendarId), calls, n - 1);
      var s := CallStep(provider, calendarId, calls[n - 1], prev.trace);
      assert RunPrefix(Dispatch(provider, calendarId), calls, n).trace == prev.trace + s.ops;
    }
  }

  /**
   * When the first `n` calls all name unknown tools, each convertible to
   * text, they succeed with one `ok: false` item per call and contact the
   * calendar service not at all.
   */
  lemma {:induction false} UnknownToolsOnly(provider: Provider, calendarId: Option<string>, calls: seq<Json>, n: nat)
    requires n <= |calls|
    requires forall k :: 0 <= k < n ==>
               !calls[k].JNull? && ToolOf(NameOf(calls[k])) == OtherTool && NamePrintable(NameOf(calls[k]))
    ensures var r := RunPrefix(Dispatch(provider, calendarId), calls, n);
            r.trace == [] && r.outcome.Ok? && |r.outcome.value| == n &&
            forall k :: 0 <= k < n ==> r.outcome.value[k].result == UnknownTool(UnknownMessage(NameOf(calls[k])))
    decreases n
  {
    if n > 0 {
      UnknownToolsOnly(provider, calendarId, calls, n - 1);
      var prev := RunPrefix(Dispatch(provider, calendarId), calls, n - 1);
      var s := CallStep(provider, calendarId, calls[n - 1], prev.trace);
      var items := RunPrefix(Dispatch(provider, calendarId), calls, n).outcome.value;
      assert items == prev.outcome.value + [s.outcome.value];
      forall k | 0 <= k < n
        ensures items[k].result == UnknownTool(UnknownMessage(NameOf(calls[k])))
      {
        if k < n - 1 {
          assert items[k] == prev.outcome.value[k];
        } else {
          assert items[k] == s.outcome.value;
        }
      }
    }
  }

  /**
   * The `for ... of` loop of the handler over the tool calls `calls`: each
   * call's item is pushed onto `results`, and a `throw` leaves the loop with
   * the error, keeping the operations already issued.
   */
  method RunToolCalls(provider: Provider, calendarId: Option<string>, calls: seq<Json>)
    returns (outcome: Result<seq<Item>, Thrown>, trace: seq<Op>)
    ensures Run(outcome, trace) == RunCalls(provider, calendarId, calls)
  {
    trace := [];
    var results: seq<Item> := [];
    ghost var turn := Dispatch(provider, calendarId);
    var i := 0;
    while i < |calls|
      invariant i <= |calls|
      invariant RunPrefix(turn, calls, i) == Run(Ok(results), trace)
    {
      var result, ops := HandleToolCall(provider, calendarId, calls[i], trace);
      Advance(turn, calls, i, results, trace, result, ops);
      if result.Err? {
        outcome, trace := Err(result.error), trace + ops;
        return;
      }
      results, trace := results + [result.value], trace + ops;
      i := i + 1;
    }
    outcome := Ok(results);
  }

  /**
   * One turn of the loop: `toolCall` is the call, `before` the operations
   * already issued. Returns the call's item, or the error it throws, and the
   * operations it issued.
   */
  method HandleToolCall(provider: Provider, calendarId: Option<string>, toolCall: Json, before: seq<Op>)
    returns (result: Result<Item, Thrown>, ops: seq<Op>)
    ensures Step(result, ops) == CallStep(provider, calendarId, toolCall, before)
  {
    ops := [];
    if toolCall.JNull? {
      result := Err(NullToolCall);
      return;
    }
    var toolCallId := Prop(Some(toolCall), "id");
    var name := Prop(Prop(Some(toolCall), "function"), "name");
    var args := Some(OrElse(Prop(Prop(Some(toolCall), "function"), "arguments"), JObj(map[])));

    if name == Some(JStr("cancel_appointment")) {
      var eventId := Prop(args, "eventId");
      if !Truthy(eventId) {
        result := Err(CancelNeedsEventId);
        return;
      }
      var op := Delete(calendarId, eventId.value);
      var reply := provider(before, op);
      ops := [op];
      if reply.Failed? {
        result := Err(reply.error);
        return;
      }
      result := Ok(Item(toolCallId, Cancelled(eventId.value)));
      return;
    }

    if name == Some(JStr("reschedule_appointment")) {
      var eventId, start, end := Prop(args, "eventId"), Prop(args, "start"), Prop(args, "end");
      if !Truthy(eventId) || !Truthy(start) || !Truthy(end) {
        result := Err(RescheduleNeedsArgs);
        return;
      }
      var op := Patch(calendarId, eventId.value, start.value, end.value);
      var reply := provider(before, op);
      ops := [op];
      if reply.Failed? {
        result := Err(reply.error);
        return;
      }
      result := Ok(Item(toolCallId, Rescheduled(eventId.value, reply.htmlLink)));
      return;
    }

    if name.Some? && !Printable(name.value) {
      result := Err(NoPrimitive);
      return;
    }
    result := Ok(Item(toolCallId, UnknownTool(UnknownMessage(name))));
  }
}
