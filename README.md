# vapi-medical-webhook, modelled in Dafny

This project models the one piece of logic in the webhook adapter: the
`POST /vapi/tools` handler in `index.js`. The handler receives tool calls
from the Vapi voice-assistant platform and turns `cancel_appointment` and
`reschedule_appointment` calls into Google Calendar `events.delete` and
`events.patch` requests. The model covers:

- the shared-secret check `assertAuth` (module `Auth`);
- the envelope check, the `for ... of` loop over `toolCallList` with its
  `results.push` / `continue` / `throw`, and the `catch` block that maps a
  thrown error to a status and body (modules `Tools` and `Webhook`).

Request values are JSON values (`JsValue.Json`). JavaScript `undefined` is
`None`. `JsValue.Truthy` is JavaScript truthiness, so `!eventId` and
`x || []` are modelled exactly for every JSON value, not only for strings.
The environment (`VAPI_SHARED_SECRET`, `GOOGLE_CALENDAR_ID`) is an explicit
`Webhook.Config`. The calendar client is an oracle, `Calendar.Provider`. It
maps each operation, together with the operations issued before it in the
same request, to `Done(htmlLink)` or `Failed(error)`.

`Webhook.Handle` is the handler as an imperative method. It checks the
secret and the envelope, and hands the list to `Tools.RunToolCalls`, the
`for ... of` loop with its `results` sequence and an early return for every
`throw`. Each turn of that loop is `Tools.HandleToolCall`. `Handle` returns
the response and the trace of calendar operations it issued. Its
postcondition equates both with `Webhook.Respond`, a functional definition.
`Respond` is built from `Tools.CallStep`, which is one tool call, and
`Tools.RunPrefix`, which is the loop after its first `n` calls. `RunPrefix`
takes the turn as a parameter, so the lemmas about aborting and about
prefixes hold for any turn. `Tools.Dispatch` is the handler's own turn,
`CallStep`. The lemmas about these functions state what the handler
promises.

What the code does, and the model with it, in the less obvious cases:

- The error body is `e.message || "Server error"`, and the status is
  `e.statusCode || 500`.
- A missing argument or a calendar error aborts the whole batch. The
  response then carries no per-item results (`Tools.FailureAtOneCall`,
  `Webhook.BatchFailureIsFatal`).
- Results come back in input order (`Tools.PrefixOfRun`,
  `Tools.ItemsFollowCalls`).
- A falsy `toolCallList` is an empty batch. A string is iterated character
  by character. Any other truthy non-array value (`true`, a non-zero number,
  an object) throws a TypeError, which produces a 500 (`Webhook.Respond`).
- A `null` element of `toolCallList` throws a TypeError at `toolCall.id`,
  which produces a 500 (`Tools.CallStep`, `Webhook.NullToolCallFails`).
- Writing an unknown tool's name into `Unknown tool function: ${name}`
  throws when the name is an object with its own `toString` key, or an
  array holding one. The batch then ends with a 500
  (`Webhook.ObjectNameWithToStringFails`).

## Model

| member | source | states |
|---|---|---|
| `Auth.AssertAuth` | index.js:29-41 | passes exactly when no secret is configured, the secret is empty, or the `x-vapi-secret` header equals it; otherwise throws `Unauthorized` with status 401 |
| `JsValue.Prop` | index.js:57 | for the keys the handler reads, `v?.key` yields a value only for an object that has the key, and then yields that field |
| `JsValue.OrElse` | index.js:62 | `x || d` is `x` when truthy and `d` otherwise |
| `JsValue.Digits` | index.js:121 | a number inside `${name}` is written as a non-empty decimal numeral, with no leading zero, that denotes the number |
| `Tools.CallStep` | index.js:69-122 | a `null` call throws the TypeError of `null.id` and issues nothing; one tool call issues at most one operation, and only its intended delete/patch with `eventId`/`start`/`end` passed through unchanged; a missing argument throws the fixed validation error before any operation; an unknown name yields `ok: false` "Unknown tool function: <name>" and issues nothing, unless the name cannot be converted to text, in which case it throws; an operation's failure is rethrown; on success the item echoes the call's `id` and the reply's `htmlLink` |
| `Tools.HandleToolCall` | index.js:69-122 | the imperative loop body returns exactly `CallStep`'s item or error and operations, for every call and every provider |
| `Tools.Extend` | index.js:68-123 | after a thrown error, a further call changes nothing; otherwise it appends its turn's operations to the trace, and the batch stays successful exactly when the turn did, with the turn's item appended |
| `Tools.RunPrefix` | index.js:66-123 | a successful run of the first `n` calls has exactly `n` items |
| `Tools.RunToolCalls` | index.js:66-123 | the imperative loop returns exactly `RunCalls`'s outcome and trace: one `results` entry per call until the first throw, which leaves the loop with that error |
| `Tools.Advance` | index.js:68-128 | after a successful prefix, a call that yields an item extends the items and the trace by that item and its operations; a call that throws ends the whole batch with its error, and the trace ends with that call's operations |
| `Tools.AtMostOneOpPerCall` | index.js:73-116 | the handler's loop issues at most one calendar operation per call |
| `Tools.AbortStopsBatch` | index.js:126-128 | once a prefix of the batch has thrown, the remaining calls issue nothing and change nothing |
| `Tools.PrefixOfRun` | index.js:80-122 | items and operations are only appended: those of any prefix of the list are a prefix of the whole batch's |
| `Tools.ItemsFollowCalls` | index.js:68-123 | a successful batch has one item per call in input order; item `k` echoes call `k`'s id and is `ok: false` exactly when call `k` names no known tool |
| `Tools.SuccessIssuesIntendedOps` | index.js:73-116 | a successful batch issued exactly the intended operation of each recognised, fully-argued call, in order, and nothing else |
| `Tools.UnknownToolsOnly` | index.js:118-122 | a batch of only unknown tools whose names convert to text succeeds with one `ok: false` item per call and never contacts the calendar |
| `Tools.FailureAtOneCall` | index.js:68-128 | a failed batch failed at a single call: all earlier calls succeeded, that call threw the batch's error, and nothing after it was issued |
| `Webhook.ErrorResponse` | index.js:126-128 | the status is `statusCode`, or 500 if it is absent or zero; the body is the error's message, or "Server error" if the message is empty |
| `Webhook.ToolCallList` | index.js:62-68 | a falsy list is empty, an array yields its elements, a string yields `Characters` of it, and any other value throws the not-iterable TypeError |
| `Webhook.Characters` | index.js:68 | `for ... of` over a string visits one item per character |
| `Webhook.CharactersAt` | index.js:68 | item `i` of a string's iteration is the one-character string of character `i` |
| `Webhook.Respond` | index.js:53-130 | a secret mismatch gives 401 "Unauthorized" with no calendar call, whatever the body; an authorised request with a bad envelope gives 400 "Invalid payload: expected tool-calls" with no calendar call; a missing list gives 200 with no results; a truthy list that is neither an array nor a string gives 500 "toolCallList is not iterable" with no calendar call; the calendar is contacted only for authorised, well-formed requests; results are sent only with status 200 |
| `Webhook.Handle` | index.js:53-130 | the imperative handler, which runs its loop through `RunToolCalls`, gives the same response and operation trace as `Respond` for every input |
| `Webhook.SuccessfulResponse` | index.js:62-125 | a 200 response with results answers an authorised, well-formed request, with one item per call in order, each echoing its call's id, and a trace of exactly the intended operations |
| `Webhook.BatchFailureIsFatal` | index.js:68-128 | if call `k` throws, the response is that error's status and message with no results, and nothing after call `k` is issued |
| `Webhook.CancelExample` | index.js:73-85 | a single `cancel_appointment` for `evt123` with id `a1` gives one `cancelled` item echoing `a1`, and exactly one delete |
| `Webhook.ObjectNameWithToStringFails` | index.js:118-128 | a call whose name is an object with its own `toString` key makes the request fail with 500 "Cannot convert object to primitive value", not an `ok: false` item |
| `Webhook.NullToolCallFails` | index.js:68-69 | a `toolCallList` of `[null]` makes the request fail with 500 "Cannot read properties of null (reading 'id')" and no calendar call |
| `Webhook.SecondOfThreeFails` | index.js:68-128 | in a three-call batch whose second call fails, the response is a single error, and the third call is never issued |

## Left out

- Express setup, JSON body parsing, the `GET /` health route and `app.listen`.
  These are HTTP plumbing. The model starts from the parsed body and the
  header value.
- `getCalendarClient` and OAuth2 credentials. These are calls into
  `googleapis`. The client is the `Calendar.Provider` oracle. The model
  assumes building the client never throws.
- The calendar service's own behaviour and whether RFC 3339 timestamps are
  valid. The handler never interprets either.
- `async`/`await` and concurrent requests. Each remote call is a synchronous
  oracle lookup.
- JSON numbers are exact integers in the model. `JSON.parse` stores every
  number as a double, and three consequences of that are not modelled:
  fractional numbers; integers beyond 2^53, which it rounds to the nearest
  double (`9007199254740993` becomes `9007199254740992`); and the exponent
  form JavaScript uses when printing magnitudes of 10^21 or more. For such a
  number the model's "Unknown tool function: ..." text differs from the
  source's (index.js:121), and so does the `eventId` of a delete or patch
  (index.js:78, 100).
- The TypeError messages for a null tool call, for a non-iterable
  `toolCallList` and for a name that cannot be converted to text are the
  texts the V8 engine uses. Other engines word them differently.
- Property access is modelled only for the keys the handler reads. None of
  them is defined by a prototype. Keys such as a string's `length` are not
  modelled.
- Validation of the status code by the HTTP layer. For example, `res.status`
  rejects a provider `statusCode` outside 100-999. The model returns the
  number as it is.
- `process.env` reads are replaced by `Webhook.Config`.
