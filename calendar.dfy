/**
 * The calendar service as the handler sees it: the two remote operations it
 * issues, the errors they may throw, and an oracle standing for the service.
 */
module Calendar {
  import opened Wrappers
  import opened JsValue

  /**
   * A remote operation. `calendarId` is the configured calendar (possibly
   * `undefined`); `eventId`, `start` and `end` are passed on exactly as they
   * arrived in the tool call's arguments.
   */
  datatype Op =
    | Delete(calendarId: Option<string>, eventId: Json)
    | Patch(calendarId: Option<string>, eventId: Json, start: Json, end: Json)

  /**
   * The service's answer to one operation: success, with the `htmlLink` of the
   * reply's `data` (which the service may leave out), or a thrown error.
   */
  datatype Reply = Done(htmlLink: Value) | Failed(error: Thrown)

  /**
   * The service as an oracle: the reply to an operation, given every
   * operation issued before it in the same request.
   */
  type Provider = (seq<Op>, Op) -> Reply
}
