/** The error-handling middleware: after the downstream middleware has run,
    a set `lastError` replaces the response body, through a formatter when
    one is configured and with the error's message otherwise. */
module ErrorHandler {
  import opened Wrappers
  import opened Values
  import opened Messages

  /** `ErrorFormatter`: any function of the error. */
  type Formatter = Thrown -> Body

  /** `ctx.state.lastError.message` as a body: `undefined` unless the thrown
      value is an `Error`. */
  function MessageBody(t: Thrown): (b: Body)
    ensures t.ThrownError? ==> b == Text(t.message)
    ensures !t.ThrownError? ==> b == NoBody
  {
    match MessageOf(t)
    case Some(m) => Text(m)
    case None => NoBody
  }

  /** The rewrite the handler applies once `next()` has returned. */
  function AfterNext(resp: Response, lastError: Option<Thrown>, formatter: Option<Formatter>): (r: Response)
    ensures r.status == resp.status
    ensures !ErrorSet(lastError) ==> r == resp
    ensures ErrorSet(lastError) && formatter.Some? ==> r.body == formatter.value(lastError.value)
    ensures ErrorSet(lastError) && formatter.None? ==> r.body == MessageBody(lastError.value)
  {
    if !ErrorSet(lastError) then resp
    else if formatter.Some? then resp.(body := formatter.value(lastError.value))
    else resp.(body := MessageBody(lastError.value))
  }

  /** Running the handler a second time changes nothing more. */
  lemma AfterNextIdempotent(resp: Response, lastError: Option<Thrown>, formatter: Option<Formatter>)
    ensures AfterNext(AfterNext(resp, lastError, formatter), lastError, formatter) == AfterNext(resp, lastError, formatter)
  {
  }
}
