/** How a handler ends: the response it writes (an `AppResult` error envelope
    or a JSON success body), a hand-off to the service or to `next()`, or an
    exception nothing catches; together with the service calls it made.
 */
module Http {
  import opened JsValues
  import opened Services

  /** The `AppErrorsMessages` constants the handlers use. */
  datatype ErrorMessage =
    | UserIdOrEmailRequired
    | NotAuthorized
    | TokenFromAnotherUser
    | UserNotFound
    | UserIdMissing
    | UserInvalid
    | UserCreating
    | UserUpdating
    | InvalidRequest
    | InternalError
    | MissingProps
    | ErrorCreateTestimonial
    | NoRecaptchaProvided
    | RecaptchaNotValidated

  /** The `error` field of an envelope: `null`, an exception message, another
      message constant, or the provider's error codes. */
  datatype Detail =
    | NoDetail
    | Reason(text: string)
    | Named(name: ErrorMessage)
    | Codes(codes: ErrorCodes)

  datatype Body =
    | Envelope(message: ErrorMessage, error: Detail, statusCode: int)
    | Exists(found: bool)
    | UserDoc(user: User)
    | Plan(plan: JsValue)
    | Doc(doc: Document)
    | Docs(docs: seq<Document>)
    | Validated

  /** Why a handler's promise rejects without a response being written. */
  datatype Cause = NullResult | Rejected(message: string)

  datatype Exit =
    | Send(status: int, body: Body)
    | Delegated
    | Next
    | Unhandled(cause: Cause)

  datatype Handled = Handled(exit: Exit, calls: seq<Call>)

  /** The identity claims the token middleware attaches to the request. */
  datatype Claims = Claims(email: JsValue, uid: JsValue)

  function Fail(status: int, message: ErrorMessage, detail: Detail): Exit {
    Send(status, Envelope(message, detail, status))
  }

  function Ok(body: Body): Exit {
    Send(200, body)
  }

  /** Every written response is 200 with a plain body, or one of the error
      statuses with an envelope whose `statusCode` repeats the HTTP status. */
  predicate WellFormed(e: Exit) {
    e.Send? ==>
      if e.body.Envelope? then
        e.status in {400, 401, 500} && e.body.statusCode == e.status
      else
        e.status == 200
  }

  /** A handler that answers on its own (no `next()`, no hand-off, no
      rejection) with a well-formed response. */
  predicate Responds(e: Exit) {
    e.Send? && WellFormed(e)
  }

  /** The tail shared by the handlers: a truthy result is sent with 200, a
      falsy one gives 400 with `onEmpty`, a rejection gives 500 with its message. */
  function Settle<T(!new)>(o: Outcome<T>, wrap: T -> Body, onEmpty: ErrorMessage): (e: Exit)
    requires forall t :: !wrap(t).Envelope?
    ensures Responds(e)
    ensures e.status == 200 <==> o.Found?
    ensures o.Found? ==> e.body == wrap(o.value)
    ensures o.Empty? ==> e == Fail(400, onEmpty, NoDetail)
    ensures o.Threw? ==> e == Fail(500, InternalError, Reason(o.message))
  {
    match o
    case Found(v) => Ok(wrap(v))
    case Empty => Fail(400, onEmpty, NoDetail)
    case Threw(m) => Fail(500, InternalError, Reason(m))
  }
}
