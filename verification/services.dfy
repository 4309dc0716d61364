/** The data the controllers exchange with the user, testimonial and reCAPTCHA
    services, the services themselves as bundles of pure functions (what each
    service call would return), and the record of the calls a handler makes.
 */
module Services {
  import opened JsValues

  /** What an awaited service call settles to: a truthy value, a falsy one
      (`null` or `undefined`), or a rejection carrying `e.message`. */
  datatype Outcome<T> = Found(value: T) | Empty | Threw(message: string)

  /** The settled delete call, which writes the response itself. */
  datatype Completion = Completed | Raised(message: string)

  /** The body properties the handlers read or set by name. */
  const NamedKeys: set<string> := {"authId", "email", "firstName", "lastName", "plan"}

  /** The remaining properties of a body: none of them is a named one, so a
      body has exactly one description. */
  type OtherProps = m: map<string, JsValue> | m.Keys !! NamedKeys witness map[]

  /** A user document as sent in a request body. `rest` holds every other
      property of the body, which the object spread in `createUser` keeps. */
  datatype User = User(
    authId: JsValue,
    email: JsValue,
    firstName: JsValue,
    lastName: JsValue,
    plan: JsValue,
    rest: OtherProps)

  /** A stored document the controllers only pass through. */
  datatype Document = Document(fields: map<string, JsValue>)

  /** The object handed to the testimonial create service. */
  datatype TestimonialInput = TestimonialInput(
    userId: JsValue,
    testimonial: JsValue,
    pictureUrl: JsValue,
    rating: JsValue)

  /** The `error-codes` property of a verification result, which may be missing. */
  datatype ErrorCodes = NoCodes | CodeList(codes: seq<string>)

  /** The reCAPTCHA verification result. */
  datatype Verification = Verification(success: bool, errorCodes: ErrorCodes)

  /** One service call, with the arguments it was given. */
  datatype Call =
    | FindUserById(arg: JsValue)
    | FindUserByEmail(email: JsValue)
    | InsertUser(user: User)
    | ModifyUser(user: User)
    | RemoveUser(userId: JsValue, authId: JsValue)
    | InsertTestimonial(input: TestimonialInput)
    | ListTestimonials(userId: JsValue)
    | LatestTestimonial(userId: JsValue)
    | SiteVerify(token: JsValue)

  /** Calls that change the store. */
  predicate IsWrite(c: Call) {
    c.InsertUser? || c.ModifyUser? || c.RemoveUser? || c.InsertTestimonial?
  }

  predicate NoWrites(calls: seq<Call>) {
    forall i :: 0 <= i < |calls| ==> !IsWrite(calls[i])
  }

  datatype UserService = UserService(
    byId: JsValue -> Outcome<User>,
    byEmail: JsValue -> Outcome<User>,
    create: User -> Outcome<User>,
    update: User -> Outcome<User>,
    delete: (JsValue, JsValue) -> Completion)

  datatype TestimonialService = TestimonialService(
    create: TestimonialInput -> Outcome<Document>,
    all: JsValue -> Outcome<seq<Document>>,
    last: JsValue -> Outcome<Document>)

  datatype RecaptchaService = RecaptchaService(
    verify: JsValue -> Outcome<Verification>)
}
