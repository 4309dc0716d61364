# Request guards of the socialbio API

This project models the request-guard layer of a "link-in-bio" backend.
That layer sits in front of the user, testimonial and reCAPTCHA services:

- the ownership predicate `isUserAuthorized`;
- the user handlers `doesUserExist`, `getUser`, `getUserPlan`, `createUser`, `updateUser` and `deleteUser`;
- the testimonial handlers `createTestimonial`, `getUserTestimonials` and `getUserLastTestimonial`;
- the stand-alone reCAPTCHA endpoint, which reads the token from the body;
- the reCAPTCHA middleware in front of `POST /contact`, which reads the token from the `recaptcha-token` header.

Each handler is a pure function. Its inputs are the request fields, the
identity claims the token middleware attached, and a bundle of service
functions. Each service function says what the awaited call would settle
to: a truthy value (`Found`), `null` or `undefined` (`Empty`) or a
rejection (`Threw`). The result is a `Handled` value. It holds how the handler ended
(`Send(status, body)`, `Delegated`, `Next` or `Unhandled(cause)`) and the
service calls it made, in order, with their arguments. The call list is
what lets the contracts say "no write happens when the guard rejects" and
"the email lookup happens only after an empty id lookup".

Request fields are JavaScript scalars (`JsValues.JsValue`), so truthiness is
modelled as the handlers use it. So are `v && v.length > 0`, `!v || v.length < 1`
and `String(v)`. A numeric `rating` of `0` is falsy. A numeric `userId`
passes the presence check of `createTestimonial` but has no `length`.

Modules follow the source files: `JsValues`, `Services` and `Http` hold the
shared data, `UserController`, `TestimonialsController`,
`RecaptchaController` and `RecaptchaMiddleware` hold one source file each,
and `Routing` models Express's `next()` chaining: how a route's middleware
hands the request on to the route's handler. That chaining is Express's own
behaviour, not code of this repository; the only route modelled through it is
`POST /contact` (src/routes/index.ts:66).

Behaviours of the code that the model keeps as written:

- `getUser` reads the caller's email for both claims and passes no `authId` (src/controllers/user.controller.ts:102-105), so its own ownership check can never refuse and it can never answer 401 (`UserController.GetUser` ensures `status != 401`). The route puts it behind the token middleware only (src/routes/index.ts:26): any signed-in caller may read any user.
- The id lookup of `doesUserExist` and `getUser` is handed the `email` query value, not `userId` (src/controllers/user.controller.ts:54 and :130). With only a `userId` given it is handed `undefined`. `getUserPlan` hands it the id (:187); `UserController.PlanAndGetUserLookups` states the difference.
- `isUserAuthorized` also lets the request through when the caller's email claim is missing (src/controllers/user.controller.ts:411), not only when the target id or the caller's uid is missing.
- `createUser` and `updateUser` authorize before they validate. `deleteUser` validates presence first.
- The two testimonial getters answer a falsy result with the create-error message. An empty list is truthy and is sent with 200.
- The middleware has no null check and no `try`. A null verification result or a rejected verification ends as `Unhandled`: the middleware writes no response, and under Express 4, which does not catch a rejected promise of a middleware, nothing else does either. The rejection is then unhandled at the process level, and from Node 15 on that ends the whole server process by default, not only the request. The endpoint answers 500 in both cases.

## Model

| member | source | states |
|---|---|---|
| `UserController.FailOpen` | src/controllers/user.controller.ts:411-414 | any missing identity value lets the request through |
| `UserController.OwnerOnly` | src/controllers/user.controller.ts:411 | with all three identities non-empty strings, allowed iff the target `authId` equals the caller uid |
| `UserController.NumericAuthId` | src/controllers/user.controller.ts:411 | for a caller with an email claim, a positive numeric `authId` matches a uid iff the uid is its decimal rendering; a matching uid is a run of digits without a leading `0` that denotes the number |
| `UserController.CanonicalUidMatches` | src/controllers/user.controller.ts:411 | for a caller with an email claim, every run of digits without a leading `0` that denotes a positive numeric `authId` is a uid that matches it |
| `UserController.LeadingZeroUidNeverMatches` | src/controllers/user.controller.ts:411 | for a caller with an email claim, a uid of two or more characters starting with `0` is refused for every positive numeric `authId`, even one it denotes |
| `UserController.NegativeNumericAuthId` | src/controllers/user.controller.ts:411 | for a caller with an email claim, a negative numeric `authId` matches a uid iff the uid is `-` followed by the decimal rendering of its magnitude |
| `UserController.ZeroAuthIdLetsAnyoneThrough` | src/controllers/user.controller.ts:411 | a numeric `authId` of `0` is falsy, so every caller is allowed |
| `UserController.NonDigitUidNeverMatches` | src/controllers/user.controller.ts:411 | a caller with an email claim whose uid holds a non-digit is refused for any positive numeric `authId` |
| `UserController.FindUser` | src/controllers/user.controller.ts:51-59 | only the id lookup (given the email value) and the email lookup are made; the id lookup iff `userId` has a length; the email lookup iff `email` has a length and the id lookup was skipped or empty; id before email; the result is the last call's answer, or empty when no call was made |
| `UserController.DoesUserExist` | src/controllers/user.controller.ts:39-67 | 400 `USERID_OR_EMAIL_REQUIRED` with no call when both identifiers are falsy; otherwise the lookup's calls, 200 with whether it found a user, or 500 with the rejection message; never a write |
| `UserController.GetUser` | src/controllers/user.controller.ts:100-148 | never 401; 400 `USERID_OR_EMAIL_REQUIRED` with no call without identifiers; otherwise the lookup's calls and 200 with the found user, 400 `USER_NOT_FOUND` on a miss, 500 on a rejection |
| `UserController.GetUserIgnoresTokenUid` | src/controllers/user.controller.ts:102-105 | the answer of `getUser` does not depend on the caller's uid claim |
| `UserController.ExistsAgreesWithGetUser` | src/controllers/user.controller.ts:129-142 | `doesUserExist` and `getUser` make the same calls; the flag is true iff `getUser` sends 200, false iff it sends `USER_NOT_FOUND` |
| `UserController.PlanAndGetUserLookups` | src/controllers/user.controller.ts:129-187 | given only a non-empty id, `getUserPlan` looks up that id and answers 200 iff it is found, while `getUser` looks up `undefined` and answers 200 iff that is found, with that user |
| `UserController.GetUserPlan` | src/controllers/user.controller.ts:175-201 | 400 `USER_ID_MISSING` with no call on a falsy id; one id lookup with that id; 200 with the user's `plan`, 400 `USER_NOT_FOUND` on a miss, 500 on a rejection |
| `UserController.WithDefaultPlan` | src/controllers/user.controller.ts:264-267 | the stored user has the default plan and equals the body in every other field |
| `UserController.CreateUser` | src/controllers/user.controller.ts:228-282 | 401 with no call when the guard rejects, whatever the fields; 400 `USER_INVALID` with no call when authorized but email, first name or last name is falsy; otherwise exactly one create call with the body whose plan alone is replaced, then 200 with the created user, 400 `USER_CREATING` or 500 |
| `UserController.CreateUserAuthorizesFirst` | src/controllers/user.controller.ts:232-261 | for a rejected caller, bodies with the same `authId` get the same answer |
| `UserController.UpdateUser` | src/controllers/user.controller.ts:309-345 | 401 with no call when the guard rejects; otherwise one update call with the body unchanged, then 200, 400 `USER_UPDATING` or 500 |
| `UserController.DeleteUser` | src/controllers/user.controller.ts:377-403 | 400 `INVALID_REQUEST` with no call on a falsy `userId` or `authId`, before authorization; 401 with no call when the guard rejects; the delete call is made iff both are present and the caller is authorized; a completed delete is delegated, a rejected one gives 500 |
| `UserController.NoWriteWhenUnauthorized` | src/controllers/user.controller.ts:232-242 | create (:232-242), update (:313-322) and delete (:389-395) make no write call for a caller the guard rejects |
| `TestimonialsController.CreateTestimonial` | src/controllers/testimonials.controller.ts:48-81 | 400 `MISSING_PROPS` with no call when any of the four fields is falsy; the create call is made iff all are truthy and `userId` is a non-empty string, with exactly the four fields; a numeric `userId` gives 400 `ERROR_CREATE_TESTIMONIAL` with no call; 200 with the record, 400 `ERROR_CREATE_TESTIMONIAL` or 500 |
| `TestimonialsController.CreatedTestimonialIsReadable` | src/controllers/testimonials.controller.ts:48-60 | a `userId` under which a testimonial is created is read by both getters with that id; a missing `userId` is refused by create and the list getter with the same 400 `MISSING_PROPS` |
| `TestimonialsController.ZeroRatingIsMissing` | src/controllers/testimonials.controller.ts:50-54 | a rating of 0 is answered 400 `MISSING_PROPS` with no call |
| `TestimonialsController.GetUserTestimonials` | src/controllers/testimonials.controller.ts:107-133 | 400 `MISSING_PROPS` with no call on a falsy id; one list call with that id; 200 with the list, 400 `ERROR_CREATE_TESTIMONIAL` on a falsy result, 500 on a rejection |
| `TestimonialsController.EmptyListIsFound` | src/controllers/testimonials.controller.ts:120-127 | an empty list is sent with 200 |
| `TestimonialsController.GetUserLastTestimonial` | src/controllers/testimonials.controller.ts:159-185 | 400 `MISSING_PROPS` with no call on a falsy id; one call with that id; 200 with the record, 400 `ERROR_CREATE_TESTIMONIAL` on a falsy result, 500 on a rejection |
| `TestimonialsController.TestimonialGettersAgree` | src/controllers/testimonials.controller.ts:107-185 | the two getters validate alike and read once each with the same `userId`; their statuses agree when the two lookups settle the same way; both misses give the same response |
| `RecaptchaController.VerifyRecaptcha` | src/controllers/recaptcha.controller.ts:29-67 | always exactly one well-formed response; 401 `NO_RECAPTCHA_PROVIDED` with no verifier call without a token; 200 `RECAPTCHA_VALIDATED` iff the token is present and the result is successful; 401 `RECAPTCHA_NOT_VALIDATED` with the error codes on failure; 500 with null detail on a null result; 500 with the message on a rejection |
| `RecaptchaMiddleware.Gate` | src/middlewares/recaptcha.middleware.ts:12-35 | 401 `NO_RECAPTCHA_PROVIDED` with no verifier call and no `next()` without a header token; `next()` iff the token is present and the result is successful; 401 `RECAPTCHA_NOT_VALIDATED` with the error codes on failure; an escaped failure iff the result is null or the call rejects; never any other status |
| `RecaptchaMiddleware.GateAgreesWithEndpoint` | src/middlewares/recaptcha.middleware.ts:20-34 | for the same token the gate and the endpoint make the same calls and the same 401s; `next()` iff the endpoint answers 200; an escaped failure iff it answers 500 |
| `Routing.Dispatch` | src/routes/index.ts:66 | the handler's exit is the route's when every middleware calls `next()`; otherwise the exit of some middleware that did not call `next()` |
| `Routing.DispatchReachesHandler` | src/routes/index.ts:66 | when every middleware calls `next()`, the route runs their calls, then the handler's, and ends as the handler does |
| `Routing.DispatchStopsAtFirstRefusal` | src/routes/index.ts:66 | the first middleware that does not call `next()` ends the request; nothing after it runs |
| `Routing.Contact` | src/routes/index.ts:66 | the contact handler runs, after the one verifier call, exactly when the gate calls `next()`; otherwise the gate's answer is the route's; without a header token it is 401 with no call at all |
| `JsValues.Blank` | src/controllers/user.controller.ts:250-257 | `!v \|\| v.length < 1` holds exactly of falsy values |
| `JsValues.HasLength` | src/controllers/user.controller.ts:53 | `v && v.length > 0` holds exactly of non-empty strings |
| `JsValues.Truthy` | src/controllers/testimonials.controller.ts:50 | `!v` holds exactly of `undefined`, `null`, `""`, `0` and `false` |
| `JsValues.Decimal` | src/controllers/user.controller.ts:411 | `String(n)` of a natural number is a run of digits whose decimal value is `n`, with no leading `0` unless `n` is 0 |
| `JsValues.DecimalUnique` | src/controllers/user.controller.ts:411 | every run of digits without a leading `0` is `String` of the number it denotes, so the rendering is the only one |
| `JsValues.JsString` | src/controllers/user.controller.ts:411 | `String(v)` is the string itself for a string, the decimal digits of a non-negative number, and `-` followed by the digits of its magnitude for a negative one, never with a leading `0` for a non-zero number |
| `Http.Settle` | src/controllers/user.controller.ts:268-281 | a truthy service result is sent with 200, a falsy one gives 400 with the handler's message, a rejection gives 500 with its message, each in a well-formed envelope |

## Left out

- The user, testimonial and reCAPTCHA services, the database, Firebase and the Google verification endpoint are not part of this model. They enter only as functions from a call's arguments to its settled outcome.
- Async/await and the Express `req`/`res` objects. Each handler is a function returning its exit and call list.
- The `log.error` calls and the logging module, which only write to the console.
- `UserController.DeleteUser`: once authorized, the service writes the response itself. The model records the hand-off as `Delegated` and does not say what status the service sends; the handler's documentation comment promises 204, which the handler itself never sends.
- The `USER_REQUIRED` branches of `createUser` and `updateUser` (src/controllers/user.controller.ts:244-248 and 324-328) are not modelled. Both handlers read `user.authId` (:235 and :316) before they test `!user` (:244 and :324), so a missing body already throws there and the branch can never be taken.
- `DEFAULT_USER_PLAN` is a parameter of `UserController.CreateUser`; reading the environment is left out.
- Object- and array-valued request fields are left out, and so are query values repeated into arrays. JSON numbers are integers within `Number.MAX_SAFE_INTEGER`: fractions, `NaN`, larger magnitudes and the exponent notation `String(v)` uses from 10^21 on are left out.
- Service results that are falsy but neither `null` nor `undefined` (`false`, `0`, `""`) are left out. The handlers treat them like `null`, but the reCAPTCHA middleware reads `.success` of them without throwing (src/middlewares/recaptcha.middleware.ts:24) and would answer 401 `RECAPTCHA_NOT_VALIDATED` with no codes, not an escaped failure.
- A thrown value without a `message` is left out: every rejection carries a message string.
- The contact handler behind the reCAPTCHA gate and the token-verifying middleware in front of the private routes are not part of this model. The contact handler enters `Routing.Contact` as the result it would produce.
- What Express does with a handler's unhandled rejection is left out: the model stops at `Unhandled(cause)`.
- The route table other than `POST /contact`, the server bootstrap and its CORS origin check, the API documentation generator and the database connection. src/routes/index.ts wires none of `getUserPlan`, `deleteUser` and the three testimonial handlers; they are modelled as handlers all the same.
