/** The reCAPTCHA gate in front of the contact route: the token comes from
    the `recaptcha-token` header, a good token calls `next()`, and nothing
    guards the verification call, so a null result or a rejection escapes
    the handler without a response.
 */
module RecaptchaMiddleware {
  import opened JsValues
  import opened Services
  import opened Http
  import RecaptchaController

  /** The middleware `verifyRecaptcha`. */
  function Gate(svc: RecaptchaService, headerToken: JsValue): (r: Handled)
    ensures NoWrites(r.calls)
    ensures r.exit.Send? ==> WellFormed(r.exit) && r.exit.status == 401
    ensures !Truthy(headerToken) ==> r == Handled(Fail(401, NoRecaptchaProvided, NoDetail), [])
    ensures Truthy(headerToken) ==> r.calls == [SiteVerify(headerToken)]
    ensures r.exit.Next? <==>
      Truthy(headerToken) && svc.verify(headerToken).Found? && svc.verify(headerToken).value.success
    ensures Truthy(headerToken) && svc.verify(headerToken).Found? && !svc.verify(headerToken).value.success ==>
      r.exit == Fail(401, RecaptchaNotValidated, Codes(svc.verify(headerToken).value.errorCodes))
    ensures r.exit.Unhandled? <==> Truthy(headerToken) && !svc.verify(headerToken).Found?
    ensures Truthy(headerToken) && svc.verify(headerToken).Empty? ==> r.exit == Unhandled(NullResult)
    ensures Truthy(headerToken) && svc.verify(headerToken).Threw? ==>
      r.exit == Unhandled(Rejected(svc.verify(headerToken).message))
  {
    if !Truthy(headerToken) then
      Handled(Fail(401, NoRecaptchaProvided, NoDetail), [])
    else
      var exit :=
        match svc.verify(headerToken)
        case Threw(m) => Unhandled(Rejected(m))
        case Empty => Unhandled(NullResult)
        case Found(v) =>
          if !v.success then Fail(401, RecaptchaNotValidated, Codes(v.errorCodes))
          else Next;
      Handled(exit, [SiteVerify(headerToken)])
  }

  /** The gate and the endpoint agree on everything but where the token comes
      from and what a null result or a rejection does: the same calls, the
      same 401s, `next()` exactly where the endpoint answers 200, and an
      escaped failure exactly where the endpoint answers 500. */
  lemma GateAgreesWithEndpoint(svc: RecaptchaService, token: JsValue)
    ensures Gate(svc, token).calls == RecaptchaController.VerifyRecaptcha(svc, token).calls
    ensures Gate(svc, token).exit.Next? <==>
      RecaptchaController.VerifyRecaptcha(svc, token).exit.status == 200
    ensures RecaptchaController.VerifyRecaptcha(svc, token).exit.status == 401 ==>
      Gate(svc, token).exit == RecaptchaController.VerifyRecaptcha(svc, token).exit
    ensures Gate(svc, token).exit.Unhandled? <==>
      RecaptchaController.VerifyRecaptcha(svc, token).exit.status == 500
  {
  }
}
