/** The stand-alone reCAPTCHA endpoint: the token comes from the request
    body, and every outcome of the verification, including a null result and
    a rejection, is answered with a response.
 */
module RecaptchaController {
  import opened JsValues
  import opened Services
  import opened Http

  /** `verifyRecaptcha`: 401 `NO_RECAPTCHA_PROVIDED` without a token and no
      verifier call; otherwise one verifier call, whose rejection or null
      result gives 500, whose unsuccessful result gives 401 with the
      provider's error codes, and whose success gives 200. */
  function VerifyRecaptcha(svc: RecaptchaService, token: JsValue): (r: Handled)
    ensures Responds(r.exit)
    ensures NoWrites(r.calls)
    ensures !Truthy(token) ==> r == Handled(Fail(401, NoRecaptchaProvided, NoDetail), [])
    ensures Truthy(token) ==> r.calls == [SiteVerify(token)]
    ensures r.exit == Ok(Validated) <==>
      Truthy(token) && svc.verify(token).Found? && svc.verify(token).value.success
    ensures Truthy(token) && svc.verify(token).Found? && !svc.verify(token).value.success ==>
      r.exit == Fail(401, RecaptchaNotValidated, Codes(svc.verify(token).value.errorCodes))
    ensures Truthy(token) && svc.verify(token).Empty? ==>
      r.exit == Fail(500, InternalError, NoDetail)
    ensures Truthy(token) && svc.verify(token).Threw? ==>
      r.exit == Fail(500, InternalError, Reason(svc.verify(token).message))
  {
    if !Truthy(token) then
      Handled(Fail(401, NoRecaptchaProvided, NoDetail), [])
    else
      var exit :=
        match svc.verify(token)
        case Threw(m) => Fail(500, InternalError, Reason(m))
        case Empty => Fail(500, InternalError, NoDetail)
        case Found(v) =>
          if !v.success then Fail(401, RecaptchaNotValidated, Codes(v.errorCodes))
          else Ok(Validated);
      Handled(exit, [SiteVerify(token)])
  }
}
