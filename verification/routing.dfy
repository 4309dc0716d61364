/** How a route's layers hand a request on: each middleware either ends the
    request or calls `next()`, and the route's handler runs only when every
    middleware before it called `next()`. The contact route puts the
    reCAPTCHA gate in front of the contact handler, which is not part of this
    model and enters as the result it would produce.
 */
module Routing {
  import opened JsValues
  import opened Services
  import opened Http
  import RecaptchaMiddleware

  /** Every layer called `next()`. */
  predicate AllPass(layers: seq<Handled>) {
    forall i :: 0 <= i < |layers| ==> layers[i].exit.Next?
  }

  /** The calls of a run of layers, in order. */
  function CallsOf(layers: seq<Handled>): seq<Call>
    decreases |layers|
  {
    if |layers| == 0 then [] else layers[0].calls + CallsOf(layers[1..])
  }

  /** Run the middleware `layers` in order, then `handler`; each stands for
      what that layer would do with the request. */
  function Dispatch(layers: seq<Handled>, handler: Handled): (r: Handled)
    ensures AllPass(layers) ==> r.exit == handler.exit
    ensures !AllPass(layers) ==>
      exists i :: 0 <= i < |layers| && !layers[i].exit.Next? && r.exit == layers[i].exit
    decreases |layers|
  {
    if |layers| == 0 then handler
    else if layers[0].exit.Next? then
      var rest := Dispatch(layers[1..], handler);
      Handled(rest.exit, layers[0].calls + rest.calls)
    else
      layers[0]
  }

  /** When every middleware calls `next()`, the handler runs after all of
      them and its result is the route's. */
  lemma {:induction false} DispatchReachesHandler(layers: seq<Handled>, handler: Handled)
    requires AllPass(layers)
    ensures Dispatch(layers, handler) == Handled(handler.exit, CallsOf(layers) + handler.calls)
    decreases |layers|
  {
    if |layers| > 0 {
      assert AllPass(layers[1..]) by {
        forall i | 0 <= i < |layers[1..]|
          ensures layers[1..][i].exit.Next?
        {
          assert layers[1..][i] == layers[i + 1];
        }
      }
      DispatchReachesHandler(layers[1..], handler);
      assert layers[0].calls + (CallsOf(layers[1..]) + handler.calls)
        == (layers[0].calls + CallsOf(layers[1..])) + handler.calls;
    }
  }

  /** The first middleware that does not call `next()` ends the request:
      nothing after it runs, the handler included. */
  lemma {:induction false} DispatchStopsAtFirstRefusal(layers: seq<Handled>, handler: Handled, k: nat)
    requires k < |layers| && !layers[k].exit.Next? && AllPass(layers[..k])
    ensures Dispatch(layers, handler) == Handled(layers[k].exit, CallsOf(layers[..k]) + layers[k].calls)
    decreases k
  {
    if k > 0 {
      var before := layers[..k];
      var tail := layers[1..][..k - 1];
      assert layers[0] == before[0];
      assert tail == before[1..];
      assert AllPass(tail) by {
        forall i | 0 <= i < |tail|
          ensures tail[i].exit.Next?
        {
          assert tail[i] == before[i + 1];
        }
      }
      DispatchStopsAtFirstRefusal(layers[1..], handler, k - 1);
      assert layers[0].calls + (CallsOf(tail) + layers[k].calls)
        == (layers[0].calls + CallsOf(before[1..])) + layers[k].calls;
    }
  }

  /** `POST /contact`: the reCAPTCHA gate, then the contact handler `send`. */
  function Contact(recaptcha: RecaptchaService, headerToken: JsValue, send: Handled): (r: Handled)
    ensures RecaptchaMiddleware.Gate(recaptcha, headerToken).exit.Next? ==>
      r == Handled(send.exit, [SiteVerify(headerToken)] + send.calls)
    ensures !RecaptchaMiddleware.Gate(recaptcha, headerToken).exit.Next? ==>
      r == RecaptchaMiddleware.Gate(recaptcha, headerToken)
    ensures !Truthy(headerToken) ==> r == Handled(Fail(401, NoRecaptchaProvided, NoDetail), [])
  {
    var layers := [RecaptchaMiddleware.Gate(recaptcha, headerToken)];
    assert layers[1..] == [];
    assert Dispatch(layers[1..], send) == send;
    Dispatch(layers, send)
  }
}
