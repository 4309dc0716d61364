/** The testimonial request handlers `createTestimonial`,
    `getUserTestimonials` and `getUserLastTestimonial`. None of them checks
    ownership: any caller naming a `userId` reaches the service.
 */
module TestimonialsController {
  import opened JsValues
  import opened Services
  import opened Http

  /** `createTestimonial`: 400 `MISSING_PROPS` when any of the four body
      fields is falsy; then the create call, made only when `userId` has a
      `length` (so a numeric `userId` ends in 400 `ERROR_CREATE_TESTIMONIAL`
      without a call); then a falsy result is 400 and a truthy one 200. */
  function CreateTestimonial(svc: TestimonialService, userId: JsValue, testimonial: JsValue, pictureUrl: JsValue, rating: JsValue): (r: Handled)
    ensures Responds(r.exit)
    ensures (!Truthy(userId) || !Truthy(testimonial) || !Truthy(pictureUrl) || !Truthy(rating)) ==>
      r == Handled(Fail(400, MissingProps, NoDetail), [])
    ensures r.calls != [] <==>
      HasLength(userId) && Truthy(testimonial) && Truthy(pictureUrl) && Truthy(rating)
    ensures r.calls != [] ==>
      && |r.calls| == 1 && r.calls[0].InsertTestimonial?
      && var input := r.calls[0].input;
         && input.userId == userId && input.testimonial == testimonial
         && input.pictureUrl == pictureUrl && input.rating == rating
         && (svc.create(input).Found? ==> r.exit == Ok(Doc(svc.create(input).value)))
         && (svc.create(input).Empty? ==> r.exit == Fail(400, ErrorCreateTestimonial, NoDetail))
         && (svc.create(input).Threw? ==> r.exit == Fail(500, InternalError, Reason(svc.create(input).message)))
    ensures Truthy(userId) && Truthy(testimonial) && Truthy(pictureUrl) && Truthy(rating) && !HasLength(userId) ==>
      r == Handled(Fail(400, ErrorCreateTestimonial, NoDetail), [])
  {
    if !Truthy(userId) || !Truthy(testimonial) || !Truthy(pictureUrl) || !Truthy(rating) then
      Handled(Fail(400, MissingProps, NoDetail), [])
    else if HasLength(userId) then
      var input := TestimonialInput(userId, testimonial, pictureUrl, rating);
      Handled(Settle(svc.create(input), (d: Document) => Doc(d), ErrorCreateTestimonial), [InsertTestimonial(input)])
    else
      Handled(Settle(Empty, (d: Document) => Doc(d), ErrorCreateTestimonial), [])
  }

  /** `getUserTestimonials`: 400 `MISSING_PROPS` without a `userId`, else the
      list the service finds. A falsy result reuses the create-error message;
      an empty list is truthy and is sent with 200. */
  function GetUserTestimonials(svc: TestimonialService, userId: JsValue): (r: Handled)
    ensures Responds(r.exit)
    ensures NoWrites(r.calls)
    ensures !Truthy(userId) ==> r == Handled(Fail(400, MissingProps, NoDetail), [])
    ensures Truthy(userId) ==>
      && r.calls == [ListTestimonials(userId)]
      && (svc.all(userId).Found? ==> r.exit == Ok(Docs(svc.all(userId).value)))
      && (svc.all(userId).Empty? ==> r.exit == Fail(400, ErrorCreateTestimonial, NoDetail))
      && (svc.all(userId).Threw? ==> r.exit == Fail(500, InternalError, Reason(svc.all(userId).message)))
  {
    if !Truthy(userId) then
      Handled(Fail(400, MissingProps, NoDetail), [])
    else
      Handled(Settle(svc.all(userId), (ds: seq<Document>) => Docs(ds), ErrorCreateTestimonial), [ListTestimonials(userId)])
  }

  /** `getUserLastTestimonial`: as `getUserTestimonials`, for the most recent one. */
  function GetUserLastTestimonial(svc: TestimonialService, userId: JsValue): (r: Handled)
    ensures Responds(r.exit)
    ensures NoWrites(r.calls)
    ensures !Truthy(userId) ==> r == Handled(Fail(400, MissingProps, NoDetail), [])
    ensures Truthy(userId) ==>
      && r.calls == [LatestTestimonial(userId)]
      && (svc.last(userId).Found? ==> r.exit == Ok(Doc(svc.last(userId).value)))
      && (svc.last(userId).Empty? ==> r.exit == Fail(400, ErrorCreateTestimonial, NoDetail))
      && (svc.last(userId).Threw? ==> r.exit == Fail(500, InternalError, Reason(svc.last(userId).message)))
  {
    if !Truthy(userId) then
      Handled(Fail(400, MissingProps, NoDetail), [])
    else
      Handled(Settle(svc.last(userId), (d: Document) => Doc(d), ErrorCreateTestimonial), [LatestTestimonial(userId)])
  }

  /** An empty list of testimonials is a success, not a miss. */
  lemma EmptyListIsFound(svc: TestimonialService, userId: JsValue)
    requires Truthy(userId) && svc.all(userId) == Found([])
    ensures GetUserTestimonials(svc, userId).exit == Ok(Docs([]))
  {
  }

  /** A rating of `0` counts as missing. */
  lemma ZeroRatingIsMissing(svc: TestimonialService, userId: JsValue, testimonial: JsValue, pictureUrl: JsValue)
    ensures CreateTestimonial(svc, userId, testimonial, pictureUrl, Num(0)).exit == Fail(400, MissingProps, NoDetail)
    ensures CreateTestimonial(svc, userId, testimonial, pictureUrl, Num(0)).calls == []
  {
  }

  /** The two getters validate the same way and make one read each with the
      same `userId`; they answer with the same status whenever the list and
      the latest-record lookups settle the same way, and with the same
      response when neither finds anything. */
  lemma TestimonialGettersAgree(svc: TestimonialService, userId: JsValue)
    ensures !Truthy(userId) ==>
      GetUserTestimonials(svc, userId) == GetUserLastTestimonial(svc, userId)
    ensures Truthy(userId) ==>
      && GetUserTestimonials(svc, userId).calls == [ListTestimonials(userId)]
      && GetUserLastTestimonial(svc, userId).calls == [LatestTestimonial(userId)]
    ensures (svc.all(userId).Found? == svc.last(userId).Found?
      && svc.all(userId).Empty? == svc.last(userId).Empty?) ==>
      GetUserTestimonials(svc, userId).exit.status == GetUserLastTestimonial(svc, userId).exit.status
    ensures svc.all(userId) == Empty && svc.last(userId) == Empty ==>
      GetUserTestimonials(svc, userId).exit == GetUserLastTestimonial(svc, userId).exit
  {
  }

  /** A `userId` under which a testimonial can be created passes the getters'
      validation and is the one they read by; a missing one is refused by
      all three alike. */
  lemma CreatedTestimonialIsReadable(svc: TestimonialService, userId: JsValue, testimonial: JsValue, pictureUrl: JsValue, rating: JsValue)
    ensures CreateTestimonial(svc, userId, testimonial, pictureUrl, rating).calls != [] ==>
      && GetUserTestimonials(svc, userId).calls == [ListTestimonials(userId)]
      && GetUserLastTestimonial(svc, userId).calls == [LatestTestimonial(userId)]
    ensures !Truthy(userId) ==>
      && CreateTestimonial(svc, userId, testimonial, pictureUrl, rating).exit == GetUserTestimonials(svc, userId).exit
      && GetUserTestimonials(svc, userId).exit == Fail(400, MissingProps, NoDetail)
  {
  }
}
