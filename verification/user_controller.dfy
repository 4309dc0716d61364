/** The user request handlers: the ownership predicate, the id-then-email
    lookup, and the handlers `doesUserExist`, `getUser`, `getUserPlan`,
    `createUser`, `updateUser` and `deleteUser`, each a pure function of the
    request fields and of what the user service would answer.
 */
module UserController {
  import opened JsValues
  import opened Services
  import opened Http

  /** The ownership check. It denies only when the caller's email and uid and
      the target's `authId` are all present and `String(authId)` differs from
      `String(tokenUid)`; any missing value lets the request through. */
  function IsUserAuthorized(tokenEmail: JsValue, tokenUid: JsValue, authId: JsValue): (allowed: bool)
    ensures allowed <==>
      !Truthy(tokenEmail) || !Truthy(tokenUid) || !Truthy(authId) || JsString(authId) == JsString(tokenUid)
  {
    if Truthy(tokenEmail) && Truthy(tokenUid) && Truthy(authId) && JsString(authId) != JsString(tokenUid) then
      false
    else
      true
  }

  /** Fail-open: without a caller email, a caller uid or a target `authId`,
      the request is allowed. */
  lemma FailOpen(tokenEmail: JsValue, tokenUid: JsValue, authId: JsValue)
    requires !Truthy(tokenEmail) || !Truthy(tokenUid) || !Truthy(authId)
    ensures IsUserAuthorized(tokenEmail, tokenUid, authId)
  {
  }

  /** With every identity present as non-empty strings, the request is
      allowed exactly when the target is the caller. */
  lemma OwnerOnly(tokenEmail: string, tokenUid: string, authId: string)
    requires tokenEmail != "" && tokenUid != "" && authId != ""
    ensures IsUserAuthorized(Str(tokenEmail), Str(tokenUid), Str(authId)) <==> authId == tokenUid
  {
  }

  /** A positive numeric `authId` in a body is compared through
      `String(...)`: it matches exactly the caller whose uid is its decimal
      rendering, so a matching uid is a canonical run of digits denoting the
      number. */
  lemma NumericAuthId(tokenEmail: string, tokenUid: string, n: nat)
    requires tokenEmail != "" && tokenUid != "" && 0 < n <= MaxSafeInteger
    ensures IsUserAuthorized(Str(tokenEmail), Str(tokenUid), Num(n)) <==> tokenUid == Decimal(n)
    ensures IsUserAuthorized(Str(tokenEmail), Str(tokenUid), Num(n)) ==>
      Canonical(tokenUid) && DecimalValue(tokenUid) == n
  {
    assert JsString(Num(n)) == Decimal(n);
  }

  /** Conversely, every canonical run of digits denoting a positive numeric
      `authId` is a uid that matches it. */
  lemma CanonicalUidMatches(tokenEmail: string, tokenUid: string, n: nat)
    requires tokenEmail != "" && 0 < n <= MaxSafeInteger
    requires Canonical(tokenUid) && DecimalValue(tokenUid) == n
    ensures IsUserAuthorized(Str(tokenEmail), Str(tokenUid), Num(n))
  {
    DecimalUnique(tokenUid);
    assert JsString(Num(n)) == tokenUid;
  }

  /** A negative numeric `authId` matches exactly the caller whose uid is
      `-` followed by the decimal rendering of its magnitude. */
  lemma NegativeNumericAuthId(tokenEmail: string, tokenUid: string, m: int)
    requires tokenEmail != "" && tokenUid != "" && 0 < m <= MaxSafeInteger
    ensures IsUserAuthorized(Str(tokenEmail), Str(tokenUid), Num(-m)) <==> tokenUid == "-" + Decimal(m)
    ensures IsUserAuthorized(Str(tokenEmail), Str(tokenUid), Num(-m)) ==>
      tokenUid[0] == '-' && AllDigits(tokenUid[1..]) && DecimalValue(tokenUid[1..]) == m
  {
    assert JsString(Num(-m)) == "-" + Decimal(m);
    assert ("-" + Decimal(m))[1..] == Decimal(m);
  }

  /** `String(...)` never pads: a uid of two or more characters starting with
      `0` is refused for every positive numeric `authId`, although it may
      denote that number. */
  lemma LeadingZeroUidNeverMatches(tokenEmail: string, tokenUid: string, n: nat)
    requires tokenEmail != "" && 0 < n <= MaxSafeInteger
    requires |tokenUid| > 1 && tokenUid[0] == '0'
    ensures !IsUserAuthorized(Str(tokenEmail), Str(tokenUid), Num(n))
  {
  }

  /** A numeric `authId` of `0` is falsy: every caller is let through. */
  lemma ZeroAuthIdLetsAnyoneThrough(tokenEmail: JsValue, tokenUid: JsValue)
    ensures IsUserAuthorized(tokenEmail, tokenUid, Num(0))
  {
  }

  /** A caller whose uid holds a character other than a digit never matches
      a numeric `authId`. */
  lemma NonDigitUidNeverMatches(tokenEmail: string, tokenUid: string, n: nat, i: nat)
    requires tokenEmail != "" && 0 < n <= MaxSafeInteger
    requires i < |tokenUid| && !IsDigit(tokenUid[i])
    ensures !IsUserAuthorized(Str(tokenEmail), Str(tokenUid), Num(n))
  {
  }

  /** The 401 every authorizing handler puts in front of the rest of its work. */
  function Guard(allowed: bool, detail: Detail, rest: Handled): (r: Handled)
    ensures !allowed ==> r == Handled(Fail(401, NotAuthorized, detail), [])
    ensures allowed ==> r == rest
  {
    if allowed then rest else Handled(Fail(401, NotAuthorized, detail), [])
  }

  /** What the user service answers to a lookup call. */
  function Answer(svc: UserService, c: Call): Outcome<User>
    requires c.FindUserById? || c.FindUserByEmail?
  {
    if c.FindUserById? then svc.byId(c.arg) else svc.byEmail(c.email)
  }

  datatype Lookup = Lookup(result: Outcome<User>, calls: seq<Call>)

  /** The fallback shared by `doesUserExist` and `getUser`: look up by id when
      a `userId` is given (handing the service the `email` value, as the
      handlers do), then by email when that found nothing and an email is
      given. A rejection of the first call ends the lookup. */
  function FindUser(svc: UserService, userId: JsValue, email: JsValue): (l: Lookup)
    ensures forall i :: 0 <= i < |l.calls| ==> l.calls[i] == FindUserById(email) || l.calls[i] == FindUserByEmail(email)
    ensures FindUserById(email) in l.calls <==> HasLength(userId)
    ensures FindUserByEmail(email) in l.calls <==>
      HasLength(email) && (!HasLength(userId) || svc.byId(email).Empty?)
    ensures |l.calls| <= 2
    ensures |l.calls| == 2 ==> l.calls == [FindUserById(email), FindUserByEmail(email)]
    ensures l.result == if l.calls == [] then Empty else Answer(svc, l.calls[|l.calls| - 1])
  {
    var first := if HasLength(userId) then Lookup(svc.byId(email), [FindUserById(email)]) else Lookup(Empty, []);
    if first.result.Empty? && HasLength(email) then
      Lookup(svc.byEmail(email), first.calls + [FindUserByEmail(email)])
    else
      first
  }

  /** `doesUserExist`: 400 without any identifier, else 200 with whether the
      lookup found a user, or 500 when a lookup rejected. */
  function DoesUserExist(svc: UserService, email: JsValue, userId: JsValue): (r: Handled)
    ensures Responds(r.exit)
    ensures NoWrites(r.calls)
    ensures !Truthy(email) && !Truthy(userId) ==>
      r == Handled(Fail(400, UserIdOrEmailRequired, NoDetail), [])
    ensures Truthy(email) || Truthy(userId) ==>
      var l := FindUser(svc, userId, email);
      && r.calls == l.calls
      && (l.result.Threw? ==> r.exit == Fail(500, InternalError, Reason(l.result.message)))
      && (!l.result.Threw? ==> r.exit == Ok(Exists(l.result.Found?)))
  {
    if !Truthy(email) && !Truthy(userId) then
      Handled(Fail(400, UserIdOrEmailRequired, NoDetail), [])
    else
      var l := FindUser(svc, userId, email);
      match l.result
      case Threw(m) => Handled(Fail(500, InternalError, Reason(m)), l.calls)
      case _ => Handled(Ok(Exists(l.result.Found?)), l.calls)
  }

  /** `getUser`. The handler reads the caller's email for both claims and
      passes no `authId`, so the guard always lets the request through; the
      rest is the lookup, with a miss reported as 400 `USER_NOT_FOUND`. */
  function GetUser(svc: UserService, claims: Claims, email: JsValue, userId: JsValue): (r: Handled)
    ensures Responds(r.exit)
    ensures r.exit.status != 401
    ensures NoWrites(r.calls)
    ensures !Truthy(email) && !Truthy(userId) ==>
      r == Handled(Fail(400, UserIdOrEmailRequired, NoDetail), [])
    ensures Truthy(email) || Truthy(userId) ==>
      var l := FindUser(svc, userId, email);
      && r.calls == l.calls
      && (l.result.Found? ==> r.exit == Ok(UserDoc(l.result.value)))
      && (l.result.Empty? ==> r.exit == Fail(400, UserNotFound, NoDetail))
      && (l.result.Threw? ==> r.exit == Fail(500, InternalError, Reason(l.result.message)))
  {
    var tokenEmail := claims.email;
    var tokenUid := claims.email;
    Guard(IsUserAuthorized(tokenEmail, tokenUid, Undefined), Named(TokenFromAnotherUser),
      if !Truthy(email) && !Truthy(userId) then
        Handled(Fail(400, UserIdOrEmailRequired, NoDetail), [])
      else
        var l := FindUser(svc, userId, email);
        Handled(Settle(l.result, u => UserDoc(u), UserNotFound), l.calls))
  }

  /** `getUserPlan`: 400 `USER_ID_MISSING` without an id, else a lookup by
      that id whose user's `plan` is sent with 200. */
  function GetUserPlan(svc: UserService, userId: JsValue): (r: Handled)
    ensures Responds(r.exit)
    ensures NoWrites(r.calls)
    ensures !Truthy(userId) ==> r == Handled(Fail(400, UserIdMissing, NoDetail), [])
    ensures Truthy(userId) && !HasLength(userId) ==>
      r == Handled(Fail(400, UserNotFound, NoDetail), [])
    ensures HasLength(userId) ==>
      && r.calls == [FindUserById(userId)]
      && (svc.byId(userId).Found? ==> r.exit == Ok(Plan(svc.byId(userId).value.plan)))
      && (svc.byId(userId).Empty? ==> r.exit == Fail(400, UserNotFound, NoDetail))
      && (svc.byId(userId).Threw? ==> r.exit == Fail(500, InternalError, Reason(svc.byId(userId).message)))
  {
    if !Truthy(userId) then
      Handled(Fail(400, UserIdMissing, NoDetail), [])
    else if HasLength(userId) then
      Handled(Settle(svc.byId(userId), (u: User) => Plan(u.plan), UserNotFound), [FindUserById(userId)])
    else
      Handled(Settle(Empty, (u: User) => Plan(u.plan), UserNotFound), [])
  }

  /** The body `createUser` stores: the request body with only `plan`
      replaced by the configured default. */
  function WithDefaultPlan(user: User, defaultPlan: JsValue): (stored: User)
    ensures stored.plan == defaultPlan
    ensures stored.(plan := user.plan) == user
  {
    user.(plan := defaultPlan)
  }

  /** `createUser`: authorization against the body's `authId` first, then
      the email/first name/last name validation, then the create call. */
  function CreateUser(svc: UserService, claims: Claims, user: User, defaultPlan: JsValue): (r: Handled)
    ensures Responds(r.exit)
    ensures !IsUserAuthorized(claims.email, claims.uid, user.authId) ==>
      r == Handled(Fail(401, NotAuthorized, NoDetail), [])
    ensures (IsUserAuthorized(claims.email, claims.uid, user.authId)
      && (!Truthy(user.email) || !Truthy(user.firstName) || !Truthy(user.lastName))) ==>
      r == Handled(Fail(400, UserInvalid, NoDetail), [])
    ensures r.calls != [] <==>
      IsUserAuthorized(claims.email, claims.uid, user.authId)
      && Truthy(user.email) && Truthy(user.firstName) && Truthy(user.lastName)
    ensures r.calls != [] ==>
      && |r.calls| == 1 && r.calls[0].InsertUser?
      && r.calls[0].user.plan == defaultPlan
      && r.calls[0].user.(plan := user.plan) == user
      && var o := svc.create(r.calls[0].user);
         && (o.Found? ==> r.exit == Ok(UserDoc(o.value)))
         && (o.Empty? ==> r.exit == Fail(400, UserCreating, NoDetail))
         && (o.Threw? ==> r.exit == Fail(500, InternalError, Reason(o.message)))
  {
    Guard(IsUserAuthorized(claims.email, claims.uid, user.authId), NoDetail,
      if Blank(user.email) || Blank(user.firstName) || Blank(user.lastName) then
        Handled(Fail(400, UserInvalid, NoDetail), [])
      else
        var stored := WithDefaultPlan(user, defaultPlan);
        Handled(Settle(svc.create(stored), u => UserDoc(u), UserCreating), [InsertUser(stored)]))
  }

  /** `updateUser`: authorization against the body's `authId`, then the body
      goes to the service unchanged, with no field validation. */
  function UpdateUser(svc: UserService, claims: Claims, user: User): (r: Handled)
    ensures Responds(r.exit)
    ensures !IsUserAuthorized(claims.email, claims.uid, user.authId) ==>
      r == Handled(Fail(401, NotAuthorized, NoDetail), [])
    ensures IsUserAuthorized(claims.email, claims.uid, user.authId) ==>
      && r.calls == [ModifyUser(user)]
      && var o := svc.update(user);
         && (o.Found? ==> r.exit == Ok(UserDoc(o.value)))
         && (o.Empty? ==> r.exit == Fail(400, UserUpdating, NoDetail))
         && (o.Threw? ==> r.exit == Fail(500, InternalError, Reason(o.message)))
  {
    Guard(IsUserAuthorized(claims.email, claims.uid, user.authId), NoDetail,
      Handled(Settle(svc.update(user), u => UserDoc(u), UserUpdating), [ModifyUser(user)]))
  }

  /** `deleteUser`: 400 `INVALID_REQUEST` when `userId` or `authId` is
      missing, before any authorization; then authorization against the query
      `authId`; then the service takes over the request and response. */
  function DeleteUser(svc: UserService, claims: Claims, userId: JsValue, authId: JsValue): (r: Handled)
    ensures r.exit.Send? ==> WellFormed(r.exit)
    ensures !Truthy(userId) || !Truthy(authId) ==>
      r == Handled(Fail(400, InvalidRequest, NoDetail), [])
    ensures Truthy(userId) && Truthy(authId) && !IsUserAuthorized(claims.email, claims.uid, authId) ==>
      r == Handled(Fail(401, NotAuthorized, NoDetail), [])
    ensures r.calls != [] <==>
      Truthy(userId) && Truthy(authId) && IsUserAuthorized(claims.email, claims.uid, authId)
    ensures r.calls != [] ==> r.calls == [RemoveUser(userId, authId)]
    ensures r.exit.Delegated? <==> r.calls != [] && svc.delete(userId, authId).Completed?
    ensures r.calls != [] && svc.delete(userId, authId).Raised? ==>
      r.exit == Fail(500, InternalError, Reason(svc.delete(userId, authId).message))
  {
    if !Truthy(userId) || !Truthy(authId) then
      Handled(Fail(400, InvalidRequest, NoDetail), [])
    else
      Guard(IsUserAuthorized(claims.email, claims.uid, authId), NoDetail,
        match svc.delete(userId, authId)
        case Completed => Handled(Delegated, [RemoveUser(userId, authId)])
        case Raised(m) => Handled(Fail(500, InternalError, Reason(m)), [RemoveUser(userId, authId)]))
  }

  /** `getUser` answers whatever the caller's uid claim says. */
  lemma GetUserIgnoresTokenUid(svc: UserService, tokenEmail: JsValue, uid1: JsValue, uid2: JsValue, email: JsValue, userId: JsValue)
    ensures GetUser(svc, Claims(tokenEmail, uid1), email, userId) == GetUser(svc, Claims(tokenEmail, uid2), email, userId)
  {
  }

  /** Given only an id, `getUserPlan` looks the user up by that id, while
      `getUser` hands the id lookup `undefined` (its `email` query value):
      the two answer 200 on different lookups. */
  lemma PlanAndGetUserLookups(svc: UserService, claims: Claims, id: string)
    requires id != ""
    ensures GetUserPlan(svc, Str(id)).calls == [FindUserById(Str(id))]
    ensures GetUser(svc, claims, Undefined, Str(id)).calls == [FindUserById(Undefined)]
    ensures GetUserPlan(svc, Str(id)).exit.status == 200 <==> svc.byId(Str(id)).Found?
    ensures GetUser(svc, claims, Undefined, Str(id)).exit.status == 200 <==> svc.byId(Undefined).Found?
    ensures svc.byId(Undefined).Found? ==>
      GetUser(svc, claims, Undefined, Str(id)).exit == Ok(UserDoc(svc.byId(Undefined).value))
  {
  }

  /** `doesUserExist` and `getUser` make the same calls, and the existence
      flag is true exactly when `getUser` sends a user. */
  lemma ExistsAgreesWithGetUser(svc: UserService, claims: Claims, email: JsValue, userId: JsValue)
    ensures DoesUserExist(svc, email, userId).calls == GetUser(svc, claims, email, userId).calls
    ensures DoesUserExist(svc, email, userId).exit == Ok(Exists(true)) <==>
      GetUser(svc, claims, email, userId).exit.status == 200
    ensures DoesUserExist(svc, email, userId).exit == Ok(Exists(false)) <==>
      GetUser(svc, claims, email, userId).exit == Fail(400, UserNotFound, NoDetail)
  {
  }

  /** The create call is made only for an authorized caller with a valid
      body; no handler of this module writes for a caller the guard rejects. */
  lemma NoWriteWhenUnauthorized(svc: UserService, claims: Claims, user: User, defaultPlan: JsValue, userId: JsValue, authId: JsValue)
    ensures !IsUserAuthorized(claims.email, claims.uid, user.authId) ==>
      NoWrites(CreateUser(svc, claims, user, defaultPlan).calls) && NoWrites(UpdateUser(svc, claims, user).calls)
    ensures !IsUserAuthorized(claims.email, claims.uid, authId) ==>
      NoWrites(DeleteUser(svc, claims, userId, authId).calls)
  {
  }

  /** `createUser` authorizes before it validates: a rejected caller gets 401
      whatever the body's other fields hold. */
  lemma CreateUserAuthorizesFirst(svc: UserService, claims: Claims, u1: User, u2: User, defaultPlan: JsValue)
    requires u1.authId == u2.authId
    requires !IsUserAuthorized(claims.email, claims.uid, u1.authId)
    ensures CreateUser(svc, claims, u1, defaultPlan) == CreateUser(svc, claims, u2, defaultPlan)
  {
  }
}
