/**
 * `GET /api/me`: whether the caller has a session and whether it is an admin.
 * The decision is a function of what `getSessionUser` and `assertAdmin`
 * returned; `Handle` runs both against the authorisation cache.
 */
module Me {
  import opened Common
  import opened Text
  import opened Errors
  import opened Records
  import opened Auth

  datatype MeReply = Unauthenticated | Authenticated(userId: string, email: string, isAdmin: bool)

  /** 401 with `authenticated: false`, otherwise 200. */
  function HttpStatus(r: MeReply): (code: int)
    ensures code == 401 <==> r.Unauthenticated?
  {
    if r.Unauthenticated? then 401 else 200
  }

  /**
   * No session user gives 401; otherwise the session user's id and email are
   * reported, and `isAdmin` is whether `assertAdmin` succeeded: its error is
   * swallowed, not turned into a failure of the route.
   */
  function Respond(sessionUser: Option<User>, adminCheck: Result<User, Error>): (r: MeReply)
    ensures r.Unauthenticated? <==> sessionUser.None?
    ensures r.Authenticated? ==> r.userId == sessionUser.value.id && r.email == sessionUser.value.email
    ensures r.Authenticated? ==> (r.isAdmin <==> adminCheck.Success?)
  {
    match sessionUser
    case None => Unauthenticated
    case Some(u) => Authenticated(u.id, u.email, adminCheck.Success?)
  }

  /**
   * The route as a whole, run against the authorisation cache. The two helpers
   * each read the clock and, on a cache miss, ask the session service on their
   * own: `sessionNow`/`sessionIdentity` are what `getSessionUser` saw, and
   * `checkNow`/`checkIdentity`/`adminLookup` what `assertAdmin` saw afterwards.
   */
  method Handle(cache: AuthCache, cookie: Option<string>,
                sessionNow: Millis, sessionIdentity: Result<User, Error>,
                checkNow: Millis, checkIdentity: Result<User, Error>, adminLookup: Result<seq<AdminRecord>, Error>)
    returns (reply: MeReply)
    modifies cache
    ensures cookie.None? ==> reply.Unauthenticated?
    // Whether there is a session, and whose, is decided by `getSessionUser` alone.
    ensures cookie.Some? ==>
      var hit := HasFreshEntry(old(cache.entries), cookie.value, sessionNow);
      && (reply.Unauthenticated? <==> !hit && sessionIdentity.Failure?)
      && (reply.Authenticated? ==>
            var u := if hit then old(cache.entries)[cookie.value].user else sessionIdentity.value;
            reply.userId == u.id && reply.email == u.email)
    // Whether it is an admin is decided by `assertAdmin`, with its own clock reading and lookups.
    ensures cookie.Some? && reply.Authenticated? ==>
      (reply.isAdmin <==>
        && cookie.value != ""
        && if HasFreshEntry(old(cache.entries), cookie.value, checkNow) then old(cache.entries)[cookie.value].isAdmin
           else checkIdentity.Success? && adminLookup.Success? && IsAdmin(adminLookup.value, checkIdentity.value.id))
  {
    var sessionUser, _ := cache.GetSessionUser(cookie, sessionNow, sessionIdentity);
    var adminCheck, _ := cache.AssertAdmin(cookie, checkNow, checkIdentity, adminLookup);
    reply := Respond(sessionUser, adminCheck);
  }

  /**
   * A session that the session service confirms for `getSessionUser` but no
   * longer for `assertAdmin` (say it expired in between) is still answered
   * with 200, as a non-admin: the admin check's error is swallowed.
   */
  method SessionLostBetweenLookups(token: string, user: User, t0: Millis, t1: Millis, lost: Error,
                                   admins: seq<AdminRecord>)
    returns (reply: MeReply)
    requires token != ""
    ensures reply == Authenticated(user.id, user.email, false)
    ensures HttpStatus(reply) == 200
  {
    var cache := new AuthCache();
    reply := Handle(cache, Some(token), t0, Success(user), t1, Failure(lost), Success(admins));
  }
}
