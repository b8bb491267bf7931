/**
 * The admin-authorisation check of the server (`assertAdmin`) and the session
 * probe (`getSessionUser`), with the in-process cache they share: a map from
 * the raw session token to the user, whether that user is an admin, and when
 * this was looked up. Entries are trusted for five minutes; they are never
 * evicted, only overwritten by a later lookup for the same token.
 *
 * The cookie is the `appwrite-session` cookie's value (`None` when there is no
 * cookie). The backend is replaced by the answers it would give: `identity` is
 * what the session service answers for this token, `adminLookup` is the admin
 * collection (or the failure of the lookup). Each method also returns the
 * backend calls it made, in order.
 */
module Auth {
  import opened Common
  import opened Text
  import opened Errors
  import opened Records

  datatype User = User(id: string, email: string)

  datatype CacheEntry = CacheEntry(user: User, isAdmin: bool, timestamp: Millis)

  datatype BackendCall = IdentityLookup(token: string) | AdminLookup(userId: string)

  /** Five minutes, in milliseconds. */
  const CacheTtl: int := 5 * 60 * 1000

  /** An entry is used only while strictly less than the TTL has passed since it was written. */
  function HasFreshEntry(entries: map<string, CacheEntry>, token: string, now: Millis): (r: bool)
    ensures r ==> token in entries
    ensures token in entries ==> (r <==> now < entries[token].timestamp + 300000)
  {
    token in entries && now - entries[token].timestamp < CacheTtl
  }

  /** `admins.total > 0` for the admin lookup by the user's id. */
  function IsAdmin(admins: seq<AdminRecord>, userId: string): (r: bool)
    ensures r <==> exists i :: 0 <= i < |admins| && admins[i].userId == userId
  {
    CountWith(admins, AdminUser, userId) > 0
  }

  class AuthCache {
    var entries: map<string, CacheEntry>

    constructor ()
      ensures entries == map[]
    {
      entries := map[];
    }

    /** `assertAdmin`: the session user when it is an admin, else the error it throws. */
    method AssertAdmin(cookie: Option<string>, now: Millis, identity: Result<User, Error>,
                       adminLookup: Result<seq<AdminRecord>, Error>)
      returns (r: Result<User, Error>, calls: seq<BackendCall>)
      modifies this
      // A missing or empty cookie is refused before the cache or the backend is consulted.
      ensures !Truthy(cookie) ==> r == Failure(NoSession) && calls == [] && entries == old(entries)
      // A fresh entry answers without any backend call.
      ensures Truthy(cookie) && HasFreshEntry(old(entries), cookie.value, now) ==>
        && calls == []
        && entries == old(entries)
        && r == (if old(entries)[cookie.value].isAdmin then Success(old(entries)[cookie.value].user)
                 else Failure(NotAdmin))
      // A miss or a stale entry starts with the identity lookup; its failure is rethrown.
      ensures Truthy(cookie) && !HasFreshEntry(old(entries), cookie.value, now) && identity.Failure? ==>
        && calls == [IdentityLookup(cookie.value)]
        && r == Failure(identity.error)
        && entries == old(entries)
      ensures Truthy(cookie) && !HasFreshEntry(old(entries), cookie.value, now) && identity.Success? ==>
        calls == [IdentityLookup(cookie.value), AdminLookup(identity.value.id)]
      ensures Truthy(cookie) && !HasFreshEntry(old(entries), cookie.value, now) && identity.Success?
              && adminLookup.Failure? ==>
        r == Failure(adminLookup.error) && entries == old(entries)
      // A completed lookup is cached, for non-admins too, before Forbidden is thrown.
      ensures Truthy(cookie) && !HasFreshEntry(old(entries), cookie.value, now) && identity.Success?
              && adminLookup.Success? ==>
        var admin := IsAdmin(adminLookup.value, identity.value.id);
        && entries == old(entries)[cookie.value := CacheEntry(identity.value, admin, now)]
        && r == (if admin then Success(identity.value) else Failure(NotAdmin))
      // Nothing is evicted, and no other token's entry changes.
      ensures old(entries).Keys <= entries.Keys
      ensures forall t :: t in old(entries) && !(Truthy(cookie) && t == cookie.value) ==>
        entries[t] == old(entries)[t]
      ensures forall t :: t in entries && t !in old(entries) ==> Truthy(cookie) && t == cookie.value
    {
      if !Truthy(cookie) {
        return Failure(NoSession), [];
      }
      var token := cookie.value;
      if token in entries && now - entries[token].timestamp < CacheTtl {
        var cached := entries[token];
        if !cached.isAdmin {
          return Failure(NotAdmin), [];
        }
        return Success(cached.user), [];
      }
      calls := [IdentityLookup(token)];
      if identity.Failure? {
        return Failure(identity.error), calls;
      }
      var user := identity.value;
      calls := calls + [AdminLookup(user.id)];
      if adminLookup.Failure? {
        return Failure(adminLookup.error), calls;
      }
      var admin := CountWith(adminLookup.value, AdminUser, user.id) > 0;
      entries := entries[token := CacheEntry(user, admin, now)];
      if !admin {
        return Failure(NotAdmin), calls;
      }
      r := Success(user);
    }

    /**
     * `getSessionUser`: the session user or null. Only a missing cookie is
     * refused up front (an empty value is looked up like any other); a fresh
     * entry answers whatever its admin flag; a miss asks the session service
     * and does not write the cache; a failed lookup gives null.
     */
    method GetSessionUser(cookie: Option<string>, now: Millis, identity: Result<User, Error>)
      returns (user: Option<User>, calls: seq<BackendCall>)
      ensures cookie.None? ==> user.None? && calls == []
      ensures cookie.Some? && HasFreshEntry(entries, cookie.value, now) ==>
        user == Some(entries[cookie.value].user) && calls == []
      ensures cookie.Some? && !HasFreshEntry(entries, cookie.value, now) ==>
        && calls == [IdentityLookup(cookie.value)]
        && user == (if identity.Success? then Some(identity.value) else None)
    {
      if cookie.None? {
        return None, [];
      }
      var token := cookie.value;
      if token in entries && now - entries[token].timestamp < CacheTtl {
        return Some(entries[token].user), [];
      }
      calls := [IdentityLookup(token)];
      user := if identity.Success? then Some(identity.value) else None;
    }
  }

  /**
   * The consistency lag of the cache, first half: an admin removed from the
   * admin set keeps access through the same session until the entry is five
   * minutes old, even though the backend would now refuse it.
   */
  method RevokedAdminKeepsAccess(token: string, admin: User, adminsBefore: seq<AdminRecord>,
                                 t0: Millis, t1: Millis)
    returns (later: Result<User, Error>)
    requires token != "" && IsAdmin(adminsBefore, admin.id)
    requires t1 - t0 < CacheTtl
    ensures later == Success(admin)
  {
    var cache := new AuthCache();
    var first, _ := cache.AssertAdmin(Some(token), t0, Success(admin), Success(adminsBefore));
    var calls;
    later, calls := cache.AssertAdmin(Some(token), t1, Success(admin), Success([]));
  }

  /**
   * Second half: a user refused once is still refused for five minutes after
   * being added to the admin set, because non-admin results are cached too.
   */
  method PromotedUserStillRefused(token: string, user: User, adminsBefore: seq<AdminRecord>,
                                  adminsAfter: seq<AdminRecord>, t0: Millis, t1: Millis)
    returns (later: Result<User, Error>)
    requires token != "" && !IsAdmin(adminsBefore, user.id)
    requires t1 - t0 < CacheTtl
    ensures later == Failure(NotAdmin)
  {
    var cache := new AuthCache();
    var first, _ := cache.AssertAdmin(Some(token), t0, Success(user), Success(adminsBefore));
    var calls;
    later, calls := cache.AssertAdmin(Some(token), t1, Success(user), Success(adminsAfter));
  }

  /** Once five minutes have passed, the next check asks the backend again and sees the new admin set. */
  method StaleEntryIsRefreshed(token: string, user: User, adminsBefore: seq<AdminRecord>,
                               adminsAfter: seq<AdminRecord>, t0: Millis, t1: Millis)
    returns (later: Result<User, Error>, calls: seq<BackendCall>)
    requires token != ""
    requires t1 - t0 >= CacheTtl
    ensures calls == [IdentityLookup(token), AdminLookup(user.id)]
    ensures later == (if IsAdmin(adminsAfter, user.id) then Success(user) else Failure(NotAdmin))
  {
    var cache := new AuthCache();
    var first, _ := cache.AssertAdmin(Some(token), t0, Success(user), Success(adminsBefore));
    later, calls := cache.AssertAdmin(Some(token), t1, Success(user), Success(adminsAfter));
  }
}
