/**
 * Maintenance of the admin set: `GET /api/admin/admins` (list),
 * `POST /api/admin/admins` (add, refusing duplicates) and
 * `POST /api/admin/admins/remove` (remove, refusing self-removal and the
 * removal of the last admin). `auth` is the outcome of `assertAdmin`; each
 * `…Fault` is the failure of one backend call, `None` when it succeeds.
 */
module Admins {
  import opened Common
  import opened Text
  import opened Errors
  import opened Records
  import opened Auth

  /** `GET`: the admin documents exactly as the store lists them. */
  function ListAdmins(auth: Result<User, Error>, admins: seq<AdminRecord>, listFault: Option<Error>)
    : (r: Reply<seq<AdminRecord>>)
    ensures auth.Failure? ==> r == Fail(auth.error)
    ensures auth.Success? && listFault.Some? ==> r == Fail(listFault.value)
    ensures auth.Success? && listFault.None? ==> r == Ok(admins)
  {
    if auth.Failure? then Fail(auth.error)
    else if listFault.Some? then Fail(listFault.value)
    else Ok(admins)
  }

  /** `POST`: add `userId` to the admin set unless it is missing or already there. */
  method AddAdmin(admins: Collection<AdminRecord>, auth: Result<User, Error>,
                  userId: Option<string>, email: Option<string>, newId: string, now: Millis,
                  lookupFault: Option<Error>, createFault: Option<Error>)
    returns (r: Reply<AdminRecord>)
    modifies admins
    ensures auth.Failure? ==> r == Fail(auth.error) && admins.docs == old(admins.docs)
    ensures auth.Success? && !Truthy(userId) ==>
      r == Refused(400, "userId is required") && admins.docs == old(admins.docs)
    ensures auth.Success? && Truthy(userId) && lookupFault.Some? ==>
      r == Fail(lookupFault.value) && admins.docs == old(admins.docs)
    ensures auth.Success? && Truthy(userId) && lookupFault.None?
            && FirstWith(old(admins.docs), AdminUser, userId.value).Some? ==>
      r == Refused(400, "User is already an admin") && admins.docs == old(admins.docs)
    ensures auth.Success? && Truthy(userId) && lookupFault.None?
            && FirstWith(old(admins.docs), AdminUser, userId.value).None? && createFault.Some? ==>
      r == Fail(createFault.value) && admins.docs == old(admins.docs)
    ensures auth.Success? && Truthy(userId) && lookupFault.None?
            && FirstWith(old(admins.docs), AdminUser, userId.value).None? && createFault.None? ==>
      var added := AdminRecord(newId, userId.value, email, now);
      r == Ok(added) && admins.docs == old(admins.docs) + [added]
    // No user is ever an admin twice.
    ensures UniqueBy(old(admins.docs), AdminUser) ==> UniqueBy(admins.docs, AdminUser)
  {
    if auth.Failure? {
      return Fail(auth.error);
    }
    if !Truthy(userId) {
      return Refused(400, "userId is required");
    }
    if lookupFault.Some? {
      return Fail(lookupFault.value);
    }
    if CountWith(admins.docs, AdminUser, userId.value) > 0 {
      return Refused(400, "User is already an admin");
    }
    if createFault.Some? {
      return Fail(createFault.value);
    }
    var added := AdminRecord(newId, userId.value, email, now);
    admins.docs := admins.docs + [added];
    r := Ok(added);
  }

  /**
   * `POST …/remove`: remove the first admin record of `userId`. The guards run
   * in this order: missing id, self-removal (before any store access), at most
   * one admin left (whoever the target), unknown target.
   */
  method RemoveAdmin(admins: Collection<AdminRecord>, auth: Result<User, Error>, userId: Option<string>,
                     listFault: Option<Error>, lookupFault: Option<Error>, deleteFault: Option<Error>)
    returns (r: Reply<bool>)
    modifies admins
    ensures auth.Failure? ==> r == Fail(auth.error) && admins.docs == old(admins.docs)
    ensures auth.Success? && !Truthy(userId) ==>
      r == Refused(400, "userId is required") && admins.docs == old(admins.docs)
    ensures auth.Success? && Truthy(userId) && userId.value == auth.value.id ==>
      r == Refused(400, "You cannot remove yourself") && admins.docs == old(admins.docs)
    ensures auth.Success? && Truthy(userId) && userId.value != auth.value.id && listFault.None?
            && |old(admins.docs)| <= 1 ==>
      r == Refused(400, "At least one admin must remain") && admins.docs == old(admins.docs)
    ensures auth.Success? && Truthy(userId) && userId.value != auth.value.id && listFault.None?
            && |old(admins.docs)| > 1 && lookupFault.None?
            && FirstWith(old(admins.docs), AdminUser, userId.value).None? ==>
      r == Refused(404, "Admin not found") && admins.docs == old(admins.docs)
    ensures auth.Success? && Truthy(userId) && userId.value != auth.value.id && listFault.None?
            && |old(admins.docs)| > 1 && lookupFault.None?
            && FirstWith(old(admins.docs), AdminUser, userId.value).Some? && deleteFault.None? ==>
      r == Ok(true)
      && admins.docs == RemoveAt(old(admins.docs), FirstWith(old(admins.docs), AdminUser, userId.value).value)
    ensures auth.Success? && Truthy(userId) && userId.value != auth.value.id && listFault.Some? ==>
      r == Fail(listFault.value)
    ensures auth.Success? && Truthy(userId) && userId.value != auth.value.id && listFault.None?
            && |old(admins.docs)| > 1 && lookupFault.Some? ==>
      r == Fail(lookupFault.value)
    ensures auth.Success? && Truthy(userId) && userId.value != auth.value.id && listFault.None?
            && |old(admins.docs)| > 1 && lookupFault.None?
            && FirstWith(old(admins.docs), AdminUser, userId.value).Some? && deleteFault.Some? ==>
      r == Fail(deleteFault.value)
    // Refusals change nothing; success removes exactly one record.
    ensures r.Refused? ==> admins.docs == old(admins.docs)
    ensures r.Ok? ==> |admins.docs| == |old(admins.docs)| - 1
    // The admin set never becomes empty.
    ensures |old(admins.docs)| > 0 ==> |admins.docs| > 0
  {
    if auth.Failure? {
      return Fail(auth.error);
    }
    if !Truthy(userId) {
      return Refused(400, "userId is required");
    }
    if userId.value == auth.value.id {
      return Refused(400, "You cannot remove yourself");
    }
    if listFault.Some? {
      return Fail(listFault.value);
    }
    if |admins.docs| <= 1 {
      return Refused(400, "At least one admin must remain");
    }
    if lookupFault.Some? {
      return Fail(lookupFault.value);
    }
    var target := FirstWith(admins.docs, AdminUser, userId.value);
    if target.None? {
      return Refused(404, "Admin not found");
    }
    if deleteFault.Some? {
      return Fail(deleteFault.value);
    }
    admins.docs := RemoveAt(admins.docs, target.value);
    r := Ok(true);
  }
}
