/**
 * Admin updates of one student profile: `POST /api/admin/approveUser` (set
 * the approval flag to the value sent) and `POST /api/admin/resetDevice`
 * (clear the bound device). Both act on the first profile of the user and
 * answer 404 when there is none.
 */
module Profiles {
  import opened Common
  import opened Text
  import opened Errors
  import opened Records
  import opened Auth

  /** The profiles after setting `adminApproved` of the user's first profile to `approved`. */
  function SetApproval(docs: seq<Profile>, userId: string, approved: bool): (r: seq<Profile>)
    ensures |r| == |docs|
    ensures forall j :: 0 <= j < |docs| ==> r[j] == docs[j] || r[j] == docs[j].(adminApproved := approved)
    ensures FirstWith(docs, ProfileUser, userId).None? ==> r == docs
    ensures FirstWith(docs, ProfileUser, userId).Some? ==>
      var k := FirstWith(docs, ProfileUser, userId).value;
      r[k] == docs[k].(adminApproved := approved) && forall j :: 0 <= j < |docs| && j != k ==> r[j] == docs[j]
  {
    match FirstWith(docs, ProfileUser, userId)
    case None => docs
    case Some(k) => docs[k := docs[k].(adminApproved := approved)]
  }

  /** The profiles after clearing `deviceId` of the user's first profile. */
  function ClearDevice(docs: seq<Profile>, userId: string): (r: seq<Profile>)
    ensures |r| == |docs|
    ensures forall j :: 0 <= j < |docs| ==> r[j] == docs[j] || r[j] == docs[j].(deviceId := None)
    ensures FirstWith(docs, ProfileUser, userId).None? ==> r == docs
    ensures FirstWith(docs, ProfileUser, userId).Some? ==>
      var k := FirstWith(docs, ProfileUser, userId).value;
      r[k] == docs[k].(deviceId := None) && forall j :: 0 <= j < |docs| && j != k ==> r[j] == docs[j]
  {
    match FirstWith(docs, ProfileUser, userId)
    case None => docs
    case Some(k) => docs[k := docs[k].(deviceId := None)]
  }

  /** The server sets the flag, it does not toggle it: the last value sent wins. */
  lemma ApprovalLastWriteWins(docs: seq<Profile>, userId: string, v1: bool, v2: bool)
    ensures SetApproval(SetApproval(docs, userId, v1), userId, v2) == SetApproval(docs, userId, v2)
  {
    FirstWithSameKeys(docs, SetApproval(docs, userId, v1), ProfileUser, userId);
  }

  /** Resetting a device twice leaves the same profiles as resetting it once. */
  lemma ResetDeviceIdempotent(docs: seq<Profile>, userId: string)
    ensures ClearDevice(ClearDevice(docs, userId), userId) == ClearDevice(docs, userId)
  {
    FirstWithSameKeys(docs, ClearDevice(docs, userId), ProfileUser, userId);
  }

  /** `approveUser`: `userId` is required; `approved` is written as sent. */
  method ApproveUser(profiles: Collection<Profile>, auth: Result<User, Error>, userId: Option<string>,
                     approved: bool, lookupFault: Option<Error>, writeFault: Option<Error>)
    returns (r: Reply<bool>)
    modifies profiles
    ensures auth.Failure? ==> r == Fail(auth.error) && profiles.docs == old(profiles.docs)
    ensures auth.Success? && !Truthy(userId) ==>
      r == Refused(400, "userId is required") && profiles.docs == old(profiles.docs)
    ensures auth.Success? && Truthy(userId) && lookupFault.Some? ==>
      r == Fail(lookupFault.value) && profiles.docs == old(profiles.docs)
    ensures auth.Success? && Truthy(userId) && lookupFault.None?
            && FirstWith(old(profiles.docs), ProfileUser, userId.value).None? ==>
      r == Refused(404, "Profile not found") && profiles.docs == old(profiles.docs)
    ensures auth.Success? && Truthy(userId) && lookupFault.None?
            && FirstWith(old(profiles.docs), ProfileUser, userId.value).Some? && writeFault.Some? ==>
      r == Fail(writeFault.value) && profiles.docs == old(profiles.docs)
    ensures auth.Success? && Truthy(userId) && lookupFault.None?
            && FirstWith(old(profiles.docs), ProfileUser, userId.value).Some? && writeFault.None? ==>
      r == Ok(true) && profiles.docs == SetApproval(old(profiles.docs), userId.value, approved)
  {
    if auth.Failure? {
      return Fail(auth.error);
    }
    if !Truthy(userId) {
      return Refused(400, "userId is required");
    }
    if lookupFault.Some? {
      return Fail(lookupFault.value);
    }
    var first := FirstWith(profiles.docs, ProfileUser, userId.value);
    if first.None? {
      return Refused(404, "Profile not found");
    }
    if writeFault.Some? {
      return Fail(writeFault.value);
    }
    var k := first.value;
    profiles.docs := profiles.docs[k := profiles.docs[k].(adminApproved := approved)];
    r := Ok(true);
  }

  /** `resetDevice`: `userId` is not checked for presence before the lookup. */
  method ResetDevice(profiles: Collection<Profile>, auth: Result<User, Error>, userId: string,
                     lookupFault: Option<Error>, writeFault: Option<Error>)
    returns (r: Reply<bool>)
    modifies profiles
    ensures auth.Failure? ==> r == Fail(auth.error) && profiles.docs == old(profiles.docs)
    ensures auth.Success? && lookupFault.Some? ==>
      r == Fail(lookupFault.value) && profiles.docs == old(profiles.docs)
    ensures auth.Success? && lookupFault.None? && FirstWith(old(profiles.docs), ProfileUser, userId).None? ==>
      r == Refused(404, "Profile not found") && profiles.docs == old(profiles.docs)
    ensures auth.Success? && lookupFault.None? && FirstWith(old(profiles.docs), ProfileUser, userId).Some?
            && writeFault.Some? ==>
      r == Fail(writeFault.value) && profiles.docs == old(profiles.docs)
    ensures auth.Success? && lookupFault.None? && FirstWith(old(profiles.docs), ProfileUser, userId).Some?
            && writeFault.None? ==>
      r == Ok(true) && profiles.docs == ClearDevice(old(profiles.docs), userId)
  {
    if auth.Failure? {
      return Fail(auth.error);
    }
    if lookupFault.Some? {
      return Fail(lookupFault.value);
    }
    var first := FirstWith(profiles.docs, ProfileUser, userId);
    if first.None? {
      return Refused(404, "Profile not found");
    }
    if writeFault.Some? {
      return Fail(writeFault.value);
    }
    var k := first.value;
    profiles.docs := profiles.docs[k := profiles.docs[k].(deviceId := None)];
    r := Ok(true);
  }
}
