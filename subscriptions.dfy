/**
 * The subscription lifecycle driven by admins: `POST /api/admin/extendSubscription`
 * (create an ACTIVE subscription, or move the end date of the existing one)
 * and `POST /api/admin/expireSubscription` (force EXPIRED now). Dates are
 * milliseconds; a day is 24 hours.
 */
module Subscriptions {
  import opened Common
  import opened Errors
  import opened Records
  import opened Auth

  const DayMs: int := 24 * 60 * 60 * 1000

  /**
   * The new end date: the later of the current end date and now, plus `days`.
   * A lapsed subscription restarts from now rather than stacking on its old end.
   */
  function NewEndDate(currentEnd: Millis, now: Millis, days: int): (r: Millis)
    ensures r - days * DayMs >= now && r - days * DayMs >= currentEnd
    ensures r - days * DayMs == now || r - days * DayMs == currentEnd
  {
    (if currentEnd > now then currentEnd else now) + days * DayMs
  }

  /** The subscription after an extension by `days` at `now`. */
  function Extended(s: Subscription, now: Millis, days: int): (e: Subscription)
    ensures e.id == s.id && e.userId == s.userId && e.startDate == s.startDate
    ensures e.status == Active && e.updatedAt == now
    ensures e.endDate == NewEndDate(s.endDate, now, days)
  {
    s.(status := Active, endDate := NewEndDate(s.endDate, now, days), updatedAt := now)
  }

  /** The subscription after a forced expiry at `now`. */
  function ForceExpired(s: Subscription, now: Millis): (e: Subscription)
    ensures e.id == s.id && e.userId == s.userId && e.startDate == s.startDate
    ensures e.status == Expired && e.endDate == now && e.updatedAt == now
  {
    s.(status := Expired, endDate := now, updatedAt := now)
  }

  /**
   * EXPIRED is not terminal: extending an expired subscription at any later
   * time reactivates it for exactly `days` from that time.
   */
  lemma ExtendAfterExpiry(s: Subscription, t0: Millis, t1: Millis, days: int)
    requires t0 <= t1
    ensures Extended(ForceExpired(s, t0), t1, days).status == Active
    ensures Extended(ForceExpired(s, t0), t1, days).endDate == t1 + days * DayMs
  {
  }

  /** Extending twice adds up when the first extension already reaches past the second call's time. */
  lemma ExtensionsStack(s: Subscription, t0: Millis, t1: Millis, d0: int, d1: int)
    requires t1 < NewEndDate(s.endDate, t0, d0)
    ensures Extended(Extended(s, t0, d0), t1, d1).endDate == NewEndDate(s.endDate, t0, d0) + d1 * DayMs
  {
  }

  /**
   * `extendSubscription`: neither `userId` nor `days` is validated. Without a
   * subscription for the user one is created; otherwise only the first one's
   * status, end date and update time change. The reply's `newEndDate` is the
   * end date written.
   */
  method Extend(subs: Collection<Subscription>, auth: Result<User, Error>, userId: string, days: int,
                now: Millis, newId: string, lookupFault: Option<Error>, writeFault: Option<Error>)
    returns (r: Reply<Millis>)
    modifies subs
    ensures auth.Failure? ==> r == Fail(auth.error) && subs.docs == old(subs.docs)
    ensures auth.Success? && lookupFault.Some? ==> r == Fail(lookupFault.value) && subs.docs == old(subs.docs)
    ensures auth.Success? && lookupFault.None? && writeFault.Some? ==>
      r == Fail(writeFault.value) && subs.docs == old(subs.docs)
    ensures auth.Success? && lookupFault.None? && writeFault.None? ==>
      match FirstWith(old(subs.docs), SubscriptionUser, userId)
      case None =>
        var created := Subscription(newId, userId, Active, now, now + days * DayMs, now);
        subs.docs == old(subs.docs) + [created] && r == Ok(created.endDate)
      case Some(k) =>
        var updated := Extended(old(subs.docs)[k], now, days);
        subs.docs == old(subs.docs)[k := updated] && r == Ok(updated.endDate)
  {
    if auth.Failure? {
      return Fail(auth.error);
    }
    if lookupFault.Some? {
      return Fail(lookupFault.value);
    }
    var first := FirstWith(subs.docs, SubscriptionUser, userId);
    if first.None? {
      var newEndDate := now + days * DayMs;
      if writeFault.Some? {
        return Fail(writeFault.value);
      }
      subs.docs := subs.docs + [Subscription(newId, userId, Active, now, newEndDate, now)];
      r := Ok(newEndDate);
    } else {
      var sub := subs.docs[first.value];
      var baseDate := if sub.endDate > now then sub.endDate else now;
      var newEndDate := baseDate + days * DayMs;
      if writeFault.Some? {
        return Fail(writeFault.value);
      }
      subs.docs := subs.docs[first.value := sub.(status := Active, endDate := newEndDate, updatedAt := now)];
      r := Ok(newEndDate);
    }
  }

  /**
   * `expireSubscription`: 404 without a subscription for the user; otherwise
   * the first one is marked EXPIRED with end date now, whatever its status.
   */
  method Expire(subs: Collection<Subscription>, auth: Result<User, Error>, userId: string, now: Millis,
                lookupFault: Option<Error>, writeFault: Option<Error>)
    returns (r: Reply<bool>)
    modifies subs
    ensures auth.Failure? ==> r == Fail(auth.error) && subs.docs == old(subs.docs)
    ensures auth.Success? && lookupFault.Some? ==> r == Fail(lookupFault.value) && subs.docs == old(subs.docs)
    ensures auth.Success? && lookupFault.None? && FirstWith(old(subs.docs), SubscriptionUser, userId).None? ==>
      r == Refused(404, "Subscription not found") && subs.docs == old(subs.docs)
    ensures auth.Success? && lookupFault.None? && FirstWith(old(subs.docs), SubscriptionUser, userId).Some?
            && writeFault.Some? ==>
      r == Fail(writeFault.value) && subs.docs == old(subs.docs)
    ensures auth.Success? && lookupFault.None? && FirstWith(old(subs.docs), SubscriptionUser, userId).Some?
            && writeFault.None? ==>
      var k := FirstWith(old(subs.docs), SubscriptionUser, userId).value;
      r == Ok(true) && subs.docs == old(subs.docs)[k := ForceExpired(old(subs.docs)[k], now)]
  {
    if auth.Failure? {
      return Fail(auth.error);
    }
    if lookupFault.Some? {
      return Fail(lookupFault.value);
    }
    var first := FirstWith(subs.docs, SubscriptionUser, userId);
    if first.None? {
      return Refused(404, "Subscription not found");
    }
    if writeFault.Some? {
      return Fail(writeFault.value);
    }
    var k := first.value;
    subs.docs := subs.docs[k := subs.docs[k].(status := Expired, endDate := now, updatedAt := now)];
    r := Ok(true);
  }
}
