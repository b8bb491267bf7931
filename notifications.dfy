/**
 * Admin notification routes: `GET`/`POST`/`PATCH /api/admin/notifications`
 * and `POST /api/admin/notifications/mark-all-read`. All four report errors
 * with the auth-aware status rule.
 */
module Notifications {
  import opened Common
  import opened Text
  import opened Errors
  import opened Records
  import opened Auth

  /** `Query.equal("type", type)` when `type` is non-empty and not "all", else nothing. */
  function TypePart(kind: Option<string>): seq<Query>
  {
    PushedIf(Truthy(kind) && kind.value != "all", Equal("type", Text(OrElse(kind, ""))))
  }

  /** `Query.equal("read", false)` when `unreadOnly` is exactly "true", else nothing. */
  function UnreadPart(unreadOnly: Option<string>): seq<Query>
  {
    PushedIf(unreadOnly == Some("true"), Equal("read", Flag(false)))
  }

  /** The queries every listing starts with: newest first, at most 50. */
  const ListingBase: seq<Query> := [OrderDesc("$createdAt"), Limit(Some(50))]

  /** The listing's query list: the fixed start, then the type filter and the unread filter when they apply. */
  function Listing(kind: Option<string>, unreadOnly: Option<string>): seq<Query>
  {
    ListingBase + TypePart(kind) + UnreadPart(unreadOnly)
  }

  /** `GET`: the query list is built by pushing the optional filters, in order, onto the fixed start. */
  method NotificationQueries(kind: Option<string>, unreadOnly: Option<string>) returns (queries: seq<Query>)
    ensures queries == Listing(kind, unreadOnly)
  {
    queries := ListingBase;
    queries := PushWhen(queries, Truthy(kind) && kind.value != "all", Equal("type", Text(OrElse(kind, ""))));
    queries := PushWhen(queries, unreadOnly == Some("true"), Equal("read", Flag(false)));
  }

  /** The listing starts newest first and capped at 50, and holds nothing but the two optional filters after that. */
  lemma ListingShape(kind: Option<string>, unreadOnly: Option<string>)
    ensures var q := Listing(kind, unreadOnly);
      && |q| >= 2 && q[0] == OrderDesc("$createdAt") && q[1] == Limit(Some(50))
      && |q| == 2 + |TypePart(kind)| + |UnreadPart(unreadOnly)|
  {
    var q := Listing(kind, unreadOnly);
    assert q[..2] == ListingBase;
  }

  /** Of the notification queries, only `TypePart(kind)` filters on `type`. */
  lemma TypeFilter(kind: Option<string>, unreadOnly: Option<string>)
    ensures FiltersOn(Listing(kind, unreadOnly), "type") == TypePart(kind)
  {
    TwoPushesFilters(ListingBase,
      Truthy(kind) && kind.value != "all", Equal("type", Text(OrElse(kind, ""))),
      unreadOnly == Some("true"), Equal("read", Flag(false)),
      "type", 1);
  }

  /** Of the notification queries, only `UnreadPart(unreadOnly)` filters on `read`. */
  lemma UnreadFilter(kind: Option<string>, unreadOnly: Option<string>)
    ensures FiltersOn(Listing(kind, unreadOnly), "read") == UnreadPart(unreadOnly)
  {
    TwoPushesFilters(ListingBase,
      Truthy(kind) && kind.value != "all", Equal("type", Text(OrElse(kind, ""))),
      unreadOnly == Some("true"), Equal("read", Flag(false)),
      "read", 2);
  }

  /** Every query after the first two filters on exactly one of `type` and `read`. */
  lemma ListingOnlyFilters(kind: Option<string>, unreadOnly: Option<string>)
    ensures var q := Listing(kind, unreadOnly);
      |q| == 2 + |FiltersOn(q, "type")| + |FiltersOn(q, "read")|
  {
    ListingShape(kind, unreadOnly);
    TypeFilter(kind, unreadOnly);
    UnreadFilter(kind, unreadOnly);
  }

  /** `POST`: 400 unless type, title and message are all non-empty; then one new unread notification. */
  method PostNotification(notifications: Collection<Notification>, auth: Result<User, Error>,
                          kind: Option<string>, title: Option<string>, message: Option<string>,
                          targetUrl: Option<string>, newId: string, now: Millis, fault: Option<Error>)
    returns (r: Reply<Notification>)
    modifies notifications
    ensures auth.Failure? ==> r == FailAuthAware(auth.error) && notifications.docs == old(notifications.docs)
    ensures auth.Success? && !(Truthy(kind) && Truthy(title) && Truthy(message)) ==>
      r == Refused(400, "type, title, and message are required") && notifications.docs == old(notifications.docs)
    ensures auth.Success? && Truthy(kind) && Truthy(title) && Truthy(message) && fault.Some? ==>
      r == FailAuthAware(fault.value) && notifications.docs == old(notifications.docs)
    ensures auth.Success? && Truthy(kind) && Truthy(title) && Truthy(message) && fault.None? ==>
      && r.Ok? && notifications.docs == old(notifications.docs) + [r.body]
      && r.body == Notification(newId, kind.value, title.value, message.value,
                                if Truthy(targetUrl) then targetUrl else None, false, None, now)
  {
    if auth.Failure? {
      return FailAuthAware(auth.error);
    }
    if !Truthy(kind) || !Truthy(title) || !Truthy(message) {
      return Refused(400, "type, title, and message are required");
    }
    if fault.Some? {
      return FailAuthAware(fault.value);
    }
    var n := Notification(newId, kind.value, title.value, message.value,
                          if Truthy(targetUrl) then targetUrl else None, false, None, now);
    notifications.docs := notifications.docs + [n];
    r := Ok(n);
  }

  /**
   * `PATCH`: 400 without an id; `read` is written as sent (true when omitted)
   * and `readAt` is stamped in both directions, also when marking unread.
   * An unknown id is the store's not-found error, which carries no status and
   * so is answered with 500.
   */
  method PatchNotification(notifications: Collection<Notification>, auth: Result<User, Error>,
                           notificationId: Option<string>, read: Option<bool>, now: Millis, fault: Option<Error>)
    returns (r: Reply<Notification>)
    modifies notifications
    ensures auth.Failure? ==> r == FailAuthAware(auth.error) && notifications.docs == old(notifications.docs)
    ensures auth.Success? && !Truthy(notificationId) ==>
      r == Refused(400, "notificationId is required") && notifications.docs == old(notifications.docs)
    ensures auth.Success? && Truthy(notificationId) && fault.Some? ==>
      r == FailAuthAware(fault.value) && notifications.docs == old(notifications.docs)
    ensures auth.Success? && Truthy(notificationId) && fault.None?
            && FirstWith(old(notifications.docs), NotificationId, notificationId.value).None? ==>
      r == FailAuthAware(DocumentNotFound) && r == Refused(500, DocumentNotFound.message)
      && notifications.docs == old(notifications.docs)
    ensures auth.Success? && Truthy(notificationId) && fault.None?
            && FirstWith(old(notifications.docs), NotificationId, notificationId.value).Some? ==>
      var k := FirstWith(old(notifications.docs), NotificationId, notificationId.value).value;
      && r.Ok? && r.body.read == (read.None? || read.value) && r.body.readAt == Some(now)
      && r.body == old(notifications.docs)[k].(read := r.body.read, readAt := Some(now))
      && notifications.docs == old(notifications.docs)[k := r.body]
  {
    if auth.Failure? {
      return FailAuthAware(auth.error);
    }
    if !Truthy(notificationId) {
      return Refused(400, "notificationId is required");
    }
    if fault.Some? {
      return FailAuthAware(fault.value);
    }
    var k := FirstWith(notifications.docs, NotificationId, notificationId.value);
    if k.None? {
      DocumentNotFoundStatuses();
      return FailAuthAware(DocumentNotFound);
    }
    var updated := notifications.docs[k.value].(read := if read.Some? then read.value else true, readAt := Some(now));
    notifications.docs := notifications.docs[k.value := updated];
    r := Ok(updated);
  }

  /** Number of unread notifications in `s`. */
  function CountUnread(s: seq<Notification>): (n: nat)
    ensures n <= |s|
  {
    if s == [] then 0 else CountUnread(s[..|s| - 1]) + (if s[|s| - 1].read then 0 else 1)
  }

  lemma CountUnreadStep(s: seq<Notification>, j: nat)
    requires j < |s|
    ensures CountUnread(s[..j + 1]) == CountUnread(s[..j]) + (if s[j].read then 0 else 1)
  {
    assert s[..j + 1][..j] == s[..j];
  }

  /** The notification as the bulk update leaves it. */
  function MarkedRead(n: Notification, now: Millis): Notification
  {
    n.(read := true, readAt := Some(now))
  }

  /**
   * The i-th notification after the bulk update: an unread one becomes read
   * unless the update of its turn among the unread ones failed.
   */
  function BulkUpdated(docs: seq<Notification>, i: nat, faults: nat -> Option<Error>, now: Millis): (r: Notification)
    requires i < |docs|
    ensures r == docs[i] || r == docs[i].(read := true, readAt := Some(now))
    ensures docs[i].read ==> r == docs[i]
    ensures !docs[i].read ==> (r.read <==> faults(CountUnread(docs[..i])).None?)
  {
    if docs[i].read || faults(CountUnread(docs[..i])).Some? then docs[i] else MarkedRead(docs[i], now)
  }

  /**
   * `mark-all-read`: every unread notification is fetched and updated to read,
   * stamped with the current time; the u-th unread one (in listing order) is
   * updated unless `faults(u)` says its update failed. Read ones are not touched.
   * The reply is the count of fetched notifications, or the first failure.
   */
  method MarkAllRead(notifications: Collection<Notification>, auth: Result<User, Error>,
                     lookupFault: Option<Error>, faults: nat -> Option<Error>, now: Millis)
    returns (r: Reply<nat>)
    modifies notifications
    ensures auth.Failure? || lookupFault.Some? ==> notifications.docs == old(notifications.docs)
    ensures auth.Failure? ==> r == FailAuthAware(auth.error)
    ensures auth.Success? && lookupFault.Some? ==> r == FailAuthAware(lookupFault.value)
    ensures auth.Success? && lookupFault.None? ==>
      && |notifications.docs| == |old(notifications.docs)|
      && (forall j :: 0 <= j < |old(notifications.docs)| ==>
            notifications.docs[j] == BulkUpdated(old(notifications.docs), j, faults, now))
      && r == match FirstFault(faults, CountUnread(old(notifications.docs)))
              case Some(e) => FailAuthAware(e)
              case None => Ok(CountUnread(old(notifications.docs)))
  {
    if auth.Failure? {
      return FailAuthAware(auth.error);
    }
    if lookupFault.Some? {
      return FailAuthAware(lookupFault.value);
    }
    var count, failure := UpdateUnread(notifications, faults, now);
    r := if failure.Some? then FailAuthAware(failure.value) else Ok(count);
  }

  /**
   * The `map` over the fetched unread notifications, one update each, and the
   * wait for all of them: returns how many were fetched and the first failure.
   */
  method UpdateUnread(notifications: Collection<Notification>, faults: nat -> Option<Error>, now: Millis)
    returns (count: nat, failure: Option<Error>)
    modifies notifications
    ensures |notifications.docs| == |old(notifications.docs)|
    ensures forall j :: 0 <= j < |old(notifications.docs)| ==>
      notifications.docs[j] == BulkUpdated(old(notifications.docs), j, faults, now)
    ensures count == CountUnread(old(notifications.docs))
    ensures failure == FirstFault(faults, count)
  {
    var docs := notifications.docs;
    failure := None;
    count := 0;
    var j := 0;
    while j < |docs|
      invariant 0 <= j <= |docs| == |old(notifications.docs)|
      invariant count == CountUnread(old(notifications.docs)[..j])
      invariant failure == FirstFault(faults, count)
      invariant forall i :: 0 <= i < j ==> docs[i] == BulkUpdated(old(notifications.docs), i, faults, now)
      invariant forall i :: j <= i < |docs| ==> docs[i] == old(notifications.docs)[i]
    {
      CountUnreadStep(old(notifications.docs), j);
      var doc := docs[j];
      if !doc.read {
        if faults(count).None? {
          doc := MarkedRead(doc, now);
        } else if failure.None? {
          failure := faults(count);
        }
        count := count + 1;
      }
      docs := docs[j := doc];
      j := j + 1;
    }
    assert old(notifications.docs)[..j] == old(notifications.docs);
    notifications.docs := docs;
  }

  /** When no update fails, nothing is left unread. */
  lemma {:induction false} NoneUnreadAfter(before: seq<Notification>, after: seq<Notification>, now: Millis)
    requires |after| == |before|
    requires forall j :: 0 <= j < |before| ==> after[j] == if before[j].read then before[j] else MarkedRead(before[j], now)
    ensures CountUnread(after) == 0
    decreases |before|
  {
    if before != [] {
      var k := |before| - 1;
      NoneUnreadAfter(before[..k], after[..k], now);
    }
  }

  /**
   * Two calls in a row without failures: the first reports the unread count
   * and leaves none unread, so the second updates nothing and reports 0.
   */
  method MarkAllReadTwice(initial: seq<Notification>, admin: User, t1: Millis, t2: Millis)
    returns (first: Reply<nat>, second: Reply<nat>, after: seq<Notification>, final: seq<Notification>)
    ensures first == Ok(CountUnread(initial))
    ensures second == Ok(0)
    ensures final == after
    ensures CountUnread(after) == 0 && |after| == |initial|
    ensures forall j :: 0 <= j < |initial| ==> after[j] == if initial[j].read then initial[j] else MarkedRead(initial[j], t1)
  {
    var store := new Collection(initial);
    var noFault: nat -> Option<Error> := _ => None;
    first := MarkAllRead(store, Success(admin), None, noFault, t1);
    after := store.docs;
    NoneUnreadAfter(initial, after, t1);
    second := MarkAllRead(store, Success(admin), None, noFault, t2);
    final := store.docs;
  }
}
