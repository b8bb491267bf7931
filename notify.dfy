/**
 * The server-side notification helper: the message templates and
 * `createNotification`, which stores one unread notification. A failed
 * store is rethrown to the caller.
 */
module Notify {
  import opened Common
  import opened Text
  import opened Errors
  import opened Records

  /** What a template produces, and what `createNotification` takes. */
  datatype NotificationParams = NotificationParams(kind: string, title: string, message: string, targetUrl: Option<string>)

  /** The plural ending the templates append: "s" only for more than one. */
  function PluralEnding(n: int): (r: string)
    ensures r == "s" <==> n > 1
    ensures r == "" <==> n <= 1
  {
    if n > 1 then "s" else ""
  }

  /** `${n}<noun>${n > 1 ? 's' : ''}`: the number, the noun (with its leading space), the plural ending. */
  function CountedPhrase(n: int, noun: string): string
  {
    IntToString(n) + noun + PluralEnding(n)
  }

  /** `newStudentRegistration(studentName, count = 1)`; `count` is `None` when the caller omits it. */
  function NewStudentRegistration(studentName: string, count: Option<int>): (p: NotificationParams)
    ensures p.kind == "info" && p.title == "New Student Registration" && p.targetUrl == Some("/dashboard/students")
  {
    var n := if count.Some? then count.value else 1;
    NotificationParams("info", "New Student Registration",
                       if n == 1 then studentName + " has registered" else IntToString(n) + " new students registered today",
                       Some("/dashboard/students"))
  }

  function SubscriptionExpiring(count: int, days: int): (p: NotificationParams)
    ensures p.kind == "warning" && p.title == "Expiring Subscriptions" && p.targetUrl == Some("/dashboard/students")
  {
    NotificationParams("warning", "Expiring Subscriptions",
                       CountedPhrase(count, " subscription") + " expiring in " + CountedPhrase(days, " day"),
                       Some("/dashboard/students"))
  }

  function SubscriptionExpired(studentName: string): (p: NotificationParams)
    ensures p.kind == "warning" && p.title == "Subscription Expired" && p.targetUrl == Some("/dashboard/students")
    ensures StartsWith(p.message, studentName)
  {
    var m := studentName + "'s subscription has expired";
    assert m[..|studentName|] == studentName;
    NotificationParams("warning", "Subscription Expired", m, Some("/dashboard/students"))
  }

  function ContentUploaded(title: string, program: string, year: string): (p: NotificationParams)
    ensures p.kind == "success" && p.title == "Content Uploaded" && p.targetUrl == Some("/dashboard/content")
  {
    NotificationParams("success", "Content Uploaded",
                       "New content \"" + title + "\" added to " + program + " " + year, Some("/dashboard/content"))
  }

  function AccessCodeGenerated(studentName: string): (p: NotificationParams)
    ensures p.kind == "success" && p.title == "Access Code Generated" && p.targetUrl == Some("/dashboard/access-codes")
  {
    NotificationParams("success", "Access Code Generated", "Access code generated for " + studentName,
                       Some("/dashboard/access-codes"))
  }

  function AccessCodeRedeemed(studentName: string, code: string): (p: NotificationParams)
    ensures p.kind == "info" && p.title == "Access Code Redeemed" && p.targetUrl == Some("/dashboard/access-codes")
    ensures StartsWith(p.message, studentName)
  {
    var m := studentName + " redeemed code " + code;
    assert m[..|studentName|] == studentName;
    NotificationParams("info", "Access Code Redeemed", m, Some("/dashboard/access-codes"))
  }

  function StudentApprovalPending(count: int): (p: NotificationParams)
    ensures p.kind == "warning" && p.title == "Pending Approvals" && p.targetUrl == Some("/dashboard/students")
  {
    NotificationParams("warning", "Pending Approvals",
                       CountedPhrase(count, " student") + " waiting for approval",
                       Some("/dashboard/students"))
  }

  function LowStorageSpace(percentUsed: int): (p: NotificationParams)
    ensures p.kind == "warning" && p.title == "Low Storage Space" && p.targetUrl == Some("/dashboard/settings")
  {
    NotificationParams("warning", "Low Storage Space",
                       "Storage is " + IntToString(percentUsed) + "% full. Consider upgrading your plan.",
                       Some("/dashboard/settings"))
  }

  /**
   * With the default count (or an explicit 1) the message names the student;
   * with any other count it starts with that count, which reads back as a number.
   */
  lemma NewStudentMessage(studentName: string, count: Option<int>)
    ensures count.None? || count == Some(1) ==>
      NewStudentRegistration(studentName, count).message == studentName + " has registered"
    ensures count.Some? && count.value != 1 ==>
      ParseInt(NewStudentRegistration(studentName, count).message) == count
  {
    if count.Some? && count.value != 1 {
      ParseIntOfRendered(count.value, " new students registered today");
    }
  }

  /**
   * A counted phrase followed by more text: the number reads back, and the
   * noun is followed by "s" exactly when the number exceeds one.
   */
  lemma CountedPhraseReadsBack(n: int, noun: string, rest: string)
    requires noun != [] && noun[0] == ' '
    requires rest == [] || rest[0] == ' '
    ensures ParseInt(CountedPhrase(n, noun) + rest) == Some(n)
    ensures StartsWith(CountedPhrase(n, noun) + rest, IntToString(n) + noun + "s") <==> n > 1
  {
    var N := IntToString(n);
    var m := CountedPhrase(n, noun) + rest;
    assert m == N + (noun + PluralEnding(n) + rest);
    ParseIntOfRendered(n, noun + PluralEnding(n) + rest);
    var w := N + noun + "s";
    if n > 1 {
      assert m == w + rest;
      assert m[..|w|] == w;
    } else if rest != [] {
      assert m == N + noun + rest;
      assert m[|N| + |noun|] == ' ';
      assert w[|N| + |noun|] == 's';
    }
  }

  /** A counted phrase ends in "s" exactly when the number exceeds one, for a noun not ending in "s". */
  lemma CountedPhraseEnding(n: int, noun: string)
    requires noun != [] && noun[|noun| - 1] != 's'
    ensures var m := CountedPhrase(n, noun); m[|m| - 1] == 's' <==> n > 1
  {
    var m := CountedPhrase(n, noun);
    if n <= 1 {
      assert m == IntToString(n) + noun;
    }
  }

  /** The expiring-subscriptions message starts with the count, and says "subscriptions" exactly when it exceeds one. */
  lemma SubscriptionExpiringCount(count: int, days: int)
    ensures var m := SubscriptionExpiring(count, days).message;
      && ParseInt(m) == Some(count)
      && (StartsWith(m, IntToString(count) + " subscription" + "s") <==> count > 1)
  {
    var rest := " expiring in " + CountedPhrase(days, " day");
    assert SubscriptionExpiring(count, days).message == CountedPhrase(count, " subscription") + rest;
    assert rest[0] == ' ';
    CountedPhraseReadsBack(count, " subscription", rest);
  }

  /** The expiring-subscriptions message ends in "days" exactly when the number of days exceeds one. */
  lemma SubscriptionExpiringDays(count: int, days: int)
    ensures var m := SubscriptionExpiring(count, days).message; m[|m| - 1] == 's' <==> days > 1
  {
    var d := CountedPhrase(days, " day");
    var m := SubscriptionExpiring(count, days).message;
    assert m == CountedPhrase(count, " subscription") + " expiring in " + d;
    CountedPhraseEnding(days, " day");
    assert m[|m| - 1] == d[|d| - 1];
  }

  /** The pending-approvals message: count first, "students" exactly when the count exceeds one. */
  lemma StudentApprovalPendingMessage(count: int)
    ensures var m := StudentApprovalPending(count).message;
      && ParseInt(m) == Some(count)
      && (StartsWith(m, IntToString(count) + " student" + "s") <==> count > 1)
  {
    CountedPhraseReadsBack(count, " student", " waiting for approval");
  }

  /**
   * `createNotification`: stores an unread notification with `targetUrl || null`;
   * a failed create is rethrown to the caller, and nothing is stored.
   */
  method CreateNotification(notifications: Collection<Notification>, params: NotificationParams,
                            newId: string, now: Millis, fault: Option<Error>)
    returns (r: Result<Notification, Error>)
    modifies notifications
    ensures fault.Some? ==> r == Failure(fault.value) && notifications.docs == old(notifications.docs)
    ensures fault.None? ==>
      && r.Success? && notifications.docs == old(notifications.docs) + [r.value]
      && r.value.id == newId && r.value.kind == params.kind && r.value.title == params.title
      && r.value.message == params.message && !r.value.read && r.value.readAt.None? && r.value.createdAt == now
      && r.value.targetUrl == (if Truthy(params.targetUrl) then params.targetUrl else None)
  {
    if fault.Some? {
      return Failure(fault.value);
    }
    var n := Notification(newId, params.kind, params.title, params.message,
                          if Truthy(params.targetUrl) then params.targetUrl else None, false, None, now);
    notifications.docs := notifications.docs + [n];
    r := Success(n);
  }
}
