/**
 * The documents of the hosted store (profiles, subscriptions, content, access
 * codes, admins, notifications, stored files), the in-memory collections that
 * stand in for the store, and the query values the list routes build.
 *
 * Times are milliseconds since the epoch. Every document's `createdAt` stands
 * for both the store's own `$createdAt` stamp and the app's `createdAt` field,
 * which the routes set from the same clock reading.
 */
module Records {
  import opened Common

  type Millis = int

  datatype SubscriptionStatus = Active | Expired

  datatype Profile = Profile(
    id: string,
    userId: string,
    fullName: string,
    email: string,
    whatsappNumber: string,
    yearOfStudy: string,
    program: string,
    verified: bool,
    adminApproved: bool,
    deviceId: Option<string>,
    createdAt: Millis)

  datatype Subscription = Subscription(
    id: string,
    userId: string,
    status: SubscriptionStatus,
    startDate: Millis,
    endDate: Millis,
    updatedAt: Millis)

  /** A content record; `kind` is the `type` column (PDF, AUDIO, PAST_PAPER, MARKING_KEY). */
  datatype ContentItem = ContentItem(
    id: string,
    title: string,
    description: Option<string>,
    kind: string,
    yearOfStudy: string,
    program: string,
    subject: Option<string>,
    storageFileId: string,
    createdAt: Millis,
    updatedAt: Millis)

  datatype AccessCode = AccessCode(
    id: string,
    code: string,
    durationDays: int,
    isUsed: bool,
    usedByUserId: Option<string>,
    usedAt: Option<Millis>,
    createdAt: Millis)

  datatype AdminRecord = AdminRecord(id: string, userId: string, email: Option<string>, createdAt: Millis)

  /** A notification; `kind` is the `type` column (info, warning, success). */
  datatype Notification = Notification(
    id: string,
    kind: string,
    title: string,
    message: string,
    targetUrl: Option<string>,
    read: bool,
    readAt: Option<Millis>,
    createdAt: Millis)

  /** A file in the storage bucket. */
  datatype StoredFile = StoredFile(id: string, name: string)

  /** One collection (or the storage bucket) of the hosted store, in listing order. */
  class Collection<T> {
    var docs: seq<T>

    constructor (initial: seq<T>)
      ensures docs == initial
    {
      docs := initial;
    }
  }

  // Attributes the routes look documents up by (`Query.equal('userId', …)`, or the id).
  function AdminUser(a: AdminRecord): string { a.userId }
  function SubscriptionUser(s: Subscription): string { s.userId }
  function ProfileUser(p: Profile): string { p.userId }
  function ContentId(c: ContentItem): string { c.id }
  function FileId(f: StoredFile): string { f.id }
  function NotificationId(n: Notification): string { n.id }

  /**
   * Index of the first document whose `key` equals `k`: what a lookup followed by
   * `documents[0]` picks, with `None` for `total === 0`.
   */
  function FirstWith<T>(s: seq<T>, key: T -> string, k: string): (r: Option<nat>)
    ensures r.Some? ==> r.value < |s| && key(s[r.value]) == k
    ensures r.Some? ==> forall j :: 0 <= j < r.value ==> key(s[j]) != k
    ensures r.None? <==> forall j :: 0 <= j < |s| ==> key(s[j]) != k
  {
    if s == [] then None
    else if key(s[0]) == k then Some(0)
    else match FirstWith(s[1..], key, k)
      case None => None
      case Some(j) => Some(j + 1)
  }

  /** The first match depends only on the keys: updating other attributes does not move it. */
  lemma {:induction false} FirstWithSameKeys<T>(a: seq<T>, b: seq<T>, key: T -> string, k: string)
    requires |a| == |b|
    requires forall j :: 0 <= j < |a| ==> key(a[j]) == key(b[j])
    ensures FirstWith(a, key, k) == FirstWith(b, key, k)
    decreases |a|
  {
    if a != [] && key(a[0]) != k {
      FirstWithSameKeys(a[1..], b[1..], key, k);
    }
  }

  /** Number of documents whose `key` equals `k`: the `total` of an equality lookup. */
  function CountWith<T>(s: seq<T>, key: T -> string, k: string): (n: nat)
    ensures n <= |s|
    ensures n == 0 <==> FirstWith(s, key, k).None?
  {
    if s == [] then 0 else (if key(s[0]) == k then 1 else 0) + CountWith(s[1..], key, k)
  }

  /** The collection without its element at `k` (`deleteDocument`). */
  function RemoveAt<T>(s: seq<T>, k: nat): (r: seq<T>)
    requires k < |s|
    ensures |r| == |s| - 1
    ensures forall j :: 0 <= j < k ==> r[j] == s[j]
    ensures forall j :: k <= j < |r| ==> r[j] == s[j + 1]
  {
    s[..k] + s[k + 1..]
  }

  /** Any two documents of `s` differ in `key`. */
  predicate UniqueBy<T>(s: seq<T>, key: T -> string)
  {
    forall i, j :: 0 <= i < j < |s| ==> key(s[i]) != key(s[j])
  }

  /** A scalar a query compares an attribute with. */
  datatype Value = Text(s: string) | Flag(b: bool)

  /**
   * One query of a `listDocuments` call. A `Limit` or `Offset` holds the number
   * `parseInt` gave, `None` standing for NaN.
   */
  datatype Query =
    | OrderDesc(attribute: string)
    | Limit(n: Option<int>)
    | Offset(n: Option<int>)
    | Equal(attribute: string, value: Value)
    | Search(attribute: string, text: string)

  /** An equality or full-text query on `attribute`. */
  predicate Filters(q: Query, attribute: string)
  {
    (q.Equal? || q.Search?) && q.attribute == attribute
  }

  /** The queries of `qs` that filter on `attribute`, in order. */
  function FiltersOn(qs: seq<Query>, attribute: string): (r: seq<Query>)
    ensures |r| <= |qs|
    ensures forall i :: 0 <= i < |r| ==> Filters(r[i], attribute)
  {
    if qs == [] then []
    else
      var head := if Filters(qs[0], attribute) then [qs[0]] else [];
      head + FiltersOn(qs[1..], attribute)
  }

  /** One query when the parameter is present (`if (x) queries.push(q)`), none otherwise. */
  function PushedIf(present: bool, q: Query): seq<Query>
  {
    if present then [q] else []
  }

  /** `if (present) queries.push(q)`, on a query list held by value. */
  method PushWhen(queries: seq<Query>, present: bool, q: Query) returns (r: seq<Query>)
    ensures r == queries + PushedIf(present, q)
  {
    r := queries;
    if present {
      r := r + [q];
    }
  }

  /** Filtering distributes over concatenation: appending queries appends their filters. */
  lemma {:induction false} FiltersOnAppend(a: seq<Query>, b: seq<Query>, attribute: string)
    ensures FiltersOn(a + b, attribute) == FiltersOn(a, attribute) + FiltersOn(b, attribute)
    decreases |a|
  {
    if a == [] {
      assert a + b == b;
    } else {
      assert (a + b)[0] == a[0];
      assert (a + b)[1..] == a[1..] + b;
      FiltersOnAppend(a[1..], b, attribute);
    }
  }

  /** Ordering, limit and offset queries filter on nothing. */
  lemma {:induction false} NoFiltersOn(qs: seq<Query>, attribute: string)
    requires forall i :: 0 <= i < |qs| ==> qs[i].OrderDesc? || qs[i].Limit? || qs[i].Offset?
    ensures FiltersOn(qs, attribute) == []
    decreases |qs|
  {
    if qs != [] {
      NoFiltersOn(qs[1..], attribute);
    }
  }

  /**
   * Of four optional queries pushed onto a list that filters on nothing, the one at
   * position `k` (1 to 4) is the only one on `attribute`: the filters on it are that push alone.
   */
  lemma FourPushesFilters(base: seq<Query>, b1: bool, q1: Query, b2: bool, q2: Query, b3: bool, q3: Query,
                          b4: bool, q4: Query, attribute: string, k: nat)
    requires 1 <= k <= 4
    requires forall i :: 0 <= i < |base| ==> base[i].OrderDesc? || base[i].Limit? || base[i].Offset?
    requires Filters(q1, attribute) <==> k == 1
    requires Filters(q2, attribute) <==> k == 2
    requires Filters(q3, attribute) <==> k == 3
    requires Filters(q4, attribute) <==> k == 4
    ensures FiltersOn(base + PushedIf(b1, q1) + PushedIf(b2, q2) + PushedIf(b3, q3) + PushedIf(b4, q4), attribute)
         == (if k == 1 then PushedIf(b1, q1) else if k == 2 then PushedIf(b2, q2)
             else if k == 3 then PushedIf(b3, q3) else PushedIf(b4, q4))
  {
    NoFiltersOn(base, attribute);
    var s1 := base + PushedIf(b1, q1);
    var s2 := s1 + PushedIf(b2, q2);
    var s3 := s2 + PushedIf(b3, q3);
    PushedFilters(base, b1, q1, attribute);
    PushedFilters(s1, b2, q2, attribute);
    PushedFilters(s2, b3, q3, attribute);
    PushedFilters(s3, b4, q4, attribute);
  }

  /** The same for three optional queries: the filters on `attribute` are the push at position `k` (1 to 3). */
  lemma ThreePushesFilters(base: seq<Query>, b1: bool, q1: Query, b2: bool, q2: Query, b3: bool, q3: Query,
                           attribute: string, k: nat)
    requires 1 <= k <= 3
    requires forall i :: 0 <= i < |base| ==> base[i].OrderDesc? || base[i].Limit? || base[i].Offset?
    requires Filters(q1, attribute) <==> k == 1
    requires Filters(q2, attribute) <==> k == 2
    requires Filters(q3, attribute) <==> k == 3
    ensures FiltersOn(base + PushedIf(b1, q1) + PushedIf(b2, q2) + PushedIf(b3, q3), attribute)
         == (if k == 1 then PushedIf(b1, q1) else if k == 2 then PushedIf(b2, q2) else PushedIf(b3, q3))
  {
    NoFiltersOn(base, attribute);
    var s1 := base + PushedIf(b1, q1);
    var s2 := s1 + PushedIf(b2, q2);
    PushedFilters(base, b1, q1, attribute);
    PushedFilters(s1, b2, q2, attribute);
    PushedFilters(s2, b3, q3, attribute);
  }

  /** The same for two optional queries: the filters on `attribute` are the push at position `k` (1 or 2). */
  lemma TwoPushesFilters(base: seq<Query>, b1: bool, q1: Query, b2: bool, q2: Query, attribute: string, k: nat)
    requires 1 <= k <= 2
    requires forall i :: 0 <= i < |base| ==> base[i].OrderDesc? || base[i].Limit? || base[i].Offset?
    requires Filters(q1, attribute) <==> k == 1
    requires Filters(q2, attribute) <==> k == 2
    ensures FiltersOn(base + PushedIf(b1, q1) + PushedIf(b2, q2), attribute)
         == (if k == 1 then PushedIf(b1, q1) else PushedIf(b2, q2))
  {
    NoFiltersOn(base, attribute);
    PushedFilters(base, b1, q1, attribute);
    PushedFilters(base + PushedIf(b1, q1), b2, q2, attribute);
  }

  /** Pushing `q` when `present` adds it to the filters on `attribute` exactly when it filters on that attribute. */
  lemma PushedFilters(qs: seq<Query>, present: bool, q: Query, attribute: string)
    ensures FiltersOn(qs + PushedIf(present, q), attribute)
         == FiltersOn(qs, attribute) + (if Filters(q, attribute) then PushedIf(present, q) else [])
  {
    FiltersOnAppend(qs, PushedIf(present, q), attribute);
    if present {
      assert [q][1..] == [];
    }
  }
}
