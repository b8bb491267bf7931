/**
 * `GET /api/admin/students`: one page of profiles, newest first, each joined
 * with its subscription. The page of profiles and the subscriptions of those
 * students are what the store returned for the route's two lookups.
 */
module Students {
  import opened Common
  import opened Text
  import opened Errors
  import opened Records
  import opened Auth

  /** `Query.search("fullName", search)` when `search` is non-empty, else nothing. */
  function NamePart(search: Option<string>): seq<Query>
  {
    PushedIf(Truthy(search), Search("fullName", OrElse(search, "")))
  }

  /** `Query.equal("yearOfStudy", yearOfStudy)` when it is non-empty, else nothing. */
  function YearPart(year: Option<string>): seq<Query>
  {
    PushedIf(Truthy(year), Equal("yearOfStudy", Text(OrElse(year, ""))))
  }

  /** `Query.equal("program", program)` when `program` is non-empty, else nothing. */
  function ProgramPart(program: Option<string>): seq<Query>
  {
    PushedIf(Truthy(program), Equal("program", Text(OrElse(program, ""))))
  }

  /** The paging start of the list: `limit` (default 10), `offset` (default 0), newest first. */
  function ListingStart(limitParam: Option<string>, offsetParam: Option<string>): seq<Query>
  {
    [Limit(ParseInt(OrElse(limitParam, "10"))), Offset(ParseInt(OrElse(offsetParam, "0"))), OrderDesc("$createdAt")]
  }

  /** The student query list: the paging start, then one filter per non-empty parameter, in this order. */
  function Listing(search: Option<string>, year: Option<string>, program: Option<string>,
                   limitParam: Option<string>, offsetParam: Option<string>): seq<Query>
  {
    ListingStart(limitParam, offsetParam) + NamePart(search) + YearPart(year) + ProgramPart(program)
  }

  /** The query list is built by pushing the optional filters, in order, onto the paging start. */
  method StudentQueries(search: Option<string>, year: Option<string>, program: Option<string>,
                        limitParam: Option<string>, offsetParam: Option<string>)
    returns (queries: seq<Query>)
    ensures queries == Listing(search, year, program, limitParam, offsetParam)
  {
    queries := [Limit(ParseInt(OrElse(limitParam, "10"))), Offset(ParseInt(OrElse(offsetParam, "0"))),
                OrderDesc("$createdAt")];
    queries := PushWhen(queries, Truthy(search), Search("fullName", OrElse(search, "")));
    queries := PushWhen(queries, Truthy(year), Equal("yearOfStudy", Text(OrElse(year, ""))));
    queries := PushWhen(queries, Truthy(program), Equal("program", Text(OrElse(program, ""))));
  }

  /** An absent or empty `limit` reads as 10 and an absent or empty `offset` as 0. */
  lemma PagingDefaults(limitParam: Option<string>, offsetParam: Option<string>)
    ensures !Truthy(limitParam) ==> ParseInt(OrElse(limitParam, "10")) == Some(10)
    ensures !Truthy(offsetParam) ==> ParseInt(OrElse(offsetParam, "0")) == Some(0)
  {
    DefaultNumerals();
  }

  /**
   * The list starts with the page size, the offset (10 and 0 when the parameters are
   * absent or empty) and newest first, and holds nothing but the three optional filters after that.
   */
  lemma ListingShape(search: Option<string>, year: Option<string>, program: Option<string>,
                     limitParam: Option<string>, offsetParam: Option<string>)
    ensures var q := Listing(search, year, program, limitParam, offsetParam);
      && |q| >= 3 && q[0].Limit? && q[1].Offset? && q[2] == OrderDesc("$createdAt")
      && (!Truthy(limitParam) ==> q[0] == Limit(Some(10)))
      && (!Truthy(offsetParam) ==> q[1] == Offset(Some(0)))
      && |q| == 3 + |NamePart(search)| + |YearPart(year)| + |ProgramPart(program)|
  {
    var q := Listing(search, year, program, limitParam, offsetParam);
    PagingDefaults(limitParam, offsetParam);
    assert q[..3] == ListingStart(limitParam, offsetParam);
  }

  /** Of the student queries, only `NamePart(search)` filters on `fullName`. */
  lemma NameFilter(search: Option<string>, year: Option<string>, program: Option<string>,
                  limitParam: Option<string>, offsetParam: Option<string>)
    ensures FiltersOn(Listing(search, year, program, limitParam, offsetParam), "fullName") == NamePart(search)
  {
    ThreePushesFilters(ListingStart(limitParam, offsetParam),
      Truthy(search), Search("fullName", OrElse(search, "")),
      Truthy(year), Equal("yearOfStudy", Text(OrElse(year, ""))),
      Truthy(program), Equal("program", Text(OrElse(program, ""))),
      "fullName", 1);
  }

  /** Of the student queries, only `YearPart(year)` filters on `yearOfStudy`. */
  lemma YearFilter(search: Option<string>, year: Option<string>, program: Option<string>,
                  limitParam: Option<string>, offsetParam: Option<string>)
    ensures FiltersOn(Listing(search, year, program, limitParam, offsetParam), "yearOfStudy") == YearPart(year)
  {
    ThreePushesFilters(ListingStart(limitParam, offsetParam),
      Truthy(search), Search("fullName", OrElse(search, "")),
      Truthy(year), Equal("yearOfStudy", Text(OrElse(year, ""))),
      Truthy(program), Equal("program", Text(OrElse(program, ""))),
      "yearOfStudy", 2);
  }

  /** Of the student queries, only `ProgramPart(program)` filters on `program`. */
  lemma ProgramFilter(search: Option<string>, year: Option<string>, program: Option<string>,
                     limitParam: Option<string>, offsetParam: Option<string>)
    ensures FiltersOn(Listing(search, year, program, limitParam, offsetParam), "program") == ProgramPart(program)
  {
    ThreePushesFilters(ListingStart(limitParam, offsetParam),
      Truthy(search), Search("fullName", OrElse(search, "")),
      Truthy(year), Equal("yearOfStudy", Text(OrElse(year, ""))),
      Truthy(program), Equal("program", Text(OrElse(program, ""))),
      "program", 3);
  }

  /** Every query after the first three filters on exactly one of the three attributes. */
  lemma ListingOnlyFilters(search: Option<string>, year: Option<string>, program: Option<string>,
                           limitParam: Option<string>, offsetParam: Option<string>)
    ensures var q := Listing(search, year, program, limitParam, offsetParam);
      |q| == 3 + |FiltersOn(q, "fullName")| + |FiltersOn(q, "yearOfStudy")| + |FiltersOn(q, "program")|
  {
    ListingShape(search, year, program, limitParam, offsetParam);
    NameFilter(search, year, program, limitParam, offsetParam);
    YearFilter(search, year, program, limitParam, offsetParam);
    ProgramFilter(search, year, program, limitParam, offsetParam);
  }

  /** A profile of the page together with its subscription, if it has one. */
  datatype Student = Student(profile: Profile, subscription: Option<Subscription>)

  /** The reply body: the joined page and the store's count of all matching profiles. */
  datatype StudentPage = StudentPage(students: seq<Student>, total: nat)

  /**
   * `new Map(subscriptions.map(s => [s.userId, s]))`: entries are set in list
   * order, so a later subscription of the same user replaces an earlier one.
   */
  function SubscriptionIndex(subs: seq<Subscription>): (m: map<string, Subscription>)
    ensures forall u :: u in m ==> m[u].userId == u && m[u] in subs
    decreases |subs|
  {
    if subs == [] then map[]
    else
      var last := subs[|subs| - 1];
      SubscriptionIndex(subs[..|subs| - 1])[last.userId := last]
  }

  /** Index of the last document whose `key` equals `k`, if any. */
  function LastWith<T>(s: seq<T>, key: T -> string, k: string): (r: Option<nat>)
    ensures r.Some? ==> r.value < |s| && key(s[r.value]) == k
    ensures r.Some? ==> forall j :: r.value < j < |s| ==> key(s[j]) != k
    ensures r.None? <==> forall j :: 0 <= j < |s| ==> key(s[j]) != k
    decreases |s|
  {
    if s == [] then None
    else if key(s[|s| - 1]) == k then Some(|s| - 1)
    else LastWith(s[..|s| - 1], key, k)
  }

  /** The index holds a user exactly when some subscription is theirs, and then holds the last of them. */
  lemma {:induction false} SubscriptionIndexLastWins(subs: seq<Subscription>, u: string)
    ensures u in SubscriptionIndex(subs) <==> LastWith(subs, SubscriptionUser, u).Some?
    ensures u in SubscriptionIndex(subs) ==> SubscriptionIndex(subs)[u] == subs[LastWith(subs, SubscriptionUser, u).value]
    decreases |subs|
  {
    if subs != [] {
      SubscriptionIndexLastWins(subs[..|subs| - 1], u);
    }
  }

  /** `subMap.get(p.userId) || null` for every profile, in page order. */
  function Join(profiles: seq<Profile>, subs: seq<Subscription>): (r: seq<Student>)
    ensures |r| == |profiles|
    ensures forall i :: 0 <= i < |r| ==> r[i].profile == profiles[i]
  {
    var index := SubscriptionIndex(subs);
    seq(|profiles|, i requires 0 <= i < |profiles| =>
      Student(profiles[i], if profiles[i].userId in index then Some(index[profiles[i].userId]) else None))
  }

  /**
   * Each student keeps the page's order and carries the last subscription
   * whose `userId` is the profile's, or none when there is no such subscription.
   */
  lemma JoinPicksLastSubscription(profiles: seq<Profile>, subs: seq<Subscription>, i: nat)
    requires i < |profiles|
    ensures var s := Join(profiles, subs)[i];
      && s.profile == profiles[i]
      && (s.subscription.None? <==> forall j :: 0 <= j < |subs| ==> subs[j].userId != profiles[i].userId)
      && (s.subscription.Some? ==> s.subscription == Some(subs[LastWith(subs, SubscriptionUser, profiles[i].userId).value]))
  {
    SubscriptionIndexLastWins(subs, profiles[i].userId);
  }

  /**
   * The route after the two lookups: a failure of either gives `error.status || 500`;
   * otherwise the joined page, with `total` the store's count rather than the page length.
   */
  function ListStudents(auth: Result<User, Error>, page: Result<(seq<Profile>, nat), Error>,
                        subs: Result<seq<Subscription>, Error>): (r: Reply<StudentPage>)
    ensures auth.Failure? ==> r == Fail(auth.error)
    ensures auth.Success? && page.Failure? ==> r == Fail(page.error)
    ensures auth.Success? && page.Success? && subs.Failure? ==> r == Fail(subs.error)
    ensures auth.Success? && page.Success? && subs.Success? ==>
      r.Ok? && r.body.total == page.value.1 && |r.body.students| == |page.value.0|
      && forall i :: 0 <= i < |page.value.0| ==> r.body.students[i] == Join(page.value.0, subs.value)[i]
  {
    if auth.Failure? then Fail(auth.error)
    else if page.Failure? then Fail(page.error)
    else if subs.Failure? then Fail(subs.error)
    else Ok(StudentPage(Join(page.value.0, subs.value), page.value.1))
  }
}
