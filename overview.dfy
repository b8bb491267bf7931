/**
 * `GET /api/admin/overview`: five counts, the recent-activity feed and two
 * chart series. The counts and the two recent lists (at most five newest
 * profiles and five newest content records) are what the store returned.
 */
module Overview {
  import opened Common
  import opened Errors
  import opened Records
  import opened Auth

  datatype ActivityKind = ProfileActivity | ContentActivity

  /** One feed entry; `timestamp` is the document's creation time. */
  datatype ActivityItem = ActivityItem(id: string, kind: ActivityKind, description: string, timestamp: Millis)

  function ProfileItem(p: Profile): (a: ActivityItem)
    ensures a.kind == ProfileActivity && a.timestamp == p.createdAt && a.id == p.id
    ensures a.description == "New student registered: " + p.fullName
  {
    ActivityItem(p.id, ProfileActivity, "New student registered: " + p.fullName, p.createdAt)
  }

  function ContentItemActivity(c: ContentItem): (a: ActivityItem)
    ensures a.kind == ContentActivity && a.timestamp == c.createdAt && a.id == c.id
    ensures a.description == "New content added: " + c.title
  {
    ActivityItem(c.id, ContentActivity, "New content added: " + c.title, c.createdAt)
  }

  /** The profile entries followed by the content entries, each list in its own order. */
  function Merged(profiles: seq<Profile>, contents: seq<ContentItem>): (r: seq<ActivityItem>)
    ensures |r| == |profiles| + |contents|
    ensures forall i :: 0 <= i < |profiles| ==> r[i] == ProfileItem(profiles[i])
    ensures forall i :: 0 <= i < |contents| ==> r[|profiles| + i] == ContentItemActivity(contents[i])
  {
    seq(|profiles|, i requires 0 <= i < |profiles| => ProfileItem(profiles[i]))
    + seq(|contents|, i requires 0 <= i < |contents| => ContentItemActivity(contents[i]))
  }

  /** Newest first: timestamps never increase along the feed. */
  predicate NewestFirst(s: seq<ActivityItem>)
  {
    forall i, j :: 0 <= i < j < |s| ==> s[i].timestamp >= s[j].timestamp
  }

  /**
   * Inserting `x` into a newest-first list: it goes before the first entry that
   * is not newer than it, so it stays behind every entry that is newer.
   */
  function Insert(x: ActivityItem, s: seq<ActivityItem>): seq<ActivityItem>
  {
    if s == [] || x.timestamp >= s[0].timestamp then [x] + s else [s[0]] + Insert(x, s[1..])
  }

  /**
   * `sort((a, b) => b.timestamp - a.timestamp)`, a stable sort: entries are
   * inserted from the back, so of two entries with the same time the one that
   * came first stays first.
   */
  function SortNewestFirst(s: seq<ActivityItem>): (r: seq<ActivityItem>)
    ensures multiset(r) == multiset(s)
  {
    if s == [] then []
    else
      var rest := SortNewestFirst(s[1..]);
      InsertPermutes(s[0], rest);
      assert s == [s[0]] + s[1..];
      Insert(s[0], rest)
  }

  /** The entries of `s` with timestamp `t`, in order. */
  function AtTime(s: seq<ActivityItem>, t: Millis): seq<ActivityItem>
  {
    if s == [] then [] else (if s[0].timestamp == t then [s[0]] else []) + AtTime(s[1..], t)
  }

  /** Inserting adds `x` and keeps every other entry. */
  lemma {:induction false} InsertPermutes(x: ActivityItem, s: seq<ActivityItem>)
    ensures multiset(Insert(x, s)) == multiset(s) + multiset{x}
    decreases |s|
  {
    if s != [] && x.timestamp < s[0].timestamp {
      InsertPermutes(x, s[1..]);
      assert s == [s[0]] + s[1..];
    }
  }

  /** An entry no older than everything in a newest-first list can go in front of it. */
  lemma ConsNewestFirst(a: ActivityItem, r: seq<ActivityItem>)
    requires NewestFirst(r)
    requires forall e :: e in r ==> a.timestamp >= e.timestamp
    ensures NewestFirst([a] + r)
  {
    forall i, j | 0 <= i < j < |[a] + r|
      ensures ([a] + r)[i].timestamp >= ([a] + r)[j].timestamp
    {
      if i == 0 {
        assert ([a] + r)[j] == r[j - 1];
      } else {
        assert ([a] + r)[i] == r[i - 1];
        assert ([a] + r)[j] == r[j - 1];
      }
    }
  }

  lemma {:induction false} InsertNewestFirst(x: ActivityItem, s: seq<ActivityItem>)
    requires NewestFirst(s)
    ensures NewestFirst(Insert(x, s))
    decreases |s|
  {
    if s == [] || x.timestamp >= s[0].timestamp {
      forall e | e in s
        ensures x.timestamp >= e.timestamp
      {
        var k :| 0 <= k < |s| && s[k] == e;
        assert s[0].timestamp >= s[k].timestamp;
      }
      ConsNewestFirst(x, s);
    } else {
      var r := Insert(x, s[1..]);
      InsertNewestFirst(x, s[1..]);
      InsertPermutes(x, s[1..]);
      forall e | e in r
        ensures s[0].timestamp >= e.timestamp
      {
        assert e in multiset(r);
        if e != x {
          assert e in s[1..];
          var k :| 0 <= k < |s[1..]| && s[1..][k] == e;
          assert s[k + 1] == e;
        }
      }
      ConsNewestFirst(s[0], r);
    }
  }

  /** Inserting `x` adds it in front of the entries of its own time and leaves the order of all others. */
  lemma {:induction false} InsertAtTime(x: ActivityItem, s: seq<ActivityItem>, t: Millis)
    ensures AtTime(Insert(x, s), t) == (if x.timestamp == t then [x] else []) + AtTime(s, t)
    decreases |s|
  {
    if s == [] || x.timestamp >= s[0].timestamp {
      var r := [x] + s;
      assert r[0] == x && r[1..] == s;
      assert AtTime(r, t) == (if x.timestamp == t then [x] else []) + AtTime(s, t);
    } else {
      var r := [s[0]] + Insert(x, s[1..]);
      InsertAtTime(x, s[1..], t);
      assert r[0] == s[0] && r[1..] == Insert(x, s[1..]);
      assert AtTime(r, t) == (if s[0].timestamp == t then [s[0]] else []) + AtTime(Insert(x, s[1..]), t);
    }
  }

  /** The sort returns a newest-first rearrangement of its input. */
  lemma {:induction false} SortNewestFirstCorrect(s: seq<ActivityItem>)
    ensures NewestFirst(SortNewestFirst(s))
    ensures multiset(SortNewestFirst(s)) == multiset(s)
    decreases |s|
  {
    if s != [] {
      SortNewestFirstCorrect(s[1..]);
      InsertNewestFirst(s[0], SortNewestFirst(s[1..]));
    }
  }

  /** Stability: for every time, the entries of that time keep their input order. */
  lemma {:induction false} SortNewestFirstStable(s: seq<ActivityItem>, t: Millis)
    ensures AtTime(SortNewestFirst(s), t) == AtTime(s, t)
    decreases |s|
  {
    if s != [] {
      SortNewestFirstStable(s[1..], t);
      InsertAtTime(s[0], SortNewestFirst(s[1..]), t);
    }
  }

  lemma {:induction false} AtTimeAppend(a: seq<ActivityItem>, b: seq<ActivityItem>, t: Millis)
    ensures AtTime(a + b, t) == AtTime(a, t) + AtTime(b, t)
    decreases |a|
  {
    if a == [] {
      assert a + b == b;
    } else {
      var head := if a[0].timestamp == t then [a[0]] else [];
      assert AtTime(a + b, t) == head + AtTime(a[1..] + b, t) by {
        assert (a + b)[0] == a[0];
        assert (a + b)[1..] == a[1..] + b;
      }
      AtTimeAppend(a[1..], b, t);
      assert head + (AtTime(a[1..], t) + AtTime(b, t)) == head + AtTime(a[1..], t) + AtTime(b, t);
    }
  }

  /** The first (at most) ten entries of the sorted feed (`slice(0, 10)`). */
  function RecentActivity(profiles: seq<Profile>, contents: seq<ContentItem>): (r: seq<ActivityItem>)
    ensures |r| == if |profiles| + |contents| <= 10 then |profiles| + |contents| else 10
  {
    var sorted := SortNewestFirst(Merged(profiles, contents));
    assert |sorted| == |multiset(sorted)| == |Merged(profiles, contents)|;
    if |sorted| <= 10 then sorted else sorted[..10]
  }

  /**
   * The feed has at most ten entries, newest first, each one of the merged
   * entries; when there are at most ten of those, none is dropped.
   */
  lemma RecentActivityShape(profiles: seq<Profile>, contents: seq<ContentItem>)
    ensures var r := RecentActivity(profiles, contents);
      && |r| <= 10
      && NewestFirst(r)
      && (forall e :: e in r ==> e in Merged(profiles, contents))
      && (|profiles| + |contents| <= 10 ==> multiset(r) == multiset(Merged(profiles, contents)))
  {
    var m := Merged(profiles, contents);
    SortNewestFirstCorrect(m);
    var sorted := SortNewestFirst(m);
    assert |sorted| == |m| by {
      assert |multiset(sorted)| == |multiset(m)|;
    }
    forall e | e in RecentActivity(profiles, contents)
      ensures e in m
    {
      assert e in sorted;
      assert e in multiset(sorted);
    }
  }

  /**
   * Ties between a profile and a content record: among the entries of one
   * time, all profile entries come before all content entries, each group in
   * the order the store listed it.
   */
  lemma ProfilesFirstOnTies(profiles: seq<Profile>, contents: seq<ContentItem>, t: Millis)
    ensures AtTime(SortNewestFirst(Merged(profiles, contents)), t)
         == AtTime(seq(|profiles|, i requires 0 <= i < |profiles| => ProfileItem(profiles[i])), t)
          + AtTime(seq(|contents|, i requires 0 <= i < |contents| => ContentItemActivity(contents[i])), t)
  {
    SortNewestFirstStable(Merged(profiles, contents), t);
    AtTimeAppend(seq(|profiles|, i requires 0 <= i < |profiles| => ProfileItem(profiles[i])),
                 seq(|contents|, i requires 0 <= i < |contents| => ContentItemActivity(contents[i])), t);
  }

  /** One point of a chart series. */
  datatype ChartPoint = ChartPoint(name: string, value: int)

  /** The five counts, each the `total` of a one-document lookup. */
  datatype Counts = Counts(students: nat, activeSubscriptions: nat, expiredSubscriptions: nat,
                           contentItems: nat, usedAccessCodes: nat)

  datatype OverviewBody = OverviewBody(
    totalStudents: nat,
    activeSubscriptions: nat,
    expiredSubscriptions: nat,
    totalContentItems: nat,
    usedAccessCodes: nat,
    recentActivity: seq<ActivityItem>,
    subscriptionStatusBreakdown: seq<ChartPoint>,
    newUsersTrend: seq<ChartPoint>)

  /** The weekly new-users series is a fixed placeholder, not derived from any data. */
  const NewUsersTrend: seq<ChartPoint> := [
    ChartPoint("Mon", 10), ChartPoint("Tue", 15), ChartPoint("Wed", 12), ChartPoint("Thu", 20),
    ChartPoint("Fri", 25), ChartPoint("Sat", 18), ChartPoint("Sun", 22)]

  /**
   * The route after its lookups: any failure gives `error.status || 500`;
   * otherwise the counts, the feed and the two chart series.
   */
  function GetOverview(auth: Result<User, Error>, counts: Result<Counts, Error>,
                       recentProfiles: Result<seq<Profile>, Error>, recentContent: Result<seq<ContentItem>, Error>)
    : (r: Reply<OverviewBody>)
    ensures auth.Failure? ==> r == Fail(auth.error)
    ensures auth.Success? && counts.Failure? ==> r == Fail(counts.error)
    ensures auth.Success? && counts.Success? && recentProfiles.Failure? ==> r == Fail(recentProfiles.error)
    ensures auth.Success? && counts.Success? && recentProfiles.Success? && recentContent.Failure? ==>
      r == Fail(recentContent.error)
    ensures auth.Success? && counts.Success? && recentProfiles.Success? && recentContent.Success? ==> r.Ok?
    ensures r.Ok? ==>
      && r.body.totalStudents == counts.value.students
      && r.body.totalContentItems == counts.value.contentItems
      && r.body.usedAccessCodes == counts.value.usedAccessCodes
      && r.body.newUsersTrend == NewUsersTrend
      && r.body.recentActivity == RecentActivity(recentProfiles.value, recentContent.value)
      && r.body.subscriptionStatusBreakdown
         == [ChartPoint("Active", r.body.activeSubscriptions), ChartPoint("Expired", r.body.expiredSubscriptions)]
      && r.body.activeSubscriptions == counts.value.activeSubscriptions
      && r.body.expiredSubscriptions == counts.value.expiredSubscriptions
  {
    if auth.Failure? then Fail(auth.error)
    else if counts.Failure? then Fail(counts.error)
    else if recentProfiles.Failure? then Fail(recentProfiles.error)
    else if recentContent.Failure? then Fail(recentContent.error)
    else
      var c := counts.value;
      Ok(OverviewBody(c.students, c.activeSubscriptions, c.expiredSubscriptions, c.contentItems, c.usedAccessCodes,
                      RecentActivity(recentProfiles.value, recentContent.value),
                      [ChartPoint("Active", c.activeSubscriptions), ChartPoint("Expired", c.expiredSubscriptions)],
                      NewUsersTrend))
  }
}
