/**
 * The dashboard: the statistics over the loaded lists, the applications waiting longest,
 * the recent-activity feed, and the quick approve and deny buttons.
 */
module DashboardView {
  import opened Wrappers
  import opened Seqs
  import opened Entities
  import opened MockStore

  // ---------------------------------------------------------------- statistics

  function HasPropertyStatus(s: PropertyStatus): Property -> bool
  {
    (p: Property) => p.fields.status == s
  }

  function HasAppStatus(s: AppStatus): Application -> bool
  {
    (a: Application) => a.fields.status == Some(s)
  }

  function IsActiveLease(): Lease -> bool
  {
    (l: Lease) => l.fields.status == Active
  }

  /** `reduce((sum, l) => sum + (l.monthly_rent || 0), 0)`: a missing rent adds nothing. */
  function RentSum(leases: seq<Lease>): (r: real)
    ensures (forall i :: 0 <= i < |leases| ==> leases[i].fields.monthlyRent.GetOr(0.0) >= 0.0) ==> r >= 0.0
    ensures (forall i :: 0 <= i < |leases| ==> leases[i].fields.monthlyRent.None?) ==> r == 0.0
  {
    if leases == [] then 0.0 else leases[0].fields.monthlyRent.GetOr(0.0) + RentSum(leases[1..])
  }

  /** The figures `loadDashboardData` shows; the occupancy is a percentage, before rounding. */
  datatype Stats = Stats(
    totalUnits: nat,
    leasedUnits: nat,
    availableUnits: nat,
    occupancyRate: real,
    pendingApps: nat,
    approvedApps: nat,
    deniedApps: nat,
    monthlyRecurringRent: real)

  function Statistics(properties: seq<Property>, applications: seq<Application>, leases: seq<Lease>): (r: Stats)
    ensures r.totalUnits == |properties|
    ensures r.leasedUnits == |Filter(properties, HasPropertyStatus(Leased))|
    ensures r.availableUnits == |Filter(properties, HasPropertyStatus(Available))|
    ensures r.pendingApps == |Filter(applications, HasAppStatus(AppStatus.Pending))|
    ensures r.approvedApps == |Filter(applications, HasAppStatus(Approved))|
    ensures r.deniedApps == |Filter(applications, HasAppStatus(Denied))|
    ensures r.monthlyRecurringRent == RentSum(Filter(leases, IsActiveLease()))
    ensures r.occupancyRate == Occupancy(r.leasedUnits, r.totalUnits)
  {
    var total := |properties|;
    var leased := |Filter(properties, HasPropertyStatus(Leased))|;
    Stats(total, leased,
          |Filter(properties, HasPropertyStatus(Available))|,
          Occupancy(leased, total),
          |Filter(applications, HasAppStatus(AppStatus.Pending))|,
          |Filter(applications, HasAppStatus(Approved))|,
          |Filter(applications, HasAppStatus(Denied))|,
          RentSum(Filter(leases, IsActiveLease())))
  }

  /** `leased / total * 100`, or 0 with no units. */
  function Occupancy(leased: nat, total: nat): (r: real)
    ensures total == 0 ==> r == 0.0
    ensures total > 0 ==> r * (total as real) == (leased as real) * 100.0
    ensures leased <= total ==> 0.0 <= r <= 100.0
  {
    if total > 0 then
      var t := total as real;
      var r := (leased as real) / t * 100.0;
      assert r * t == (leased as real) * 100.0;
      assert leased <= total ==> r * t <= 100.0 * t;
      r
    else 0.0
  }

  /**
   * The unit counts never exceed the total between them, the occupancy lies between 0 and
   * 100 percent, and the three status counts never exceed the number of applications.
   */
  lemma StatisticsBounds(properties: seq<Property>, applications: seq<Application>, leases: seq<Lease>)
    ensures var st := Statistics(properties, applications, leases);
      st.leasedUnits + st.availableUnits <= st.totalUnits &&
      0.0 <= st.occupancyRate <= 100.0 &&
      st.pendingApps + st.approvedApps + st.deniedApps <= |applications|
  {
    FilterExclusiveLength(properties, HasPropertyStatus(Leased), HasPropertyStatus(Available));
    var statused := (a: Application) => a.fields.status.Some?;
    forall a: Application
      ensures statused(a) == (HasAppStatus(AppStatus.Pending)(a) || HasAppStatus(Approved)(a) || HasAppStatus(Denied)(a))
    {
      match a.fields.status
      case None =>
      case Some(s) =>
        match s
        case Pending =>
        case Approved =>
        case Denied =>
    }
    FilterPartition3(applications, HasAppStatus(AppStatus.Pending), HasAppStatus(Approved), HasAppStatus(Denied), statused);
    assert |multiset(Filter(applications, statused))| == |Filter(applications, statused)|;
  }

  /** The recurring rent adds up the rents of the active leases alone, one lease at a time. */
  lemma {:induction false} ActiveRentAppend(leases: seq<Lease>, l: Lease)
    ensures RentSum(Filter(leases + [l], IsActiveLease())) ==
              RentSum(Filter(leases, IsActiveLease())) + (if l.fields.status == Active then l.fields.monthlyRent.GetOr(0.0) else 0.0)
  {
    FilterAppend(leases, [l], IsActiveLease());
    RentSumAppend(Filter(leases, IsActiveLease()), Filter([l], IsActiveLease()));
  }

  lemma {:induction false} RentSumAppend(a: seq<Lease>, b: seq<Lease>)
    ensures RentSum(a + b) == RentSum(a) + RentSum(b)
  {
    if a == [] {
      assert a + b == b;
    } else {
      assert (a + b)[0] == a[0] && (a + b)[1..] == a[1..] + b;
      RentSumAppend(a[1..], b);
    }
  }

  /** With no negative rent on file, the recurring rent is between zero and the rent of all leases. */
  lemma {:induction false} RentSumBounds(leases: seq<Lease>)
    requires forall i :: 0 <= i < |leases| ==> leases[i].fields.monthlyRent.GetOr(0.0) >= 0.0
    ensures 0.0 <= RentSum(Filter(leases, IsActiveLease())) <= RentSum(leases)
  {
    if leases != [] {
      RentSumBounds(leases[1..]);
      var head := if IsActiveLease()(leases[0]) then [leases[0]] else [];
      RentSumAppend(head, Filter(leases[1..], IsActiveLease()));
    }
  }

  // ---------------------------------------------------------------- applications waiting

  /** 48 hours in milliseconds. */
  const AgingMs: int := 48 * 60 * 60 * 1000

  function IsAging(now: Millis): Application -> bool
  {
    (a: Application) => a.fields.status == Some(AppStatus.Pending) && a.createdDate < now - AgingMs
  }

  /** The first five pending applications created more than 48 hours before `now`. */
  function Aging(applications: seq<Application>, now: Millis): (r: seq<Application>)
    ensures |r| <= 5
    ensures var aging := Filter(applications, IsAging(now));
      |r| == (if |aging| < 5 then |aging| else 5) && r == aging[..|r|]
    ensures forall i :: 0 <= i < |r| ==>
              r[i] in applications && r[i].fields.status == Some(AppStatus.Pending) && r[i].createdDate < now - AgingMs
  {
    var all := Filter(applications, IsAging(now));
    var r := Take(all, 5);
    assert forall i :: 0 <= i < |r| ==> r[i] == all[i];
    r
  }

  /** The list keeps source order, and fewer than five means every aging application is shown. */
  lemma AgingSpec(applications: seq<Application>, now: Millis)
    ensures IsSubsequence(Aging(applications, now), applications)
    ensures |Aging(applications, now)| < 5 ==>
              forall i :: 0 <= i < |applications| && IsAging(now)(applications[i]) ==> applications[i] in Aging(applications, now)
  {
    var all := Filter(applications, IsAging(now));
    TakeIsSubsequence(all, 5);
    FilterIsSubsequence(applications, IsAging(now));
    SubsequenceTransitive(Aging(applications, now), all, applications);
  }

  // ---------------------------------------------------------------- recent activity

  datatype ActivityKind = PropertyActivity | ApplicationActivity | LeaseActivity

  datatype ActivityItem = ActivityItem(kind: ActivityKind, title: string, timestamp: Millis)

  function PropertyItem(): Property -> ActivityItem
  {
    (p: Property) => ActivityItem(PropertyActivity, "Property \"" + p.fields.title + "\" created", p.createdDate)
  }

  function ApplicationItem(): Application -> ActivityItem
  {
    (a: Application) => ActivityItem(ApplicationActivity, "Application " + StatusText(a.fields.status) + " for property", a.createdDate)
  }

  function LeaseItem(): Lease -> ActivityItem
  {
    (l: Lease) => ActivityItem(LeaseActivity, "Lease created", l.createdDate)
  }

  /** The unsorted feed: the first three properties, the first four applications and the first three leases. */
  function Feed(properties: seq<Property>, applications: seq<Application>, leases: seq<Lease>): (r: seq<ActivityItem>)
    ensures |r| <= 10
  {
    Map(Take(properties, 3), PropertyItem()) + Map(Take(applications, 4), ApplicationItem()) + Map(Take(leases, 3), LeaseItem())
  }

  predicate SortedDesc(s: seq<ActivityItem>)
  {
    forall i, j :: 0 <= i < j < |s| ==> s[i].timestamp >= s[j].timestamp
  }

  /** Place `x` after the items newer than it and before the rest. */
  function Insert(x: ActivityItem, s: seq<ActivityItem>): (r: seq<ActivityItem>)
    ensures multiset(r) == multiset(s) + multiset{x}
  {
    if s == [] then [x]
    else if s[0].timestamp > x.timestamp then
      assert s == [s[0]] + s[1..];
      [s[0]] + Insert(x, s[1..])
    else [x] + s
  }

  /** Inserting into a list sorted newest first keeps it sorted. */
  lemma {:induction false} InsertSorted(x: ActivityItem, s: seq<ActivityItem>)
    requires SortedDesc(s)
    ensures SortedDesc(Insert(x, s))
  {
    if s != [] && s[0].timestamp > x.timestamp {
      InsertSorted(x, s[1..]);
      var rest := Insert(x, s[1..]);
      forall k | 0 <= k < |rest|
        ensures rest[k].timestamp <= s[0].timestamp
      {
        assert rest[k] in multiset(s[1..]) + multiset{x};
        if rest[k] != x {
          assert rest[k] in s[1..];
        }
      }
    }
  }

  /** `sort((a, b) => b.timestamp - a.timestamp)`: a stable sort, newest first. */
  function SortNewestFirst(s: seq<ActivityItem>): (r: seq<ActivityItem>)
    ensures SortedDesc(r)
    ensures multiset(r) == multiset(s)
  {
    if s == [] then []
    else
      assert s == [s[0]] + s[1..];
      InsertSorted(s[0], SortNewestFirst(s[1..]));
      Insert(s[0], SortNewestFirst(s[1..]))
  }

  function HasTimestamp(t: Millis): ActivityItem -> bool
  {
    (x: ActivityItem) => x.timestamp == t
  }

  lemma {:induction false} InsertKeepsTies(x: ActivityItem, s: seq<ActivityItem>, t: Millis)
    ensures Filter(Insert(x, s), HasTimestamp(t)) == Filter([x] + s, HasTimestamp(t))
  {
    if s != [] && s[0].timestamp > x.timestamp {
      var h, tl, p := s[0], s[1..], HasTimestamp(t);
      var later := Insert(x, tl);
      InsertKeepsTies(x, tl, t);
      FilterConsCongruence(h, later, [x] + tl, p);
      // `h` is newer than `x`, so at most one of the two has timestamp `t`.
      FilterSwapHeads(h, x, tl, p);
      assert s == [h] + tl;
      assert Insert(x, s) == [h] + later;
    }
  }

  /** The sort is stable: items with the same timestamp keep their order in the feed. */
  lemma {:induction false} SortKeepsTies(s: seq<ActivityItem>, t: Millis)
    ensures Filter(SortNewestFirst(s), HasTimestamp(t)) == Filter(s, HasTimestamp(t))
  {
    if s != [] {
      var h, tl, p := s[0], s[1..], HasTimestamp(t);
      var sortedTail := SortNewestFirst(tl);
      SortKeepsTies(tl, t);
      assert SortNewestFirst(s) == Insert(h, sortedTail);
      InsertKeepsTies(h, sortedTail, t);
      FilterConsCongruence(h, sortedTail, tl, p);
      assert s == [h] + tl;
    }
  }

  /** The recent-activity list: the feed sorted newest first, cut to ten items. */
  function RecentActivity(properties: seq<Property>, applications: seq<Application>, leases: seq<Lease>): (r: seq<ActivityItem>)
    ensures |r| <= 10
    ensures SortedDesc(r)
  {
    var sorted := SortNewestFirst(Feed(properties, applications, leases));
    var r := Take(sorted, 10);
    assert forall i :: 0 <= i < |r| ==> r[i] == sorted[i];
    r
  }

  /**
   * The feed holds at most ten items, so the cut never drops one: the list is exactly the
   * feed's items, newest first, with ties in feed order.
   */
  lemma RecentActivityIsWholeFeed(properties: seq<Property>, applications: seq<Application>, leases: seq<Lease>, t: Millis)
    ensures multiset(RecentActivity(properties, applications, leases)) == multiset(Feed(properties, applications, leases))
    ensures Filter(RecentActivity(properties, applications, leases), HasTimestamp(t)) ==
              Filter(Feed(properties, applications, leases), HasTimestamp(t))
  {
    var feed := Feed(properties, applications, leases);
    var sorted := SortNewestFirst(feed);
    assert |sorted| == |multiset(sorted)| == |feed|;
    assert Take(sorted, 10) == sorted;
    SortKeepsTies(feed, t);
  }

  /** An item of `Map(Take(s, n), f)` is `f` of one of the first `n` elements of `s`. */
  lemma FromPrefix<T>(s: seq<T>, n: nat, f: T -> ActivityItem, x: ActivityItem)
    requires x in Map(Take(s, n), f)
    ensures exists i :: 0 <= i < n && i < |s| && x == f(s[i])
  {
    var m := Map(Take(s, n), f);
    var i :| 0 <= i < |m| && m[i] == x;
    assert x == f(s[i]);
  }

  /** Every item comes from one of the first three properties, first four applications or first three leases. */
  lemma RecentActivitySources(properties: seq<Property>, applications: seq<Application>, leases: seq<Lease>, x: ActivityItem)
    requires x in RecentActivity(properties, applications, leases)
    ensures (exists i :: 0 <= i < 3 && i < |properties| && x == PropertyItem()(properties[i])) ||
            (exists i :: 0 <= i < 4 && i < |applications| && x == ApplicationItem()(applications[i])) ||
            (exists i :: 0 <= i < 3 && i < |leases| && x == LeaseItem()(leases[i]))
  {
    RecentActivityIsWholeFeed(properties, applications, leases, 0);
    var a := Map(Take(properties, 3), PropertyItem());
    var b := Map(Take(applications, 4), ApplicationItem());
    var c := Map(Take(leases, 3), LeaseItem());
    assert x in multiset(a + b + c);
    if x in a {
      FromPrefix(properties, 3, PropertyItem(), x);
    } else if x in b {
      FromPrefix(applications, 4, ApplicationItem(), x);
    } else {
      FromPrefix(leases, 3, LeaseItem(), x);
    }
  }

  // ---------------------------------------------------------------- quick decisions

  /**
   * `handleQuickApproval`: the application's status and decision time are written, and
   * nothing else: no active-lease check, no property or lease write.
   */
  method QuickDecision(store: Store, applicationId: Id, decision: AppStatus, now: Millis) returns (r: Result<Application>)
    modifies store
    ensures store.applications == UpdateById(old(store.applications), applicationId,
                                             f => MergeApplication(f, ApplicationPatch(Some(decision), Some(now))))
    ensures r.Err? <==> IndexOfId(old(store.applications), applicationId) == -1
    ensures r.Err? ==> store.log == old(store.log)
    ensures r.Ok? ==> store.log == old(store.log) + [ApplicationUpdated(applicationId, ApplicationPatch(Some(decision), Some(now)))]
    ensures store.properties == old(store.properties) && store.leases == old(store.leases)
    ensures store.clients == old(store.clients) && store.users == old(store.users)
  {
    r := store.UpdateApplication(applicationId, ApplicationPatch(Some(decision), Some(now)));
  }
}
