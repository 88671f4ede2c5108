/**
 * The applications page: its filter pipeline, the kanban columns built from the filtered
 * list, and the approve/deny workflow that may also lease the property and draft a lease.
 */
module ApplicationsView {
  import opened Wrappers
  import opened Seqs
  import opened Text
  import opened Entities
  import opened MockStore

  /** One day in milliseconds. */
  const DayMs: int := 86400000

  /** The filter bar; an unset number, or the status `all`, is `None`, and an empty search is off. */
  datatype ApplicationFilters = ApplicationFilters(
    search: string,
    status: Option<AppStatus>,
    scoreMin: Option<real>,
    scoreMax: Option<real>,
    agingDays: Option<int>)

  const DefaultFilters: ApplicationFilters := ApplicationFilters("", None, None, None, None)

  /** The applicant's name or email, or the property's title, contains the term, ignoring case. */
  predicate SearchMatches(a: Application, term: string, users: map<Id, User>, properties: map<Id, Property>)
  {
    (a.fields.userId in users &&
      (ContainsIgnoringCase(users[a.fields.userId].fullName, term) ||
       ContainsIgnoringCase(users[a.fields.userId].email, term))) ||
    (a.fields.propertyId in properties && ContainsIgnoringCase(properties[a.fields.propertyId].fields.title, term))
  }

  // Each criterion holds trivially when its filter is off.

  predicate SearchOk(a: Application, f: ApplicationFilters, users: map<Id, User>, properties: map<Id, Property>)
  {
    f.search == "" || SearchMatches(a, f.search, users, properties)
  }

  predicate StatusOk(a: Application, f: ApplicationFilters)
  {
    f.status.None? || a.fields.status == f.status
  }

  /** A missing score compares false against any bound, as NaN does. */
  predicate ScoreMinOk(a: Application, f: ApplicationFilters)
  {
    f.scoreMin.None? || (a.fields.score.Some? && a.fields.score.value >= f.scoreMin.value)
  }

  predicate ScoreMaxOk(a: Application, f: ApplicationFilters)
  {
    f.scoreMax.None? || (a.fields.score.Some? && a.fields.score.value <= f.scoreMax.value)
  }

  /** Pending and created before `now` minus the given number of days. */
  predicate AgingOk(a: Application, f: ApplicationFilters, now: Millis)
  {
    f.agingDays.None? ||
    (a.fields.status == Some(AppStatus.Pending) && a.createdDate < now - f.agingDays.value * DayMs)
  }

  /** An application the filter bar keeps. */
  predicate Matches(a: Application, f: ApplicationFilters, users: map<Id, User>, properties: map<Id, Property>, now: Millis)
  {
    SearchOk(a, f, users, properties) && StatusOk(a, f) && ScoreMinOk(a, f) && ScoreMaxOk(a, f) && AgingOk(a, f, now)
  }

  // The criteria as predicate values, so that the pipeline and the lemmas about it name the same ones.

  function SearchPred(f: ApplicationFilters, users: map<Id, User>, properties: map<Id, Property>): Application -> bool
  {
    a => SearchOk(a, f, users, properties)
  }

  function StatusPred(f: ApplicationFilters): Application -> bool
  {
    a => StatusOk(a, f)
  }

  function ScoreMinPred(f: ApplicationFilters): Application -> bool
  {
    a => ScoreMinOk(a, f)
  }

  function ScoreMaxPred(f: ApplicationFilters): Application -> bool
  {
    a => ScoreMaxOk(a, f)
  }

  function AgingPred(f: ApplicationFilters, now: Millis): Application -> bool
  {
    a => AgingOk(a, f, now)
  }

  function MatchesPred(f: ApplicationFilters, users: map<Id, User>, properties: map<Id, Property>, now: Millis): Application -> bool
  {
    a => Matches(a, f, users, properties, now)
  }

  /**
   * `applyFilters`: each active filter narrows the list in turn; together the steps are one
   * filter by the conjunction of the criteria.
   */
  function ApplyFilters(apps: seq<Application>, f: ApplicationFilters, users: map<Id, User>,
                        properties: map<Id, Property>, now: Millis): (r: seq<Application>)
    ensures r == Filter(apps, MatchesPred(f, users, properties, now))
  {
    FilterIfChain5(apps, f.search != "", SearchPred(f, users, properties), f.status.Some?, StatusPred(f),
                   f.scoreMin.Some?, ScoreMinPred(f), f.scoreMax.Some?, ScoreMaxPred(f),
                   f.agingDays.Some?, AgingPred(f, now), MatchesPred(f, users, properties, now));
    var bySearch := FilterIf(apps, f.search != "", SearchPred(f, users, properties));
    var byStatus := FilterIf(bySearch, f.status.Some?, StatusPred(f));
    var byMin := FilterIf(byStatus, f.scoreMin.Some?, ScoreMinPred(f));
    var byMax := FilterIf(byMin, f.scoreMax.Some?, ScoreMaxPred(f));
    FilterIf(byMax, f.agingDays.Some?, AgingPred(f, now))
  }

  /**
   * The filtered list keeps the applications' order, holds only matches, and misses none.
   */
  lemma ApplyFiltersSpec(apps: seq<Application>, f: ApplicationFilters, users: map<Id, User>,
                         properties: map<Id, Property>, now: Millis)
    ensures var r := ApplyFilters(apps, f, users, properties, now);
      IsSubsequence(r, apps) &&
      (forall i :: 0 <= i < |r| ==> Matches(r[i], f, users, properties, now)) &&
      (forall i :: 0 <= i < |apps| && Matches(apps[i], f, users, properties, now) ==> apps[i] in r)
  {
    FilterIsSubsequence(apps, MatchesPred(f, users, properties, now));
  }

  /** With every filter off the list is shown as loaded. */
  lemma DefaultFiltersKeepAll(apps: seq<Application>, users: map<Id, User>, properties: map<Id, Property>, now: Millis)
    ensures ApplyFilters(apps, DefaultFilters, users, properties, now) == apps
  {
  }

  /** What each active filter guarantees about every application it lets through. */
  lemma FilteredSatisfyActiveFilters(apps: seq<Application>, f: ApplicationFilters, users: map<Id, User>,
                                     properties: map<Id, Property>, now: Millis, i: int)
    requires 0 <= i < |ApplyFilters(apps, f, users, properties, now)|
    ensures var a := ApplyFilters(apps, f, users, properties, now)[i];
      (f.search != "" ==> SearchMatches(a, f.search, users, properties)) &&
      (f.status.Some? ==> a.fields.status == f.status) &&
      (f.scoreMin.Some? ==> a.fields.score.Some? && f.scoreMin.value <= a.fields.score.value) &&
      (f.scoreMax.Some? ==> a.fields.score.Some? && a.fields.score.value <= f.scoreMax.value) &&
      (f.agingDays.Some? ==> a.fields.status == Some(AppStatus.Pending) &&
                             a.createdDate < now - f.agingDays.value * DayMs)
  {
    ApplyFiltersSpec(apps, f, users, properties, now);
  }

  // ---------------------------------------------------------------- the kanban board

  function HasStatus(s: AppStatus): Application -> bool
  {
    (a: Application) => a.fields.status == Some(s)
  }

  function HasAnyStatus(): Application -> bool
  {
    (a: Application) => a.fields.status.Some?
  }

  /** The applications of one kanban column, in list order. */
  function Column(filtered: seq<Application>, s: AppStatus): (r: seq<Application>)
    ensures forall i :: 0 <= i < |r| ==> r[i].fields.status == Some(s) && r[i] in filtered
  {
    Filter(filtered, HasStatus(s))
  }

  /** No application sits in two columns. */
  lemma ColumnsDisjoint(filtered: seq<Application>, s: AppStatus, t: AppStatus)
    requires s != t
    ensures forall i, j :: 0 <= i < |Column(filtered, s)| && 0 <= j < |Column(filtered, t)| ==>
              Column(filtered, s)[i] != Column(filtered, t)[j]
  {
  }

  /** The three columns hold, between them, exactly the filtered applications that have a status. */
  lemma ColumnsCoverStatused(filtered: seq<Application>)
    ensures multiset(Column(filtered, AppStatus.Pending)) + multiset(Column(filtered, Approved)) +
            multiset(Column(filtered, Denied)) == multiset(Filter(filtered, HasAnyStatus()))
  {
    forall a: Application
      ensures HasAnyStatus()(a) == (HasStatus(AppStatus.Pending)(a) || HasStatus(Approved)(a) || HasStatus(Denied)(a))
    {
      if a.fields.status.Some? {
        match a.fields.status.value
        case Pending =>
        case Approved =>
        case Denied =>
      }
    }
    FilterPartition3(filtered, HasStatus(AppStatus.Pending), HasStatus(Approved), HasStatus(Denied), HasAnyStatus());
  }

  // ---------------------------------------------------------------- approval and the lease it drafts

  /** `leases.some(l => l.property_id === propertyId && l.status === 'active')`. */
  predicate HasActiveLease(leases: seq<Lease>, propertyId: Id)
  {
    Any(leases, (l: Lease) => l.fields.propertyId == propertyId && l.fields.status == Active)
  }

  /** `d` comes strictly before `e` in the calendar. */
  predicate Before(d: CalendarDate, e: CalendarDate)
  {
    d.year < e.year || (d.year == e.year && (d.month < e.month || (d.month == e.month && d.day < e.day)))
  }

  /** `date.setMonth(date.getMonth() + 1, 1)`: the first of the following month, December rolling over. */
  function NextMonthStart(today: CalendarDate): (r: CalendarDate)
    requires ValidDate(today)
    ensures ValidDate(r) && r.day == 1 && Before(today, r)
    ensures forall x :: ValidDate(x) && x.day == 1 && Before(today, x) ==> !Before(x, r)
  {
    if today.month == 12 then CalendarDate(today.year + 1, 1, 1)
    else CalendarDate(today.year, today.month + 1, 1)
  }

  /** `date.setFullYear(date.getFullYear() + 1)`: the same day a year on; 29 February rolls to 1 March. */
  function AddOneYear(d: CalendarDate): (r: CalendarDate)
    requires ValidDate(d)
    ensures ValidDate(r) && r.year == d.year + 1
    ensures !(d.month == 2 && d.day == 29) ==> r.month == d.month && r.day == d.day
    ensures d.month == 2 && d.day == 29 ==> if IsLeapYear(d.year + 1) then r.month == 2 && r.day == 29 else r.month == 3 && r.day == 1
  {
    if d.month == 2 && d.day == 29 && !IsLeapYear(d.year + 1) then CalendarDate(d.year + 1, 3, 1)
    else CalendarDate(d.year + 1, d.month, d.day)
  }

  /** The lease an approval drafts. */
  function ApprovalLease(app: Application, property: Property, today: CalendarDate): (r: LeaseFields)
    requires ValidDate(today)
    ensures r.propertyId == app.fields.propertyId && r.clientId == app.fields.userId
    ensures r.monthlyRent == r.deposit == Some(property.fields.monthlyRent)
    ensures r.paymentDay == 1 && r.status == Active
    ensures ValidDate(r.startDate) && ValidDate(r.endDate) && r.startDate.day == 1 && Before(today, r.startDate)
    ensures r.endDate == CalendarDate(r.startDate.year + 1, r.startDate.month, 1)
  {
    var start := NextMonthStart(today);
    LeaseFields(app.fields.propertyId, app.fields.userId, start, AddOneYear(start),
                Some(property.fields.monthlyRent), Some(property.fields.monthlyRent), 1, Active)
  }

  /** How `updateApplicationStatus` ended. */
  datatype StatusChangeOutcome =
    | NoApplication
    | ActiveLeaseConflict
    /** A write threw (not found), or the property was missing from the loaded map; later steps did not run. */
    | Aborted
    | Done

  /** The patch every decision writes to the application. */
  function DecisionPatch(newStatus: AppStatus, now: Millis): (r: ApplicationPatch)
    ensures r.status == Some(newStatus) && r.decisionAt == Some(now)
  {
    ApplicationPatch(Some(newStatus), Some(now))
  }

  /** How the writes past the checks go: the outcome, the writes made in order, and the leases created. */
  datatype DecisionRun = DecisionRun(outcome: StatusChangeOutcome, writes: seq<Write>, newLeases: seq<Lease>)

  /** The lease row an approval creates when the store reads the clock as `now`. */
  function DraftLease(app: Application, property: Property, now: nat, today: CalendarDate): (r: Lease)
    requires ValidDate(today)
    ensures r.id == NewId("lease", now) && r.createdDate == now && r.fields == ApprovalLease(app, property, today)
  {
    Row(NewId("lease", now), now, ApprovalLease(app, property, today))
  }

  /**
   * The writes an approval makes after the decision, given whether the property is in the
   * store: the property's new status, then the drafted lease, created when the store reads the
   * clock as `leaseNow`. A failed property update stops the sequence, and so does a property
   * missing from the page's loaded map (`property.monthly_rent` on undefined throws) after its
   * status was already written.
   */
  function ApprovalWrites(properties: map<Id, Property>, app: Application, leaseNow: nat, today: CalendarDate,
                          propertyFound: bool): (r: DecisionRun)
    requires ValidDate(today)
    ensures r.outcome == Done <==> propertyFound && app.fields.propertyId in properties
    ensures r.outcome == Aborted || r.outcome == Done
  {
    var pid := app.fields.propertyId;
    var leased := PropertyUpdated(pid, PropertyPatch(Some(Leased)));
    if !propertyFound then DecisionRun(Aborted, [], [])
    else if pid !in properties then DecisionRun(Aborted, [leased], [])
    else
      var lease := DraftLease(app, properties[pid], leaseNow, today);
      DecisionRun(Done, [leased, LeaseCreated(lease)], [lease])
  }

  /**
   * The writes `updateApplicationStatus` makes once past its checks, given whether the
   * application and its property are in the store: the decision, stamped with the clock reading
   * `now`; for an approval, then the writes of `ApprovalWrites`, whose lease takes the store's
   * later clock reading `leaseNow`. A decision that fails with "not found" writes nothing.
   */
  function DecisionWrites(properties: map<Id, Property>, app: Application, newStatus: AppStatus, now: nat,
                          leaseNow: nat, today: CalendarDate, applicationFound: bool, propertyFound: bool): (r: DecisionRun)
    requires ValidDate(today)
    ensures r.outcome == Aborted || r.outcome == Done
  {
    var decided := ApplicationUpdated(app.id, DecisionPatch(newStatus, now));
    if !applicationFound then DecisionRun(Aborted, [], [])
    else if newStatus != Approved then DecisionRun(Done, [decided], [])
    else
      var rest := ApprovalWrites(properties, app, leaseNow, today, propertyFound);
      DecisionRun(rest.outcome, [decided] + rest.writes, rest.newLeases)
  }

  /**
   * What any run of the writes guarantees: nothing is written without the application; the
   * decision is written first; a lease is created exactly when an approval completes, as the
   * last write and after the property is marked leased; every other run creates no lease.
   */
  lemma DecisionWritesSpec(properties: map<Id, Property>, app: Application, newStatus: AppStatus, now: nat,
                           leaseNow: nat, today: CalendarDate, applicationFound: bool, propertyFound: bool)
    requires ValidDate(today)
    ensures var r := DecisionWrites(properties, app, newStatus, now, leaseNow, today, applicationFound, propertyFound);
      (r.writes == [] <==> !applicationFound) &&
      (r.writes != [] ==> r.writes[0] == ApplicationUpdated(app.id, DecisionPatch(newStatus, now))) &&
      (r.newLeases != [] <==> r.outcome == Done && newStatus == Approved) &&
      (r.outcome == Done && newStatus == Approved <==>
         newStatus == Approved && applicationFound && propertyFound && app.fields.propertyId in properties) &&
      (r.outcome == Done && newStatus == Approved ==>
         var pid := app.fields.propertyId;
         var lease := DraftLease(app, properties[pid], leaseNow, today);
         r.newLeases == [lease] && |r.writes| == 3 &&
         r.writes[1] == PropertyUpdated(pid, PropertyPatch(Some(Leased))) && r.writes[2] == LeaseCreated(lease)) &&
      (newStatus != Approved ==> |r.writes| <= 1 && (r.outcome == Done <==> applicationFound)) &&
      (forall l :: LeaseCreated(l) in r.writes ==> r.newLeases == [l])
  {
    var r := DecisionWrites(properties, app, newStatus, now, leaseNow, today, applicationFound, propertyFound);
    var decided := ApplicationUpdated(app.id, DecisionPatch(newStatus, now));
    var pid := app.fields.propertyId;
    var leased := PropertyUpdated(pid, PropertyPatch(Some(Leased)));
    if applicationFound && newStatus == Approved && propertyFound && pid in properties {
      var lease := DraftLease(app, properties[pid], leaseNow, today);
      assert r.writes == [decided, leased, LeaseCreated(lease)];
    } else if applicationFound && newStatus == Approved && propertyFound {
      assert r.writes == [decided, leased];
    } else if applicationFound && newStatus == Approved {
      assert r == DecisionRun(Aborted, [decided], []);
    } else if applicationFound {
      assert r == DecisionRun(Done, [decided], []);
    }
  }

  /**
   * `updateApplicationStatus`. `leases` and `properties` are the page's loaded snapshot, `now`
   * the clock reading and `today` its calendar date. Past the checks, the store ends as
   * `DecisionWrites` describes for whether the application and the property are in it.
   */
  method UpdateApplicationStatus(store: Store, leases: seq<Lease>, properties: map<Id, Property>,
                                 application: Option<Application>, newStatus: AppStatus, now: nat,
                                 leaseNow: nat, today: CalendarDate)
    returns (outcome: StatusChangeOutcome)
    requires ValidDate(today)
    modifies store
    ensures application.None? ==> outcome == NoApplication
    ensures application.Some? && newStatus == Approved && HasActiveLease(leases, application.value.fields.propertyId) ==>
              outcome == ActiveLeaseConflict
    ensures outcome == NoApplication || outcome == ActiveLeaseConflict ==>
              store.log == old(store.log) && store.properties == old(store.properties) &&
              store.applications == old(store.applications) && store.leases == old(store.leases)
    ensures store.clients == old(store.clients) && store.users == old(store.users)
    ensures application.Some? && !(newStatus == Approved && HasActiveLease(leases, application.value.fields.propertyId)) ==>
              var app := application.value;
              var found := IndexOfId(old(store.applications), app.id) != -1;
              var run := DecisionWrites(properties, app, newStatus, now, leaseNow, today, found,
                                        IndexOfId(old(store.properties), app.fields.propertyId) != -1);
              outcome == run.outcome && store.log == old(store.log) + run.writes &&
              store.leases == old(store.leases) + run.newLeases &&
              store.applications == UpdateById(old(store.applications), app.id, f => MergeApplication(f, DecisionPatch(newStatus, now))) &&
              store.properties == if found && newStatus == Approved
                                  then UpdateById(old(store.properties), app.fields.propertyId, f => MergeProperty(f, PropertyPatch(Some(Leased))))
                                  else old(store.properties)
  {
    if application.None? {
      return NoApplication;
    }
    var app := application.value;
    if newStatus == Approved {
      if HasActiveLease(leases, app.fields.propertyId) {
        return ActiveLeaseConflict;
      }
    }
    outcome := RecordDecision(store, properties, app, newStatus, now, leaseNow, today);
  }

  /** The writes `updateApplicationStatus` makes once past its checks, as `DecisionWrites` describes. */
  method RecordDecision(store: Store, properties: map<Id, Property>, app: Application, newStatus: AppStatus,
                        now: nat, leaseNow: nat, today: CalendarDate)
    returns (outcome: StatusChangeOutcome)
    requires ValidDate(today)
    modifies store
    ensures store.clients == old(store.clients) && store.users == old(store.users)
    ensures var found := IndexOfId(old(store.applications), app.id) != -1;
      var run := DecisionWrites(properties, app, newStatus, now, leaseNow, today, found,
                                IndexOfId(old(store.properties), app.fields.propertyId) != -1);
      outcome == run.outcome && store.log == old(store.log) + run.writes &&
      store.leases == old(store.leases) + run.newLeases &&
      store.applications == UpdateById(old(store.applications), app.id, f => MergeApplication(f, DecisionPatch(newStatus, now))) &&
      store.properties == if found && newStatus == Approved
                          then UpdateById(old(store.properties), app.fields.propertyId, f => MergeProperty(f, PropertyPatch(Some(Leased))))
                          else old(store.properties)
  {
    ghost var log0, leases0, properties0 := store.log, store.leases, store.properties;
    var decided := ApplicationUpdated(app.id, DecisionPatch(newStatus, now));
    var updated := store.UpdateApplication(app.id, DecisionPatch(newStatus, now));
    if updated.Err? {
      return Aborted;
    }
    assert store.log == log0 + [decided];
    if newStatus == Approved {
      outcome := LeaseOut(store, properties, app, leaseNow, today);
      return;
    }
    assert store.log == log0 + [decided];
    return Done;
  }

  /**
   * The approval's further writes, as `ApprovalWrites` describes: the property becomes Leased,
   * then the drafted lease is created with the clock reading `leaseNow`.
   */
  method LeaseOut(store: Store, properties: map<Id, Property>, app: Application, leaseNow: nat, today: CalendarDate)
    returns (outcome: StatusChangeOutcome)
    requires ValidDate(today)
    modifies store
    ensures store.applications == old(store.applications)
    ensures store.clients == old(store.clients) && store.users == old(store.users)
    ensures store.properties == UpdateById(old(store.properties), app.fields.propertyId, f => MergeProperty(f, PropertyPatch(Some(Leased))))
    ensures var run := ApprovalWrites(properties, app, leaseNow, today,
                                      IndexOfId(old(store.properties), app.fields.propertyId) != -1);
      outcome == run.outcome && store.log == old(store.log) + run.writes &&
      store.leases == old(store.leases) + run.newLeases
  {
    var pid := app.fields.propertyId;
    var leased := store.UpdateProperty(pid, PropertyPatch(Some(Leased)));
    if leased.Err? {
      return Aborted;
    }
    if pid !in properties {
      // `property.monthly_rent` on an undefined property throws
      return Aborted;
    }
    var lease := store.CreateLease(ApprovalLease(app, properties[pid], today), leaseNow);
    return Done;
  }
}
