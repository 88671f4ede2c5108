/**
 * The public listings portal: properties not yet leased are listed first and leased ones
 * after them (for the waitlist), both narrowed by the same filters; the neighbourhood
 * choices; and the card's choice between applying and joining the waitlist.
 */
module PublicPortalView {
  import opened Wrappers
  import opened Seqs
  import opened Text
  import opened Entities
  import PropertiesView

  /** The filter bar; `None` is `all` or an empty number, and an empty search is off. */
  datatype PortalFilters = PortalFilters(
    search: string,
    priceMin: Option<real>,
    priceMax: Option<real>,
    /** The choice 4 stands for "4 or more". */
    beds: Option<int>,
    pets: Option<bool>,
    neighbourhood: Option<string>)

  const DefaultFilters: PortalFilters := PortalFilters("", None, None, None, None, None)

  /** Title, address, city, or the neighbourhood when there is one, contains the term, ignoring case. */
  predicate SearchMatches(p: Property, term: string)
  {
    PropertiesView.SearchMatches(p, term) ||
    (p.fields.neighbourhood != "" && ContainsIgnoringCase(p.fields.neighbourhood, term))
  }

  /** Four beds means at least four; any other choice must be met exactly. */
  predicate BedsMatch(p: Property, beds: int)
  {
    if beds == 4 then p.fields.beds >= 4 else p.fields.beds == beds
  }

  predicate Matches(p: Property, f: PortalFilters)
  {
    (f.search == "" || SearchMatches(p, f.search)) &&
    PropertiesView.RentAtLeast(p, f.priceMin) && PropertiesView.RentAtMost(p, f.priceMax) &&
    (f.beds.None? || BedsMatch(p, f.beds.value)) &&
    PropertiesView.PetsAgree(p, f.pets) &&
    (f.neighbourhood.None? || p.fields.neighbourhood == f.neighbourhood.value)
  }

  function SearchPred(f: PortalFilters): Property -> bool
  {
    p => f.search == "" || SearchMatches(p, f.search)
  }

  function BedsPred(f: PortalFilters): Property -> bool
  {
    p => f.beds.None? || BedsMatch(p, f.beds.value)
  }

  function NeighbourhoodPred(f: PortalFilters): Property -> bool
  {
    (p: Property) => f.neighbourhood.None? || p.fields.neighbourhood == f.neighbourhood.value
  }

  function MatchesPred(f: PortalFilters): Property -> bool
  {
    p => Matches(p, f)
  }

  function IsLeased(): Property -> bool
  {
    (p: Property) => p.fields.status == Leased
  }

  function NotLeased(): Property -> bool
  {
    (p: Property) => p.fields.status != Leased
  }

  /**
   * The filter steps of `applyFilters`, which it applies alike to each of the two groups;
   * together they are one filter by the conjunction of the criteria.
   */
  function Narrow(group: seq<Property>, f: PortalFilters): (r: seq<Property>)
    ensures r == Filter(group, MatchesPred(f))
  {
    FilterIfChain6(group, f.search != "", SearchPred(f), f.priceMin.Some?, PropertiesView.MinPred(f.priceMin),
                   f.priceMax.Some?, PropertiesView.MaxPred(f.priceMax), f.beds.Some?, BedsPred(f),
                   f.pets.Some?, PropertiesView.PetsPred(f.pets), f.neighbourhood.Some?, NeighbourhoodPred(f),
                   MatchesPred(f));
    var bySearch := FilterIf(group, f.search != "", SearchPred(f));
    var byMin := FilterIf(bySearch, f.priceMin.Some?, PropertiesView.MinPred(f.priceMin));
    var byMax := FilterIf(byMin, f.priceMax.Some?, PropertiesView.MaxPred(f.priceMax));
    var byBeds := FilterIf(byMax, f.beds.Some?, BedsPred(f));
    var byPets := FilterIf(byBeds, f.pets.Some?, PropertiesView.PetsPred(f.pets));
    FilterIf(byPets, f.neighbourhood.Some?, NeighbourhoodPred(f))
  }

  /** `applyFilters`: the matching properties not leased, then the matching leased ones, each in source order. */
  function ApplyFilters(properties: seq<Property>, f: PortalFilters): (r: seq<Property>)
    ensures r == AvailableMatches(properties, f) + LeasedMatches(properties, f)
  {
    FilterAnd(properties, NotLeased(), MatchesPred(f));
    FilterAnd(properties, IsLeased(), MatchesPred(f));
    Narrow(Filter(properties, NotLeased()), f) + Narrow(Filter(properties, IsLeased()), f)
  }

  /** The non-leased properties that match, in source order. */
  function AvailableMatches(properties: seq<Property>, f: PortalFilters): seq<Property>
  {
    Filter(properties, And(NotLeased(), MatchesPred(f)))
  }

  /** The leased properties that match, in source order. */
  function LeasedMatches(properties: seq<Property>, f: PortalFilters): seq<Property>
  {
    Filter(properties, And(IsLeased(), MatchesPred(f)))
  }

  /** Every entry of either group matches the filters and has its group's status. */
  lemma GroupsMatch(properties: seq<Property>, f: PortalFilters)
    ensures var avail := AvailableMatches(properties, f);
      forall i :: 0 <= i < |avail| ==> avail[i].fields.status != Leased && Matches(avail[i], f)
    ensures var leased := LeasedMatches(properties, f);
      forall i :: 0 <= i < |leased| ==> leased[i].fields.status == Leased && Matches(leased[i], f)
  {
    var avail, leased := AvailableMatches(properties, f), LeasedMatches(properties, f);
    forall i | 0 <= i < |avail|
      ensures avail[i].fields.status != Leased && Matches(avail[i], f)
    {
      FilterAt(properties, And(NotLeased(), MatchesPred(f)), i);
    }
    forall i | 0 <= i < |leased|
      ensures leased[i].fields.status == Leased && Matches(leased[i], f)
    {
      FilterAt(properties, And(IsLeased(), MatchesPred(f)), i);
    }
  }

  /**
   * Every listed property matches the filters, and the properties not leased come first:
   * below the split point none is leased, from it on all are.
   */
  lemma ApplyFiltersOrder(properties: seq<Property>, f: PortalFilters)
    ensures var r := ApplyFilters(properties, f);
      var k := |AvailableMatches(properties, f)|;
      k <= |r| &&
      (forall i :: 0 <= i < k ==> r[i].fields.status != Leased) &&
      (forall i :: k <= i < |r| ==> r[i].fields.status == Leased) &&
      (forall i :: 0 <= i < |r| ==> Matches(r[i], f))
  {
    var avail, leased := AvailableMatches(properties, f), LeasedMatches(properties, f);
    GroupsMatch(properties, f);
    var inAvail := (p: Property) => p.fields.status != Leased && Matches(p, f);
    var inLeased := (p: Property) => p.fields.status == Leased && Matches(p, f);
    ConcatHolds(avail, leased, inAvail, inLeased);
  }

  /** Each of the two groups keeps the source order, and no property is listed more often than it is loaded. */
  lemma ApplyFiltersKeepsOrder(properties: seq<Property>, f: PortalFilters)
    ensures IsSubsequence(AvailableMatches(properties, f), properties)
    ensures IsSubsequence(LeasedMatches(properties, f), properties)
    ensures multiset(ApplyFilters(properties, f)) <= multiset(properties)
  {
    FilterIsSubsequence(properties, And(NotLeased(), MatchesPred(f)));
    FilterIsSubsequence(properties, And(IsLeased(), MatchesPred(f)));
    FilterExclusiveSum(properties, And(NotLeased(), MatchesPred(f)), And(IsLeased(), MatchesPred(f)));
  }

  /** No matching property is missed: each appears in its own group. */
  lemma ApplyFiltersComplete(properties: seq<Property>, f: PortalFilters, i: int)
    requires 0 <= i < |properties| && Matches(properties[i], f)
    ensures properties[i] in ApplyFilters(properties, f)
    ensures properties[i].fields.status != Leased ==> properties[i] in AvailableMatches(properties, f)
    ensures properties[i].fields.status == Leased ==> properties[i] in LeasedMatches(properties, f)
  {
    assert And(NotLeased(), MatchesPred(f))(properties[i]) == (properties[i].fields.status != Leased);
    assert And(IsLeased(), MatchesPred(f))(properties[i]) == (properties[i].fields.status == Leased);
  }

  /** With the default filters every property is listed exactly once: all non-leased, then all leased. */
  lemma DefaultFiltersListEverything(properties: seq<Property>)
    ensures ApplyFilters(properties, DefaultFilters) == Filter(properties, NotLeased()) + Filter(properties, IsLeased())
    ensures multiset(ApplyFilters(properties, DefaultFilters)) == multiset(properties)
  {
    FilterSplit(properties, IsLeased(), NotLeased());
  }

  // ---------------------------------------------------------------- neighbourhoods and cards

  function NeighbourhoodOf(): Property -> string
  {
    (p: Property) => p.fields.neighbourhood
  }

  function NonEmpty(): string -> bool
  {
    (s: string) => s != ""
  }

  /** `[...new Set(properties.map(p => p.neighbourhood).filter(Boolean))]`. */
  function Neighbourhoods(properties: seq<Property>): (r: seq<string>)
    ensures Distinct(r)
    ensures forall i :: 0 <= i < |r| ==> r[i] != ""
    ensures forall i :: 0 <= i < |r| ==> exists j :: 0 <= j < |properties| && properties[j].fields.neighbourhood == r[i]
    ensures forall j :: 0 <= j < |properties| && properties[j].fields.neighbourhood != "" ==> properties[j].fields.neighbourhood in r
  {
    var names := Map(properties, NeighbourhoodOf());
    var present := Filter(names, NonEmpty());
    var r := Dedup(present);
    assert forall j :: 0 <= j < |properties| ==> names[j] == properties[j].fields.neighbourhood;
    assert forall i :: 0 <= i < |r| ==> r[i] in present && r[i] in names;
    r
  }

  /** The choices are listed in the order in which each first appears among the non-empty neighbourhoods. */
  lemma NeighbourhoodsInFirstOccurrenceOrder(properties: seq<Property>)
    ensures var present := Filter(Map(properties, NeighbourhoodOf()), NonEmpty());
      var r := Neighbourhoods(properties);
      forall i, j :: 0 <= i < j < |r| ==> IndexOf(present, r[i]) < IndexOf(present, r[j])
  {
    DedupKeepsFirstOccurrenceOrder(Filter(Map(properties, NeighbourhoodOf()), NonEmpty()));
  }

  /** The two buttons a property card can show. */
  datatype CardAction = JoinWaitlist | ApplyNow

  /** `PropertyCard`: the waitlist when an active lease on the property exists, otherwise Apply. */
  function CardActionFor(property: Property, leases: seq<Lease>): (r: CardAction)
    ensures r == JoinWaitlist <==>
              exists i :: 0 <= i < |leases| && leases[i].fields.propertyId == property.id && leases[i].fields.status == Active
  {
    var activeLease := FindFirst(leases, (l: Lease) => l.fields.propertyId == property.id && l.fields.status == Active);
    if activeLease.Some? then JoinWaitlist else ApplyNow
  }
}
