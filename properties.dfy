/**
 * The landlord's properties page: the filter bar over the property list, the amenity and
 * photo editors of the property form, and the lookups of a property's applications and lease.
 */
module PropertiesView {
  import opened Wrappers
  import opened Seqs
  import opened Text
  import opened Entities

  /** The filter bar; `None` is `all` or an empty number, and an empty search is off. */
  datatype PropertyFilters = PropertyFilters(
    search: string,
    status: Option<PropertyStatus>,
    priceMin: Option<real>,
    priceMax: Option<real>,
    beds: Option<int>,
    /** `yes` is `Some(true)`, `no` is `Some(false)`. */
    pets: Option<bool>)

  const DefaultFilters: PropertyFilters := PropertyFilters("", None, None, None, None, None)

  // Criteria shared with the public portal; each holds trivially when its filter is off.

  /** The rent is at least the lower bound. */
  predicate RentAtLeast(p: Property, min: Option<real>)
  {
    min.None? || p.fields.monthlyRent >= min.value
  }

  /** The rent is at most the upper bound. */
  predicate RentAtMost(p: Property, max: Option<real>)
  {
    max.None? || p.fields.monthlyRent <= max.value
  }

  /** Whether `pets` is among the amenities agrees with the choice. */
  predicate PetsAgree(p: Property, pets: Option<bool>)
  {
    pets.None? || (("pets" in p.fields.amenities) == pets.value)
  }

  /** Title, address or city contains the term, ignoring case. */
  predicate SearchMatches(p: Property, term: string)
  {
    ContainsIgnoringCase(p.fields.title, term) || ContainsIgnoringCase(p.fields.address, term) ||
    ContainsIgnoringCase(p.fields.city, term)
  }

  predicate Matches(p: Property, f: PropertyFilters)
  {
    (f.search == "" || SearchMatches(p, f.search)) &&
    (f.status.None? || p.fields.status == f.status.value) &&
    RentAtLeast(p, f.priceMin) && RentAtMost(p, f.priceMax) &&
    (f.beds.None? || p.fields.beds == f.beds.value) &&
    PetsAgree(p, f.pets)
  }

  function SearchPred(f: PropertyFilters): Property -> bool
  {
    p => f.search == "" || SearchMatches(p, f.search)
  }

  function StatusPred(f: PropertyFilters): Property -> bool
  {
    (p: Property) => f.status.None? || p.fields.status == f.status.value
  }

  function MinPred(min: Option<real>): Property -> bool
  {
    p => RentAtLeast(p, min)
  }

  function MaxPred(max: Option<real>): Property -> bool
  {
    p => RentAtMost(p, max)
  }

  function BedsPred(f: PropertyFilters): Property -> bool
  {
    (p: Property) => f.beds.None? || p.fields.beds == f.beds.value
  }

  function PetsPred(pets: Option<bool>): Property -> bool
  {
    p => PetsAgree(p, pets)
  }

  function MatchesPred(f: PropertyFilters): Property -> bool
  {
    p => Matches(p, f)
  }

  /**
   * `applyFilters`; the beds choice "3+" is the value 3 and keeps exactly three beds. Together
   * the steps are one filter by the conjunction of the criteria.
   */
  function ApplyFilters(properties: seq<Property>, f: PropertyFilters): (r: seq<Property>)
    ensures r == Filter(properties, MatchesPred(f))
  {
    FilterIfChain6(properties, f.search != "", SearchPred(f), f.status.Some?, StatusPred(f),
                   f.priceMin.Some?, MinPred(f.priceMin), f.priceMax.Some?, MaxPred(f.priceMax),
                   f.beds.Some?, BedsPred(f), f.pets.Some?, PetsPred(f.pets), MatchesPred(f));
    var bySearch := FilterIf(properties, f.search != "", SearchPred(f));
    var byStatus := FilterIf(bySearch, f.status.Some?, StatusPred(f));
    var byMin := FilterIf(byStatus, f.priceMin.Some?, MinPred(f.priceMin));
    var byMax := FilterIf(byMin, f.priceMax.Some?, MaxPred(f.priceMax));
    var byBeds := FilterIf(byMax, f.beds.Some?, BedsPred(f));
    FilterIf(byBeds, f.pets.Some?, PetsPred(f.pets))
  }

  /** The filtered list keeps source order, holds only matches and misses none. */
  lemma ApplyFiltersSpec(properties: seq<Property>, f: PropertyFilters)
    ensures var r := ApplyFilters(properties, f);
      IsSubsequence(r, properties) &&
      (forall i :: 0 <= i < |r| ==> Matches(r[i], f)) &&
      (forall i :: 0 <= i < |properties| && Matches(properties[i], f) ==> properties[i] in r)
  {
    FilterIsSubsequence(properties, MatchesPred(f));
  }

  /** The default filters show every property. */
  lemma DefaultFiltersKeepAll(properties: seq<Property>)
    ensures ApplyFilters(properties, DefaultFilters) == properties
  {
  }

  /** What each active filter guarantees about every property it lets through. */
  lemma FilteredSatisfyActiveFilters(properties: seq<Property>, f: PropertyFilters, i: int)
    requires 0 <= i < |ApplyFilters(properties, f)|
    ensures var p := ApplyFilters(properties, f)[i];
      (f.search != "" ==>
         ContainsIgnoringCase(p.fields.title, f.search) || ContainsIgnoringCase(p.fields.address, f.search) ||
         ContainsIgnoringCase(p.fields.city, f.search)) &&
      (f.status.Some? ==> p.fields.status == f.status.value) &&
      (f.priceMin.Some? ==> f.priceMin.value <= p.fields.monthlyRent) &&
      (f.priceMax.Some? ==> p.fields.monthlyRent <= f.priceMax.value) &&
      (f.beds.Some? ==> p.fields.beds == f.beds.value) &&
      (f.pets.Some? ==> ("pets" in p.fields.amenities <==> f.pets.value))
  {
    ApplyFiltersSpec(properties, f);
  }

  // ---------------------------------------------------------------- the property form

  /** `toggleAmenity`: remove every copy of the amenity if it is there, otherwise append it. */
  function ToggleAmenity(amenities: seq<string>, amenity: string): (r: seq<string>)
    ensures amenity in r <==> amenity !in amenities
    ensures forall b :: b != amenity ==> multiset(r)[b] == multiset(amenities)[b]
    ensures amenity !in amenities ==> r == amenities + [amenity]
    ensures amenity in amenities ==> IsSubsequence(r, amenities)
  {
    if amenity in amenities then
      var q := (b: string) => b != amenity;
      FilterSplit(amenities, (b: string) => b == amenity, q);
      FilterIsSubsequence(amenities, q);
      NoneLeft(amenities, amenity);
      Filter(amenities, q)
    else amenities + [amenity]
  }

  lemma {:induction false} NoneLeft(s: seq<string>, amenity: string)
    ensures amenity !in Filter(s, (b: string) => b != amenity)
  {
    if s != [] {
      NoneLeft(s[1..], amenity);
    }
  }

  /** Toggling twice restores whether the amenity is present, and leaves every other amenity alone. */
  lemma ToggleTwice(amenities: seq<string>, amenity: string)
    ensures var twice := ToggleAmenity(ToggleAmenity(amenities, amenity), amenity);
      (amenity in twice <==> amenity in amenities) &&
      forall b :: b != amenity ==> multiset(twice)[b] == multiset(amenities)[b]
  {
  }

  /** Toggling an absent amenity on and off gives back the same list. */
  lemma ToggleOnOff(amenities: seq<string>, amenity: string)
    requires amenity !in amenities
    ensures ToggleAmenity(ToggleAmenity(amenities, amenity), amenity) == amenities
  {
    var on := amenities + [amenity];
    FilterAppend(amenities, [amenity], (b: string) => b != amenity);
    FilterAll(amenities, (b: string) => b != amenity);
  }

  /** `removeImage(i)`: photo `i` removed, the others kept in order. */
  function RemoveImage(photos: seq<Url>, index: int): (r: seq<Url>)
    ensures 0 <= index < |photos| ==>
              |r| == |photos| - 1 && r[..index] == photos[..index] && r[index..] == photos[index + 1..]
    ensures !(0 <= index < |photos|) ==> r == photos
  {
    RemoveAt(photos, index)
  }

  // ---------------------------------------------------------------- lookups

  /** `getPropertyApplications`: the applications for the property, in order. */
  function PropertyApplications(applications: seq<Application>, propertyId: Id): (r: seq<Application>)
    ensures IsSubsequence(r, applications)
    ensures forall i :: 0 <= i < |r| ==> r[i].fields.propertyId == propertyId
    ensures forall i :: 0 <= i < |applications| && applications[i].fields.propertyId == propertyId ==> applications[i] in r
  {
    FilterIsSubsequence(applications, (a: Application) => a.fields.propertyId == propertyId);
    Filter(applications, (a: Application) => a.fields.propertyId == propertyId)
  }

  /** `getPropertyLease`: the first lease on the property, whatever its status. */
  function PropertyLease(leases: seq<Lease>, propertyId: Id): (r: Option<Lease>)
    ensures r.None? <==> forall i :: 0 <= i < |leases| ==> leases[i].fields.propertyId != propertyId
    ensures r.Some? ==>
              exists i :: 0 <= i < |leases| && leases[i] == r.value &&
                r.value.fields.propertyId == propertyId &&
                forall j :: 0 <= j < i ==> leases[j].fields.propertyId != propertyId
  {
    var k := FindIndex(leases, (l: Lease) => l.fields.propertyId == propertyId);
    if k == -1 then None else Some(leases[k])
  }
}
