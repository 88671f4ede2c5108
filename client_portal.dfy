/**
 * The client-facing listings page: the filter bar over the available properties loaded for
 * it. It reads the `rent_amount`, `bedrooms` and `bathrooms` fields, which a record may lack;
 * a bound compared against a missing field fails, as a comparison with `undefined` does.
 */
module ClientPortalView {
  import opened Wrappers
  import opened Seqs
  import opened Text
  import opened Entities

  /** The filter bar; `None` is `all` or an empty number, and an empty search is off. */
  datatype PortalFilters = PortalFilters(
    search: string,
    propertyType: Option<string>,
    minPrice: Option<real>,
    maxPrice: Option<real>,
    bedrooms: Option<int>,
    bathrooms: Option<real>)

  const DefaultFilters: PortalFilters := PortalFilters("", None, None, None, None, None)

  /** Title or address contains the term, ignoring case. */
  predicate SearchMatches(p: Property, term: string)
  {
    ContainsIgnoringCase(p.fields.title, term) || ContainsIgnoringCase(p.fields.address, term)
  }

  /** `rent_amount >= min`: false when the property has no rent amount. */
  predicate RentAtLeast(p: Property, min: real)
  {
    p.fields.rentAmount.Some? && p.fields.rentAmount.value >= min
  }

  /** `rent_amount <= max`: false when the property has no rent amount. */
  predicate RentAtMost(p: Property, max: real)
  {
    p.fields.rentAmount.Some? && p.fields.rentAmount.value <= max
  }

  predicate Matches(p: Property, f: PortalFilters)
  {
    (f.search == "" || SearchMatches(p, f.search)) &&
    (f.propertyType.None? || p.fields.propertyType == f.propertyType.value) &&
    (f.minPrice.None? || RentAtLeast(p, f.minPrice.value)) &&
    (f.maxPrice.None? || RentAtMost(p, f.maxPrice.value)) &&
    (f.bedrooms.None? || p.fields.bedrooms == Some(f.bedrooms.value)) &&
    (f.bathrooms.None? || (p.fields.bathrooms.Some? && p.fields.bathrooms.value >= f.bathrooms.value))
  }

  function SearchPred(f: PortalFilters): Property -> bool
  {
    p => f.search == "" || SearchMatches(p, f.search)
  }

  function TypePred(f: PortalFilters): Property -> bool
  {
    (p: Property) => f.propertyType.None? || p.fields.propertyType == f.propertyType.value
  }

  function MinPred(f: PortalFilters): Property -> bool
  {
    p => f.minPrice.None? || RentAtLeast(p, f.minPrice.value)
  }

  function MaxPred(f: PortalFilters): Property -> bool
  {
    p => f.maxPrice.None? || RentAtMost(p, f.maxPrice.value)
  }

  function BedroomsPred(f: PortalFilters): Property -> bool
  {
    (p: Property) => f.bedrooms.None? || p.fields.bedrooms == Some(f.bedrooms.value)
  }

  function BathroomsPred(f: PortalFilters): Property -> bool
  {
    (p: Property) => f.bathrooms.None? || (p.fields.bathrooms.Some? && p.fields.bathrooms.value >= f.bathrooms.value)
  }

  function MatchesPred(f: PortalFilters): Property -> bool
  {
    p => Matches(p, f)
  }

  /**
   * `applyFilters`: one optional filter step per control, in the page's order; together the
   * steps are one filter by the conjunction of the criteria.
   */
  function ApplyFilters(properties: seq<Property>, f: PortalFilters): (r: seq<Property>)
    ensures r == Filter(properties, MatchesPred(f))
  {
    FilterIfChain6(properties, f.search != "", SearchPred(f), f.propertyType.Some?, TypePred(f),
                   f.minPrice.Some?, MinPred(f), f.maxPrice.Some?, MaxPred(f),
                   f.bedrooms.Some?, BedroomsPred(f), f.bathrooms.Some?, BathroomsPred(f), MatchesPred(f));
    var bySearch := FilterIf(properties, f.search != "", SearchPred(f));
    var byType := FilterIf(bySearch, f.propertyType.Some?, TypePred(f));
    var byMin := FilterIf(byType, f.minPrice.Some?, MinPred(f));
    var byMax := FilterIf(byMin, f.maxPrice.Some?, MaxPred(f));
    var byBedrooms := FilterIf(byMax, f.bedrooms.Some?, BedroomsPred(f));
    FilterIf(byBedrooms, f.bathrooms.Some?, BathroomsPred(f))
  }

  /** The filtered list keeps the loaded order, holds only matches and misses none. */
  lemma ApplyFiltersSpec(properties: seq<Property>, f: PortalFilters)
    ensures var r := ApplyFilters(properties, f);
      IsSubsequence(r, properties) &&
      (forall i :: 0 <= i < |r| ==> Matches(r[i], f)) &&
      (forall i :: 0 <= i < |properties| && Matches(properties[i], f) ==> properties[i] in r)
  {
    FilterIsSubsequence(properties, MatchesPred(f));
  }

  /** The default filters show every loaded property. */
  lemma DefaultFiltersKeepAll(properties: seq<Property>)
    ensures ApplyFilters(properties, DefaultFilters) == properties
  {
  }

  /** What each active filter guarantees about every property it lets through. */
  lemma FilteredSatisfyActiveFilters(properties: seq<Property>, f: PortalFilters, i: int)
    requires 0 <= i < |ApplyFilters(properties, f)|
    ensures var p := ApplyFilters(properties, f)[i];
      (f.search != "" ==>
         ContainsIgnoringCase(p.fields.title, f.search) || ContainsIgnoringCase(p.fields.address, f.search)) &&
      (f.propertyType.Some? ==> p.fields.propertyType == f.propertyType.value) &&
      (f.minPrice.Some? ==> p.fields.rentAmount.Some? && f.minPrice.value <= p.fields.rentAmount.value) &&
      (f.maxPrice.Some? ==> p.fields.rentAmount.Some? && p.fields.rentAmount.value <= f.maxPrice.value) &&
      (f.bedrooms.Some? ==> p.fields.bedrooms == Some(f.bedrooms.value)) &&
      (f.bathrooms.Some? ==> p.fields.bathrooms.Some? && p.fields.bathrooms.value >= f.bathrooms.value)
  {
    ApplyFiltersSpec(properties, f);
  }
}
