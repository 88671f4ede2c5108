/**
 * The leases page: the search over the lease list, which looks leases' properties and
 * clients up by id, and the renew and end actions, which write the lease and, when it
 * ends, free its property.
 */
module LeasesView {
  import opened Wrappers
  import opened Seqs
  import opened Text
  import opened Entities
  import opened MockStore
  import ClientsView

  /** The id lookups `loadData` builds with `reduce`: a later record with the same id wins. */
  function PropertyMap(properties: seq<Property>): (r: map<Id, Property>)
    ensures forall i :: 0 <= i < |properties| ==> properties[i].id in r
    ensures forall id :: id in r ==> r[id].id == id && r[id] in properties
  {
    IndexBy(properties, (p: Property) => p.id)
  }

  function ClientMap(clients: seq<Client>): (r: map<Id, Client>)
    ensures forall i :: 0 <= i < |clients| ==> clients[i].id in r
    ensures forall id :: id in r ==> r[id].id == id && r[id] in clients
  {
    IndexBy(clients, (c: Client) => c.id)
  }

  /** The lease's property is known and its title contains the term, or its client is known and their "first last" does. */
  predicate SearchMatches(l: Lease, term: string, properties: map<Id, Property>, clients: map<Id, Client>)
  {
    (l.fields.propertyId in properties && ContainsIgnoringCase(properties[l.fields.propertyId].fields.title, term)) ||
    (l.fields.clientId in clients && ContainsIgnoringCase(ClientsView.FullName(clients[l.fields.clientId]), term))
  }

  function SearchPred(term: string, properties: map<Id, Property>, clients: map<Id, Client>): Lease -> bool
  {
    l => SearchMatches(l, term, properties, clients)
  }

  /** `applyFilters`: an empty term shows every lease. */
  function ApplyFilters(leases: seq<Lease>, term: string, properties: map<Id, Property>, clients: map<Id, Client>): (r: seq<Lease>)
    ensures term == "" ==> r == leases
    ensures term != "" ==> r == Filter(leases, SearchPred(term, properties, clients))
    ensures term != "" ==> forall i :: 0 <= i < |r| ==> r[i] in leases && SearchMatches(r[i], term, properties, clients)
    ensures term != "" ==> forall i :: 0 <= i < |leases| && SearchMatches(leases[i], term, properties, clients) ==> leases[i] in r
  {
    FilterIf(leases, term != "", SearchPred(term, properties, clients))
  }

  /** The search keeps the list's order. */
  lemma ApplyFiltersKeepsOrder(leases: seq<Lease>, term: string, properties: map<Id, Property>, clients: map<Id, Client>)
    ensures IsSubsequence(ApplyFilters(leases, term, properties, clients), leases)
  {
    FilterIsSubsequence(leases, SearchPred(term, properties, clients));
    if term == "" {
      PrefixIsSubsequence(leases, |leases|);
      assert leases[..|leases|] == leases;
    }
  }

  /**
   * Read against the loaded lists: a lease found by the search names a loaded property whose
   * title matches, or a loaded client whose full name matches, in each case the last loaded
   * record with that id.
   */
  lemma SearchFindsLoadedRecords(l: Lease, term: string, properties: seq<Property>, clients: seq<Client>)
    requires SearchMatches(l, term, PropertyMap(properties), ClientMap(clients))
    ensures (exists i :: LastWithKey(properties, (p: Property) => p.id, l.fields.propertyId, i) &&
               ContainsIgnoringCase(properties[i].fields.title, term)) ||
            (exists i :: LastWithKey(clients, (c: Client) => c.id, l.fields.clientId, i) &&
               ContainsIgnoringCase(ClientsView.FullName(clients[i]), term))
  {
    var pm, cm := PropertyMap(properties), ClientMap(clients);
    if l.fields.propertyId in pm && ContainsIgnoringCase(pm[l.fields.propertyId].fields.title, term) {
      var i :| 0 <= i < |properties| && LastWithKey(properties, (p: Property) => p.id, l.fields.propertyId, i) &&
               pm[l.fields.propertyId] == properties[i];
    } else {
      var i :| 0 <= i < |clients| && LastWithKey(clients, (c: Client) => c.id, l.fields.clientId, i) &&
               cm[l.fields.clientId] == clients[i];
    }
  }

  // ---------------------------------------------------------------- status changes

  /** The actions a lease card offers: Renew and End, on an active lease only. */
  function ActionsOffered(l: Lease): (r: seq<LeaseStatus>)
    ensures r != [] <==> l.fields.status == Active
    ensures r != [] ==> r == [Renewed, Ended]
  {
    if l.fields.status == Active then [Renewed, Ended] else []
  }

  datatype LeaseChangeOutcome =
    | UnknownLease
    /** A write threw not-found; later steps did not run. */
    | Aborted
    | Done

  /**
   * `handleStatusChange`: the lease is looked up in the loaded list; an unknown id writes
   * nothing. Otherwise the lease's status is written, and when the new status is `Ended` the
   * lease's property is then set back to available.
   */
  method HandleStatusChange(store: Store, leases: seq<Lease>, leaseId: Id, newStatus: LeaseStatus)
    returns (outcome: LeaseChangeOutcome)
    modifies store
    ensures FirstWithId(leases, leaseId).None? <==> outcome == UnknownLease
    ensures outcome == UnknownLease ==> store.log == old(store.log) && store.leases == old(store.leases)
    ensures store.clients == old(store.clients) && store.users == old(store.users) &&
            store.applications == old(store.applications)
    ensures outcome != UnknownLease ==>
              store.leases == UpdateById(old(store.leases), leaseId, f => MergeLease(f, LeasePatch(Some(newStatus)))) &&
              (IndexOfId(old(store.leases), leaseId) == -1 <==> outcome == Aborted && store.log == old(store.log))
    ensures outcome != UnknownLease && newStatus != Ended ==> store.properties == old(store.properties)
    ensures outcome != UnknownLease && newStatus != Ended && IndexOfId(old(store.leases), leaseId) != -1 ==>
              outcome == Done && store.log == old(store.log) + [LeaseUpdated(leaseId, LeasePatch(Some(newStatus)))]
    ensures outcome == Done && newStatus == Ended ==>
              var pid := FirstWithId(leases, leaseId).value.fields.propertyId;
              store.properties == UpdateById(old(store.properties), pid, f => MergeProperty(f, PropertyPatch(Some(Available)))) &&
              store.log == old(store.log) + [LeaseUpdated(leaseId, LeasePatch(Some(Ended))),
                                             PropertyUpdated(pid, PropertyPatch(Some(Available)))]
    ensures outcome != UnknownLease && newStatus == Ended && IndexOfId(old(store.leases), leaseId) != -1 ==>
              var pid := FirstWithId(leases, leaseId).value.fields.propertyId;
              (outcome == Aborted <==> IndexOfId(old(store.properties), pid) == -1) &&
              (outcome == Aborted ==> store.log == old(store.log) + [LeaseUpdated(leaseId, LeasePatch(Some(Ended)))])
    ensures outcome == UnknownLease || outcome == Aborted ==> store.properties == old(store.properties)
  {
    var lease := FirstWithId(leases, leaseId);
    if lease.None? {
      return UnknownLease;
    }
    var updated := store.UpdateLease(leaseId, LeasePatch(Some(newStatus)));
    if updated.Err? {
      return Aborted;
    }
    if newStatus == Ended {
      var freed := store.UpdateProperty(lease.value.fields.propertyId, PropertyPatch(Some(Available)));
      if freed.Err? {
        return Aborted;
      }
    }
    return Done;
  }
}
