/**
 * The in-memory store of the development build: one array per entity, mutated in place.
 * `create` appends the supplied fields with an id made from the clock reading and that
 * reading as the creation time; `update` merges a patch into the first record with the id,
 * or fails with not-found; `get` returns the first record with the id; `list` returns the
 * current contents whatever sort key is asked for.
 *
 * The same store stands in for the backend in the approval and lease workflows. A ghost
 * log records every write the store performs, in order, so that a workflow's contract can
 * say which writes it made and in what sequence.
 */
module MockStore {
  import opened Wrappers
  import opened Seqs
  import opened Text
  import opened Entities

  /** The fields a caller may ask `update` to overwrite; an absent field is left as it was. */
  datatype PropertyPatch = PropertyPatch(status: Option<PropertyStatus>)
  datatype ApplicationPatch = ApplicationPatch(status: Option<AppStatus>, decisionAt: Option<Millis>)
  datatype LeasePatch = LeasePatch(status: Option<LeaseStatus>)

  /** The error `update` throws when no record has the id. */
  datatype NotFound = NotFound(entity: string, id: Id)

  datatype Result<T> = Ok(value: T) | Err(error: NotFound)

  /** A write the store performed. */
  datatype Write =
    | PropertyCreated(property: Property)
    | PropertyUpdated(propertyId: Id, propertyPatch: PropertyPatch)
    | ClientCreated(client: Client)
    | ApplicationCreated(application: Application)
    | ApplicationUpdated(applicationId: Id, applicationPatch: ApplicationPatch)
    | LeaseCreated(lease: Lease)
    | LeaseUpdated(leaseId: Id, leasePatch: LeasePatch)

  /** `{ ...record, ...patch }` for each entity. */
  function MergeProperty(f: PropertyFields, p: PropertyPatch): (r: PropertyFields)
    ensures p.status.None? ==> r == f
    ensures p.status.Some? ==> r.status == p.status.value && r.(status := f.status) == f
  {
    f.(status := p.status.GetOr(f.status))
  }

  function MergeApplication(f: ApplicationFields, p: ApplicationPatch): (r: ApplicationFields)
    ensures r.status == (if p.status.Some? then p.status else f.status)
    ensures r.decisionAt == (if p.decisionAt.Some? then p.decisionAt else f.decisionAt)
    ensures r.(status := f.status, decisionAt := f.decisionAt) == f
  {
    f.(status := if p.status.Some? then p.status else f.status,
       decisionAt := if p.decisionAt.Some? then p.decisionAt else f.decisionAt)
  }

  function MergeLease(f: LeaseFields, p: LeasePatch): (r: LeaseFields)
    ensures p.status.None? ==> r == f
    ensures p.status.Some? ==> r.status == p.status.value && r.(status := f.status) == f
  {
    f.(status := p.status.GetOr(f.status))
  }

  /** Merging the same patch a second time changes nothing. */
  lemma MergesIdempotent(pf: PropertyFields, pp: PropertyPatch, af: ApplicationFields, ap: ApplicationPatch,
                         lf: LeaseFields, lp: LeasePatch)
    ensures MergeProperty(MergeProperty(pf, pp), pp) == MergeProperty(pf, pp)
    ensures MergeApplication(MergeApplication(af, ap), ap) == MergeApplication(af, ap)
    ensures MergeLease(MergeLease(lf, lp), lp) == MergeLease(lf, lp)
  {
  }

  /** `rows.findIndex(r => r.id === id)`. */
  function IndexOfId<F>(rows: seq<Row<F>>, id: Id): (r: int)
    ensures -1 <= r < |rows|
    ensures r == -1 <==> forall i :: 0 <= i < |rows| ==> rows[i].id != id
    ensures 0 <= r ==> rows[r].id == id && forall i :: 0 <= i < r ==> rows[i].id != id
  {
    FindIndex(rows, (row: Row<F>) => row.id == id)
  }

  /** `rows.find(r => r.id === id)`: the first row with the id, and nothing exactly when no row has it. */
  function FirstWithId<F>(rows: seq<Row<F>>, id: Id): (r: Option<Row<F>>)
    ensures r.None? <==> forall i :: 0 <= i < |rows| ==> rows[i].id != id
    ensures r.Some? ==>
              exists i :: 0 <= i < |rows| && rows[i] == r.value && rows[i].id == id &&
                forall j :: 0 <= j < i ==> rows[j].id != id
  {
    var i := IndexOfId(rows, id);
    if i == -1 then None else Some(rows[i])
  }

  /** The rows after `update(id, ...)`: the first row with the id gets its fields merged; a missing id changes nothing. */
  function UpdateById<F>(rows: seq<Row<F>>, id: Id, merge: F -> F): (r: seq<Row<F>>)
    ensures |r| == |rows|
    ensures forall i :: 0 <= i < |rows| && i != IndexOfId(rows, id) ==> r[i] == rows[i]
    ensures IndexOfId(rows, id) == -1 ==> r == rows
    ensures 0 <= IndexOfId(rows, id) ==>
              var k := IndexOfId(rows, id);
              r[k] == Row(id, rows[k].createdDate, merge(rows[k].fields))
  {
    var i := IndexOfId(rows, id);
    if i == -1 then rows else rows[i := rows[i].(fields := merge(rows[i].fields))]
  }

  /** Repeating an update with an idempotent merge leaves the rows as the first update left them. */
  lemma UpdateByIdIdempotent<F>(rows: seq<Row<F>>, id: Id, merge: F -> F)
    requires forall f :: merge(merge(f)) == merge(f)
    ensures UpdateById(UpdateById(rows, id, merge), id, merge) == UpdateById(rows, id, merge)
  {
    var once := UpdateById(rows, id, merge);
    var i := IndexOfId(rows, id);
    if i != -1 {
      assert forall j :: 0 <= j < i ==> once[j].id == rows[j].id;
      assert IndexOfId(once, id) == i;
    }
  }

  /** The id `create` assigns: the entity's prefix, a dash, and the clock reading in decimal. */
  function NewId(prefix: string, now: nat): (r: Id)
    ensures |r| >= |prefix| + 2 && r[..|prefix| + 1] == prefix + "-"
    ensures forall i :: |prefix| + 1 <= i < |r| ==> '0' <= r[i] <= '9'
  {
    assert (prefix + "-" + NatToString(now))[..|prefix| + 1] == prefix + "-";
    prefix + "-" + NatToString(now)
  }

  /** Records created at different clock readings get different ids. */
  lemma NewIdInjective(prefix: string, a: nat, b: nat)
    ensures NewId(prefix, a) == NewId(prefix, b) ==> a == b
  {
    if NewId(prefix, a) == NewId(prefix, b) {
      assert NewId(prefix, a)[|prefix| + 1..] == NatToString(a);
      assert NewId(prefix, b)[|prefix| + 1..] == NatToString(b);
      NatToStringInjective(a, b);
    }
  }

  class Store {
    var properties: seq<Property>
    var clients: seq<Client>
    var applications: seq<Application>
    var leases: seq<Lease>
    var users: seq<User>
    /** Every write performed so far, oldest first. */
    ghost var log: seq<Write>

    constructor (properties: seq<Property>, clients: seq<Client>, applications: seq<Application>,
                 leases: seq<Lease>, users: seq<User>)
      ensures this.properties == properties && this.clients == clients
      ensures this.applications == applications && this.leases == leases && this.users == users
      ensures log == []
    {
      this.properties := properties;
      this.clients := clients;
      this.applications := applications;
      this.leases := leases;
      this.users := users;
      log := [];
    }

    method ListProperties(sort: string) returns (r: seq<Property>)
      ensures r == properties
    {
      r := properties;
    }

    method GetProperty(id: Id) returns (r: Option<Property>)
      ensures r.None? <==> forall i :: 0 <= i < |properties| ==> properties[i].id != id
      ensures r.Some? ==> r.value in properties && r.value.id == id
      ensures r.Some? ==> r.value == properties[IndexOfId(properties, id)]
    {
      var i := IndexOfId(properties, id);
      if i == -1 {
        r := None;
      } else {
        r := Some(properties[i]);
      }
    }

    method CreateProperty(data: PropertyFields, now: nat) returns (r: Property)
      modifies this
      ensures r == Row(NewId("prop", now), now, data)
      ensures properties == old(properties) + [r]
      ensures log == old(log) + [PropertyCreated(r)]
      ensures clients == old(clients) && applications == old(applications)
      ensures leases == old(leases) && users == old(users)
    {
      r := Row(NewId("prop", now), now, data);
      properties := properties + [r];
      log := log + [PropertyCreated(r)];
    }

    method UpdateProperty(id: Id, patch: PropertyPatch) returns (r: Result<Property>)
      modifies this
      ensures properties == UpdateById(old(properties), id, f => MergeProperty(f, patch))
      ensures r.Err? <==> IndexOfId(old(properties), id) == -1
      ensures r.Err? ==> r.error == NotFound("Property", id) && log == old(log)
      ensures r.Ok? ==> r.value == properties[IndexOfId(old(properties), id)]
      ensures r.Ok? ==> log == old(log) + [PropertyUpdated(id, patch)]
      ensures clients == old(clients) && applications == old(applications)
      ensures leases == old(leases) && users == old(users)
    {
      var i := IndexOfId(properties, id);
      properties := UpdateById(properties, id, f => MergeProperty(f, patch));
      if i == -1 {
        r := Err(NotFound("Property", id));
      } else {
        r := Ok(properties[i]);
        log := log + [PropertyUpdated(id, patch)];
      }
    }

    method ListClients(sort: string) returns (r: seq<Client>)
      ensures r == clients
    {
      r := clients;
    }

    method CreateClient(data: ClientFields, now: nat) returns (r: Client)
      modifies this
      ensures r == Row(NewId("client", now), now, data)
      ensures clients == old(clients) + [r]
      ensures log == old(log) + [ClientCreated(r)]
      ensures properties == old(properties) && applications == old(applications)
      ensures leases == old(leases) && users == old(users)
    {
      r := Row(NewId("client", now), now, data);
      clients := clients + [r];
      log := log + [ClientCreated(r)];
    }

    method ListApplications(sort: string) returns (r: seq<Application>)
      ensures r == applications
    {
      r := applications;
    }

    method CreateApplication(data: ApplicationFields, now: nat) returns (r: Application)
      modifies this
      ensures r == Row(NewId("app", now), now, data)
      ensures applications == old(applications) + [r]
      ensures log == old(log) + [ApplicationCreated(r)]
      ensures properties == old(properties) && clients == old(clients)
      ensures leases == old(leases) && users == old(users)
    {
      r := Row(NewId("app", now), now, data);
      applications := applications + [r];
      log := log + [ApplicationCreated(r)];
    }

    method UpdateApplication(id: Id, patch: ApplicationPatch) returns (r: Result<Application>)
      modifies this
      ensures applications == UpdateById(old(applications), id, f => MergeApplication(f, patch))
      ensures r.Err? <==> IndexOfId(old(applications), id) == -1
      ensures r.Err? ==> r.error == NotFound("Application", id) && log == old(log)
      ensures r.Ok? ==> r.value == applications[IndexOfId(old(applications), id)]
      ensures r.Ok? ==> log == old(log) + [ApplicationUpdated(id, patch)]
      ensures properties == old(properties) && clients == old(clients)
      ensures leases == old(leases) && users == old(users)
    {
      var i := IndexOfId(applications, id);
      applications := UpdateById(applications, id, f => MergeApplication(f, patch));
      if i == -1 {
        r := Err(NotFound("Application", id));
      } else {
        r := Ok(applications[i]);
        log := log + [ApplicationUpdated(id, patch)];
      }
    }

    method ListLeases(sort: string) returns (r: seq<Lease>)
      ensures r == leases
    {
      r := leases;
    }

    method CreateLease(data: LeaseFields, now: nat) returns (r: Lease)
      modifies this
      ensures r == Row(NewId("lease", now), now, data)
      ensures leases == old(leases) + [r]
      ensures log == old(log) + [LeaseCreated(r)]
      ensures properties == old(properties) && clients == old(clients)
      ensures applications == old(applications) && users == old(users)
    {
      r := Row(NewId("lease", now), now, data);
      leases := leases + [r];
      log := log + [LeaseCreated(r)];
    }

    method UpdateLease(id: Id, patch: LeasePatch) returns (r: Result<Lease>)
      modifies this
      ensures leases == UpdateById(old(leases), id, f => MergeLease(f, patch))
      ensures r.Err? <==> IndexOfId(old(leases), id) == -1
      ensures r.Err? ==> r.error == NotFound("Lease", id) && log == old(log)
      ensures r.Ok? ==> r.value == leases[IndexOfId(old(leases), id)]
      ensures r.Ok? ==> log == old(log) + [LeaseUpdated(id, patch)]
      ensures properties == old(properties) && clients == old(clients)
      ensures applications == old(applications) && users == old(users)
    {
      var i := IndexOfId(leases, id);
      leases := UpdateById(leases, id, f => MergeLease(f, patch));
      if i == -1 {
        r := Err(NotFound("Lease", id));
      } else {
        r := Ok(leases[i]);
        log := log + [LeaseUpdated(id, patch)];
      }
    }

    method ListUsers() returns (r: seq<User>)
      ensures r == users
    {
      r := users;
    }
  }
}
