/**
 * The clients page: search over the client list, the duplicate-email warning and the
 * conversion the new-client form makes before creating, each client's pipeline stage, and
 * the properties that fit a client's budget.
 */
module ClientsView {
  import opened Wrappers
  import opened Seqs
  import opened Text
  import opened Entities

  /** `${first_name} ${last_name}`. */
  function FullName(c: Client): (r: string)
    ensures |r| == |c.fields.firstName| + 1 + |c.fields.lastName|
  {
    c.fields.firstName + " " + c.fields.lastName
  }

  /** Name or email contains the term ignoring case, or the phone number contains it exactly. */
  predicate SearchMatches(c: Client, term: string)
  {
    ContainsIgnoringCase(FullName(c), term) || ContainsIgnoringCase(c.fields.email, term) ||
    Contains(c.fields.phone, term)
  }

  function SearchPred(term: string): Client -> bool
  {
    c => SearchMatches(c, term)
  }

  /** `applyFilters`: an empty term shows every client. */
  function ApplyFilters(clients: seq<Client>, term: string): (r: seq<Client>)
    ensures term == "" ==> r == clients
    ensures term != "" ==> r == Filter(clients, SearchPred(term))
    ensures term != "" ==> forall i :: 0 <= i < |r| ==> SearchMatches(r[i], term)
    ensures term != "" ==> forall i :: 0 <= i < |clients| && SearchMatches(clients[i], term) ==> clients[i] in r
  {
    FilterIf(clients, term != "", SearchPred(term))
  }

  /** The search keeps the list's order. */
  lemma ApplyFiltersKeepsOrder(clients: seq<Client>, term: string)
    ensures IsSubsequence(ApplyFilters(clients, term), clients)
  {
    FilterIsSubsequence(clients, SearchPred(term));
    if term == "" {
      PrefixIsSubsequence(clients, |clients|);
      assert clients[..|clients|] == clients;
    }
  }

  /** The phone number is matched as typed: letter case matters there, unlike in name and email. */
  lemma PhoneMatchIsExact(c: Client, term: string)
    requires !ContainsIgnoringCase(FullName(c), term) && !ContainsIgnoringCase(c.fields.email, term)
    ensures SearchMatches(c, term) <==> Contains(c.fields.phone, term)
  {
  }

  // ---------------------------------------------------------------- the new-client form

  const DuplicateMessage: string := "A client with this email already exists"

  /** `checkDuplicateEmail`: the warning when the email is non-empty and some client has exactly that email. */
  function DuplicateWarning(clients: seq<Client>, email: string): (r: string)
    ensures r != "" <==> email != "" && exists i :: 0 <= i < |clients| && clients[i].fields.email == email
    ensures r == "" || r == DuplicateMessage
  {
    if email != "" && Any(clients, (c: Client) => c.fields.email == email) then DuplicateMessage else ""
  }

  /** The form as typed; the budgets are text. */
  datatype ClientForm = ClientForm(
    firstName: string, lastName: string, email: string, phone: string, status: string,
    budgetMin: string, budgetMax: string, prefsText: string, source: string, notes: string)

  /** `s ? parseFloat(s) : undefined`; a NaN result is `None` as well. */
  function Budget(s: string, parse: string -> Option<real>): (r: Option<real>)
    ensures s == "" ==> r.None?
    ensures s != "" ==> r == parse(s)
  {
    if s == "" then None else parse(s)
  }

  /**
   * `handleSubmit`: nothing is created while a duplicate warning is showing; otherwise the
   * record created is the form with its budgets converted to numbers.
   */
  function SubmitClient(form: ClientForm, warning: string, parse: string -> Option<real>): (r: Option<ClientFields>)
    ensures r.None? <==> warning != ""
    ensures r.Some? ==>
              r.value.email == form.email && r.value.firstName == form.firstName && r.value.lastName == form.lastName &&
              r.value.phone == form.phone && r.value.status == form.status && r.value.prefsText == form.prefsText &&
              r.value.source == form.source && r.value.notes == form.notes &&
              (form.budgetMin == "" ==> r.value.budgetMin.None?) &&
              (form.budgetMax == "" ==> r.value.budgetMax.None?) &&
              (form.budgetMin != "" ==> r.value.budgetMin == parse(form.budgetMin)) &&
              (form.budgetMax != "" ==> r.value.budgetMax == parse(form.budgetMax))
  {
    if warning != "" then None
    else Some(ClientFields(form.firstName, form.lastName, form.email, form.phone, form.status,
                           Budget(form.budgetMin, parse), Budget(form.budgetMax, parse),
                           form.prefsText, form.source, form.notes))
  }

  /** With the warning computed for the form's own email, a submission goes through exactly when no client has it. */
  lemma SubmitBlockedIffDuplicate(clients: seq<Client>, form: ClientForm, parse: string -> Option<real>)
    ensures SubmitClient(form, DuplicateWarning(clients, form.email), parse).None? <==>
              form.email != "" && exists i :: 0 <= i < |clients| && clients[i].fields.email == form.email
  {
  }

  // ---------------------------------------------------------------- stage, lease, matches

  datatype Stage = Lead | Applied | Leased

  /** `getClientApplications`: the applications naming the client, in order. */
  function ClientApplications(applications: seq<Application>, clientId: Id): (r: seq<Application>)
    ensures forall i :: 0 <= i < |r| ==> r[i].fields.clientId == Some(clientId) && r[i] in applications
    ensures forall i :: 0 <= i < |applications| && applications[i].fields.clientId == Some(clientId) ==> applications[i] in r
  {
    Filter(applications, (a: Application) => a.fields.clientId == Some(clientId))
  }

  function IsClientActiveLease(clientId: Id): Lease -> bool
  {
    (l: Lease) => l.fields.clientId == clientId && l.fields.status == Active
  }

  /** `getClientLease`: the first active lease of the client, in list order. */
  function ClientLease(leases: seq<Lease>, clientId: Id): (r: Option<Lease>)
    ensures r.Some? ==> r.value in leases && r.value.fields.clientId == clientId && r.value.fields.status == Active
    ensures r.None? <==> forall i :: 0 <= i < |leases| ==> !(leases[i].fields.clientId == clientId && leases[i].fields.status == Active)
    ensures r.Some? ==>
              exists i :: 0 <= i < |leases| && leases[i] == r.value &&
                forall j :: 0 <= j < i ==> !(leases[j].fields.clientId == clientId && leases[j].fields.status == Active)
  {
    FindFirst(leases, IsClientActiveLease(clientId))
  }

  /** `getClientStage`; the approved-application branch gives the same stage as any application. */
  function ClientStage(applications: seq<Application>, leases: seq<Lease>, clientId: Id): (r: Stage)
    ensures r == Stage.Leased <==> ClientLease(leases, clientId).Some?
    ensures r == Applied <==> ClientLease(leases, clientId).None? && ClientApplications(applications, clientId) != []
    ensures r == Lead <==> ClientLease(leases, clientId).None? && ClientApplications(applications, clientId) == []
  {
    var apps := ClientApplications(applications, clientId);
    if ClientLease(leases, clientId).Some? then Stage.Leased
    else if Any(apps, (a: Application) => a.fields.status == Some(Approved)) then Applied
    else if |apps| > 0 then Applied
    else Lead
  }

  /** The stage is Leased exactly with an active lease, else Applied exactly with some application, else Lead. */
  lemma ClientStageSpec(applications: seq<Application>, leases: seq<Lease>, clientId: Id)
    ensures ClientStage(applications, leases, clientId) == Stage.Leased <==>
              exists i :: 0 <= i < |leases| && leases[i].fields.clientId == clientId && leases[i].fields.status == Active
    ensures ClientStage(applications, leases, clientId) == Applied <==>
              (forall i :: 0 <= i < |leases| ==> !(leases[i].fields.clientId == clientId && leases[i].fields.status == Active)) &&
              exists i :: 0 <= i < |applications| && applications[i].fields.clientId == Some(clientId)
  {
    var apps := ClientApplications(applications, clientId);
    if |apps| > 0 {
      assert apps[0] in applications;
    }
    if exists i :: 0 <= i < |applications| && applications[i].fields.clientId == Some(clientId) {
      var i :| 0 <= i < |applications| && applications[i].fields.clientId == Some(clientId);
      assert applications[i] in apps;
    }
  }

  /** A bound counts only when set to a non-zero amount (`!client.budget_min`). */
  predicate BoundSet(b: Option<real>)
  {
    b.Some? && b.value != 0.0
  }

  /** Available and within the client's budget. */
  predicate FitsBudget(p: Property, c: Client)
  {
    p.fields.status == Available &&
    (!BoundSet(c.fields.budgetMin) || p.fields.monthlyRent >= c.fields.budgetMin.value) &&
    (!BoundSet(c.fields.budgetMax) || p.fields.monthlyRent <= c.fields.budgetMax.value)
  }

  function FitsPred(c: Client): Property -> bool
  {
    p => FitsBudget(p, c)
  }

  /** `getMatchingProperties`: the first three available properties within budget. */
  function MatchingProperties(properties: seq<Property>, c: Client): (r: seq<Property>)
    ensures |r| <= 3
    ensures var fitting := Filter(properties, FitsPred(c));
      |r| == (if |fitting| < 3 then |fitting| else 3) && r == fitting[..|r|]
    ensures forall i :: 0 <= i < |r| ==> r[i] in properties && r[i].fields.status == Available
    ensures forall i :: 0 <= i < |r| ==>
              (BoundSet(c.fields.budgetMin) ==> r[i].fields.monthlyRent >= c.fields.budgetMin.value) &&
              (BoundSet(c.fields.budgetMax) ==> r[i].fields.monthlyRent <= c.fields.budgetMax.value)
  {
    var all := Filter(properties, FitsPred(c));
    var r := Take(all, 3);
    assert forall i :: 0 <= i < |r| ==> r[i] == all[i];
    r
  }

  /** The matches keep source order, and fewer than three means every fitting property is shown. */
  lemma MatchingPropertiesSpec(properties: seq<Property>, c: Client)
    ensures IsSubsequence(MatchingProperties(properties, c), properties)
    ensures |MatchingProperties(properties, c)| < 3 ==>
              forall i :: 0 <= i < |properties| && FitsBudget(properties[i], c) ==> properties[i] in MatchingProperties(properties, c)
  {
    var all := Filter(properties, FitsPred(c));
    TakeIsSubsequence(all, 3);
    FilterIsSubsequence(properties, FitsPred(c));
    SubsequenceTransitive(MatchingProperties(properties, c), all, properties);
  }
}
