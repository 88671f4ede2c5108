/**
 * The rental-application wizard: a nine-step cursor over one draft record, four repeating
 * groups inside that draft, the document buffers, and the submit sequence that gates on the
 * documents and the consent box, uploads every document, re-checks the uploads, saves the
 * applicant's profile and then creates the application.
 *
 * The page's state slots are the fields of `Wizard`; each handler replaces one of them.
 * The pure updaters the handlers apply are the functions of this module.
 */
module RentalWizard {
  import opened Wrappers
  import opened Seqs
  import opened Entities

  // ---------------------------------------------------------------- steps

  const Steps: seq<string> := [
    "Personal Information", "Residential History", "Employment & Income",
    "Additional Occupants", "Vehicles", "Pets", "Background & Declarations",
    "Document Upload", "Review & Submit"]

  /** The index of the review step, the last one. */
  const LastStep: int := |Steps| - 1

  /** `nextStep`: one step forward, never past the last; nothing is validated. */
  function Next(step: int): (r: int)
    ensures step < LastStep ==> r == step + 1
    ensures step >= LastStep ==> r == LastStep
    ensures 0 <= step <= LastStep ==> 0 <= r <= LastStep
  {
    if step + 1 < LastStep then step + 1 else LastStep
  }

  /** `prevStep`: one step back, never before the first. */
  function Prev(step: int): (r: int)
    ensures step > 0 ==> r == step - 1
    ensures step <= 0 ==> r == 0
    ensures 0 <= step <= LastStep ==> 0 <= r <= LastStep
  {
    if step - 1 > 0 then step - 1 else 0
  }

  /** Going forward and back again returns to the same step, except on the last one. */
  lemma PrevUndoesNext(step: int)
    requires 0 <= step < LastStep
    ensures Prev(Next(step)) == step
  {
  }

  /** `n` presses of Next from the first step reach step `n`, or stop at the last one. */
  function NextTimes(step: int, n: nat): int
    decreases n
  {
    if n == 0 then step else NextTimes(Next(step), n - 1)
  }

  lemma {:induction false} NextTimesReaches(step: int, n: nat)
    requires 0 <= step <= LastStep
    ensures NextTimes(step, n) == if step + n < LastStep then step + n else LastStep
    decreases n
  {
    if n > 0 {
      NextTimesReaches(Next(step), n - 1);
    }
  }

  // ---------------------------------------------------------------- the draft

  /** The four repeating groups that have add, remove and update handlers. */
  datatype GroupKind = Occupants | Vehicles | Pets | References

  /**
   * The form data: every scalar answer (the signed-in user's own keys, then the wizard's
   * initial answers) by key, and each repeating group as a list of entries.
   */
  datatype Draft = Draft(
    fields: map<string, Scalar>,
    coApplicants: seq<SubRecord>,
    otherOccupants: seq<SubRecord>,
    vehicles: seq<SubRecord>,
    pets: seq<SubRecord>,
    personalReferences: seq<SubRecord>)

  /** The keys of the draft that hold repeating groups rather than scalar answers. */
  const GroupKeys: set<string> := {"co_applicants", "other_occupants", "vehicles", "pets", "personal_references"}

  /** The three yes/no background questions the submit sequence insists are answered. */
  predicate BackgroundAnswered(d: Draft)
  {
    "has_been_bankrupt" in d.fields && "has_been_evicted" in d.fields && "has_committed_felony" in d.fields
  }

  /** The scalar answers of `getInitialApplicationData`. */
  const InitialAnswers: map<string, Scalar> := map[
    "parking_required" := Flag(false),
    "parking_fee_accept" := Flag(false),
    "pet_policy_ack" := Flag(false),
    "has_been_bankrupt" := Flag(false),
    "bankruptcy_details" := Text(""),
    "has_been_evicted" := Flag(false),
    "eviction_details" := Text(""),
    "has_committed_felony" := Flag(false),
    "felony_details" := Text(""),
    "additional_notes" := Text(""),
    "desired_move_date" := Text(""),
    "agrees_to_terms" := Flag(false)]

  /**
   * `{ ...userData, ...getInitialApplicationData() }`: the user's keys, with every key the
   * initial data sets overridden by it and every repeating group empty.
   */
  function InitialDraft(profile: map<string, Scalar>): (r: Draft)
    ensures r.fields.Keys == (profile.Keys - GroupKeys) + InitialAnswers.Keys
    ensures forall k :: k in InitialAnswers ==> r.fields[k] == InitialAnswers[k]
    ensures forall k :: k in profile && k !in GroupKeys && k !in InitialAnswers ==> r.fields[k] == profile[k]
    ensures r.coApplicants == r.otherOccupants == r.vehicles == r.pets == r.personalReferences == []
    ensures BackgroundAnswered(r)
    ensures r.fields["agrees_to_terms"] == Flag(false)
  {
    Draft((profile - GroupKeys) + InitialAnswers, [], [], [], [], [])
  }

  /** The value a scalar key holds, or nothing when the key is unset (`undefined`). */
  function Lookup(d: Draft, key: string): (r: Option<Scalar>)
    ensures r.Some? <==> key in d.fields
  {
    if key in d.fields then Some(d.fields[key]) else None
  }

  /** JavaScript truthiness of a form value: a set checkbox, or non-empty text. */
  predicate Truthy(v: Option<Scalar>)
  {
    match v
    case None => false
    case Some(Flag(b)) => b
    case Some(Text(s)) => s != ""
  }

  /**
   * `setFormData(prev => ({ ...prev, [name]: value }))`: one key set to `v`, every other key
   * and every group as it was.
   */
  function SetField(d: Draft, name: string, v: Scalar): (r: Draft)
    ensures r.fields.Keys == d.fields.Keys + {name}
    ensures Lookup(r, name) == Some(v)
    ensures forall k :: k in d.fields && k != name ==> r.fields[k] == d.fields[k]
    ensures r.(fields := d.fields) == d
  {
    d.(fields := d.fields[name := v])
  }

  /** What an input's change event carries: its name, its text, and whether it is a checkbox. */
  datatype InputEvent = InputEvent(name: string, value: string, isCheckbox: bool, checked: bool)

  /** `handleInputChange` stores `checked` for a checkbox and `value` for anything else. */
  function InputValue(e: InputEvent): (r: Scalar)
    ensures e.isCheckbox ==> r == Flag(e.checked)
    ensures !e.isCheckbox ==> r == Text(e.value)
  {
    if e.isCheckbox then Flag(e.checked) else Text(e.value)
  }

  // ---------------------------------------------------------------- repeating groups

  function Group(d: Draft, g: GroupKind): seq<SubRecord>
  {
    match g
    case Occupants => d.otherOccupants
    case Vehicles => d.vehicles
    case Pets => d.pets
    case References => d.personalReferences
  }

  /** `d` with group `g` replaced by `entries` and nothing else changed. */
  function WithGroup(d: Draft, g: GroupKind, entries: seq<SubRecord>): (r: Draft)
    ensures Group(r, g) == entries
    ensures r.fields == d.fields && r.coApplicants == d.coApplicants
    ensures forall h :: h != g ==> Group(r, h) == Group(d, h)
  {
    match g
    case Occupants => d.(otherOccupants := entries)
    case Vehicles => d.(vehicles := entries)
    case Pets => d.(pets := entries)
    case References => d.(personalReferences := entries)
  }

  /** The blank entry each add handler appends. */
  function BlankEntry(g: GroupKind): (r: SubRecord)
  {
    match g
    case Occupants => map["name" := Text(""), "relationship" := Text(""), "age" := Text("")]
    case Vehicles => map["make" := Text(""), "model" := Text(""), "year" := Text(""), "color" := Text(""),
                         "license_plate" := Text("")]
    case Pets => map["name" := Text(""), "type" := Text(""), "breed" := Text(""), "age" := Text(""),
                     "weight" := Text(""), "vaccinated" := Flag(false)]
    case References => map["name" := Text(""), "phone" := Text(""), "relationship" := Text(""),
                           "years_known" := Text("")]
  }

  /** A blank entry has every field empty or unchecked. */
  lemma BlankEntryIsBlank(g: GroupKind)
    ensures forall f :: f in BlankEntry(g) ==> !Truthy(Some(BlankEntry(g)[f]))
  {
  }

  /** `addOccupant`, `addVehicle`, `addPet`, `addReference`. */
  function AddEntry(d: Draft, g: GroupKind): (r: Draft)
    ensures |Group(r, g)| == |Group(d, g)| + 1
    ensures Group(r, g)[..|Group(d, g)|] == Group(d, g)
    ensures Group(r, g)[|Group(d, g)|] == BlankEntry(g)
    ensures r.fields == d.fields && r.coApplicants == d.coApplicants
    ensures forall h :: h != g ==> Group(r, h) == Group(d, h)
  {
    WithGroup(d, g, Group(d, g) + [BlankEntry(g)])
  }

  /** `removeOccupant(i)` and its siblings: entry `i` dropped, the rest kept in order. */
  function RemoveEntry(d: Draft, g: GroupKind, i: int): (r: Draft)
    ensures 0 <= i < |Group(d, g)| ==> Group(r, g) == Group(d, g)[..i] + Group(d, g)[i + 1..]
    ensures !(0 <= i < |Group(d, g)|) ==> r == d
    ensures r.fields == d.fields && r.coApplicants == d.coApplicants
    ensures forall h :: h != g ==> Group(r, h) == Group(d, h)
  {
    if 0 <= i < |Group(d, g)| then WithGroup(d, g, RemoveAt(Group(d, g), i)) else d
  }

  /** `entries.map((e, j) => j === i ? { ...e, [f]: v } : e)`. */
  function UpdateAt(entries: seq<SubRecord>, i: int, f: string, v: Scalar): (r: seq<SubRecord>)
    ensures |r| == |entries|
    ensures forall j :: 0 <= j < |entries| && j != i ==> r[j] == entries[j]
    ensures 0 <= i < |entries| ==>
              r[i].Keys == entries[i].Keys + {f} && r[i][f] == v &&
              forall k :: k in entries[i] && k != f ==> r[i][k] == entries[i][k]
  {
    seq(|entries|, j requires 0 <= j < |entries| => if j == i then entries[j][f := v] else entries[j])
  }

  /** `updateOccupant(i, f, v)` and its siblings: field `f` of entry `i` changes, nothing else. */
  function UpdateEntry(d: Draft, g: GroupKind, i: int, f: string, v: Scalar): (r: Draft)
    ensures |Group(r, g)| == |Group(d, g)|
    ensures forall j :: 0 <= j < |Group(d, g)| && j != i ==> Group(r, g)[j] == Group(d, g)[j]
    ensures 0 <= i < |Group(d, g)| ==>
              Group(r, g)[i].Keys == Group(d, g)[i].Keys + {f} && Group(r, g)[i][f] == v &&
              forall k :: k in Group(d, g)[i] && k != f ==> Group(r, g)[i][k] == Group(d, g)[i][k]
    ensures r.fields == d.fields && r.coApplicants == d.coApplicants
    ensures forall h :: h != g ==> Group(r, h) == Group(d, h)
  {
    WithGroup(d, g, UpdateAt(Group(d, g), i, f, v))
  }

  /** Removing the entry just added gives back the draft as it was. */
  lemma RemoveUndoesAdd(d: Draft, g: GroupKind)
    ensures RemoveEntry(AddEntry(d, g), g, |Group(d, g)|) == d
  {
    var r := RemoveEntry(AddEntry(d, g), g, |Group(d, g)|);
    assert Group(r, g) == Group(d, g);
    match g case _ =>
  }

  /** Writing the same value into the same field twice is writing it once. */
  lemma UpdateEntryIdempotent(d: Draft, g: GroupKind, i: int, f: string, v: Scalar)
    ensures UpdateEntry(UpdateEntry(d, g, i, f, v), g, i, f, v) == UpdateEntry(d, g, i, f, v)
  {
    var once := UpdateEntry(d, g, i, f, v);
    var twice := UpdateEntry(once, g, i, f, v);
    assert forall j :: 0 <= j < |Group(d, g)| ==> Group(twice, g)[j] == Group(once, g)[j];
    assert Group(twice, g) == Group(once, g);
    match g case _ =>
  }

  // ---------------------------------------------------------------- documents

  /** A file the applicant chose; only its identity matters here. */
  datatype File = File(name: string)

  /** What a document widget reports: a removal at an index, or newly chosen files. */
  datatype FileEvent = Remove(index: int) | Chosen(files: seq<File>)

  /** The pay-stub and pet-document handlers: append the chosen files, or drop one by index. */
  function ApplyToList(buffer: seq<File>, e: FileEvent): (r: seq<File>)
    ensures e.Chosen? ==> |r| == |buffer| + |e.files| && r[..|buffer|] == buffer && r[|buffer|..] == e.files
    ensures e.Remove? && 0 <= e.index < |buffer| ==> r == buffer[..e.index] + buffer[e.index + 1..]
    ensures e.Remove? && !(0 <= e.index < |buffer|) ==> r == buffer
  {
    match e
    case Remove(i) => RemoveAt(buffer, i)
    case Chosen(files) => buffer + files
  }

  /** A single-document slot: cleared on removal, otherwise the first chosen file (none if none was chosen). */
  function ApplyToSlot(slot: Option<File>, e: FileEvent): (r: Option<File>)
    ensures e.Remove? ==> r.None?
    ensures e.Chosen? ==> (r.Some? <==> |e.files| > 0)
    ensures e.Chosen? && |e.files| > 0 ==> r.value == e.files[0]
  {
    match e
    case Remove(_) => None
    case Chosen(files) => if |files| > 0 then Some(files[0]) else None
  }

  /** The number of files a single-document widget shows. */
  function SlotCount(slot: Option<File>): (r: nat)
    ensures r <= 1 && (r == 1 <==> slot.Some?)
  {
    if slot.Some? then 1 else 0
  }

  /** `FileUploadInput`'s indicator: enough files for a non-zero `requiredCount`, otherwise any file at all. */
  predicate IsMet(count: nat, requiredCount: Option<int>): (r: bool)
    ensures r && count == 0 ==> requiredCount.Some? && requiredCount.value < 0
    ensures requiredCount.None? || requiredCount.value == 0 ==> (r <==> count > 0)
  {
    if requiredCount.Some? && requiredCount.value != 0 then count >= requiredCount.value else count > 0
  }

  /** The documents the submit sequence requires, as the first gate checks them. */
  predicate DocumentsReady(payStubs: seq<File>, credit: Option<File>, front: Option<File>, back: Option<File>)
  {
    |payStubs| >= 3 && credit.Some? && front.Some? && back.Some?
  }

  /** The first gate passes exactly when the four required widgets all show their indicator as met. */
  lemma DocumentsReadyIffIndicatorsMet(payStubs: seq<File>, credit: Option<File>, front: Option<File>, back: Option<File>)
    ensures DocumentsReady(payStubs, credit, front, back) <==>
              IsMet(|payStubs|, Some(3)) && IsMet(SlotCount(credit), Some(1)) &&
              IsMet(SlotCount(front), Some(1)) && IsMet(SlotCount(back), Some(1))
  {
  }

  // ---------------------------------------------------------------- uploads and the score

  /**
   * `uploadMultipleFiles`: no files gives no URLs; otherwise every file is uploaded and the URLs
   * come back in order, unless any one upload fails, in which case the whole batch gives none.
   */
  function UploadBatch(files: seq<File>, upload: File -> Option<Url>): (r: seq<Url>)
    ensures |r| == |files| || r == []
    ensures (forall i :: 0 <= i < |files| ==> upload(files[i]).Some?) ==>
              |r| == |files| && forall i :: 0 <= i < |files| ==> Some(r[i]) == upload(files[i])
    ensures (exists i :: 0 <= i < |files| && upload(files[i]).None?) ==> r == []
  {
    if forall i :: 0 <= i < |files| ==> upload(files[i]).Some? then Map(files, f => upload(f).GetOr(""))
    else []
  }

  /** A URL returned by `uploadFile` that the second gate accepts: present and non-empty. */
  predicate UsableUrl(u: Option<Url>)
  {
    u.Some? && u.value != ""
  }

  /** `parseFloat` of a form value; `None` stands for NaN (an unset key, a checkbox, unparsable text). */
  function ParseNumber(v: Option<Scalar>, parse: string -> Option<real>): (r: Option<real>)
    ensures (v.None? || v.value.Flag?) ==> r.None?
    ensures v.Some? && v.value.Text? ==> r == parse(v.value.text)
  {
    match v
    case Some(Text(s)) => parse(s)
    case _ => None
  }

  /** `Math.min(10, Math.max(1, x))`. */
  function Clamp(x: real): (r: real)
    ensures 1.0 <= r <= 10.0
    ensures 1.0 <= x <= 10.0 ==> r == x
    ensures x < 1.0 ==> r == 1.0
    ensures x > 10.0 ==> r == 10.0
  {
    if x < 1.0 then 1.0 else if x > 10.0 then 10.0 else x
  }

  /**
   * The application score, `min(10, max(1, income / rent * 2.5))` in floating point: NaN
   * (here `None`) when the income is not a number or when 0 is divided by 0; a rent of 0 sends
   * a positive income to +Infinity (clamped to 10) and a negative one to -Infinity (clamped to 1).
   */
  function Score(income: Option<real>, rent: real): (r: Option<real>)
    ensures r.Some? ==> 1.0 <= r.value <= 10.0
    ensures income.None? ==> r.None?
    ensures income.Some? && rent != 0.0 ==> r == Some(Clamp(income.value / rent * 2.5))
    ensures income.Some? && rent == 0.0 ==> (r.None? <==> income.value == 0.0)
  {
    if income.None? then None
    else if rent != 0.0 then Some(Clamp(income.value / rent * 2.5))
    else if income.value > 0.0 then Some(10.0)
    else if income.value < 0.0 then Some(1.0)
    else None
  }

  /** For a positive rent, a higher income never gives a lower score. */
  lemma ScoreMonotone(a: real, b: real, rent: real)
    requires rent > 0.0 && a <= b
    ensures Score(Some(a), rent).value <= Score(Some(b), rent).value
  {
    assert a / rent <= b / rent by {
      assert a / rent * rent == a && b / rent * rent == b;
    }
  }

  /** An income of 2.5 rents' worth or less scores by the ratio; four times the rent or more scores 10. */
  lemma ScoreExamples()
    ensures Score(Some(6500.0), 2800.0) == Some(16250.0 / 2800.0)
    ensures Score(Some(1000.0), 5000.0) == Some(1.0)
    ensures Score(Some(50000.0), 1000.0) == Some(10.0)
    ensures Score(Some(4.0 * 2000.0), 2000.0) == Some(10.0)
  {
  }

  // ---------------------------------------------------------------- the profile

  /** How a value is written into a template string: text as is, a flag as true/false, unset as `undefined`. */
  function TemplateText(v: Option<Scalar>): string
  {
    match v
    case None => "undefined"
    case Some(Text(s)) => s
    case Some(Flag(b)) => if b then "true" else "false"
  }

  function Field(entry: SubRecord, f: string): Option<Scalar>
  {
    if f in entry then Some(entry[f]) else None
  }

  /** `${p.name} (${p.type})`. */
  function PetLabel(p: SubRecord): (r: string)
    ensures |r| >= 3
  {
    TemplateText(Field(p, "name")) + " (" + TemplateText(Field(p, "type")) + ")"
  }

  /** `parts.join(sep)`. */
  function Join(parts: seq<string>, sep: string): (r: string)
    ensures parts == [] ==> r == ""
    ensures parts != [] ==> |r| >= |parts[0]| && r[..|parts[0]|] == parts[0]
    ensures (forall i :: 0 <= i < |parts| ==> parts[i] != "") ==> (r == "" <==> parts == [])
  {
    if parts == [] then ""
    else if |parts| == 1 then parts[0]
    else
      var r := parts[0] + sep + Join(parts[1..], sep);
      assert r[..|parts[0]|] == parts[0];
      r
  }

  /** Joining one more part adds the separator and then the part at the end. */
  lemma {:induction false} JoinSnoc(parts: seq<string>, p: string, sep: string)
    requires parts != []
    ensures Join(parts + [p], sep) == Join(parts, sep) + sep + p
  {
    var q, t := parts + [p], parts[1..];
    if |parts| > 1 {
      JoinSnoc(t, p, sep);
      assert q[0] == parts[0] && q[1..] == t + [p];
      assert Join(q, sep) == parts[0] + sep + Join(t + [p], sep);
      assert Join(parts, sep) == parts[0] + sep + Join(t, sep);
    } else {
      assert q == [parts[0], p] && q[1..] == [p];
      assert Join(q, sep) == parts[0] + sep + Join([p], sep);
    }
  }

  /** `pets.map(...).join(', ') || ''`. */
  function PetDetails(pets: seq<SubRecord>): string
  {
    Join(Map(pets, PetLabel), ", ")
  }

  /** The pet summary is empty exactly when there are no pets, so it agrees with the `pets` flag. */
  lemma PetDetailsEmptyIffNoPets(pets: seq<SubRecord>)
    ensures PetDetails(pets) == "" <==> pets == []
  {
    if pets != [] {
      assert Map(pets, PetLabel)[0] == PetLabel(pets[0]);
    }
  }

  /** The profile fields written to the user's record before the application is created. */
  datatype Profile = Profile(
    dateOfBirth: Option<Scalar>,
    ssnLast4: Option<Scalar>,
    driverLicenseNumber: Option<Scalar>,
    driverLicenseState: Option<Scalar>,
    currentAddress: Option<Scalar>,
    currentAddressRent: Option<real>,
    currentLandlordName: Option<Scalar>,
    currentLandlordPhone: Option<Scalar>,
    reasonForMoving: Option<Scalar>,
    employmentStatus: Option<Scalar>,
    employerName: Option<Scalar>,
    jobTitle: Option<Scalar>,
    monthlyIncome: Option<real>,
    employmentLength: Option<Scalar>,
    otherIncomeSource: Option<Scalar>,
    otherIncomeAmount: real,
    pets: bool,
    petDetails: string,
    emergencyContactName: Option<Scalar>,
    emergencyContactPhone: Option<Scalar>,
    emergencyContactRelationship: Option<Scalar>)

  function ProfileOf(d: Draft, parse: string -> Option<real>): (r: Profile)
    ensures r.pets <==> d.pets != []
    ensures r.pets <==> r.petDetails != ""
    ensures r.otherIncomeAmount == ParseNumber(Lookup(d, "other_income_amount"), parse).GetOr(0.0)
    ensures r.monthlyIncome == ParseNumber(Lookup(d, "monthly_income"), parse)
  {
    PetDetailsEmptyIffNoPets(d.pets);
    Profile(
      Lookup(d, "date_of_birth"), Lookup(d, "ssn_last4"),
      Lookup(d, "driver_license_number"), Lookup(d, "driver_license_state"),
      Lookup(d, "current_address"), ParseNumber(Lookup(d, "current_address_rent"), parse),
      Lookup(d, "current_landlord_name"), Lookup(d, "current_landlord_phone"),
      Lookup(d, "reason_for_moving"), Lookup(d, "employment_status"),
      Lookup(d, "employer_name"), Lookup(d, "job_title"),
      ParseNumber(Lookup(d, "monthly_income"), parse), Lookup(d, "employment_length"),
      Lookup(d, "other_income_source"),
      // `parseFloat(...) || 0`: NaN and 0 both give 0
      ParseNumber(Lookup(d, "other_income_amount"), parse).GetOr(0.0),
      d.pets != [], PetDetails(d.pets),
      Lookup(d, "emergency_contact_name"), Lookup(d, "emergency_contact_phone"),
      Lookup(d, "emergency_contact_relationship"))
  }

  /** The scalar answers copied into the application record. */
  const AnswerKeys: set<string> := {
    "parking_required", "parking_fee_accept", "pet_policy_ack", "has_been_bankrupt",
    "bankruptcy_details", "has_been_evicted", "eviction_details", "has_committed_felony",
    "felony_details", "additional_notes", "desired_move_date", "agrees_to_terms"}

  // ---------------------------------------------------------------- submission

  /** Something the submit sequence did outside the page, in the order it did it. */
  datatype Effect =
    | Uploaded(file: File)
    | ProfileSaved(profile: Profile)
    | ApplicationCreated(application: ApplicationFields)

  function Uploads(files: seq<File>): (r: seq<Effect>)
    ensures |r| == |files| && forall i :: 0 <= i < |files| ==> r[i] == Uploaded(files[i])
  {
    Map(files, f => Uploaded(f))
  }

  /**
   * The application record the submit sequence creates: the draft's groups and answers, the
   * uploaded URLs, and the score computed from the same income it records.
   */
  function Payload(property: Property, user: User, d: Draft, payStubUrls: seq<Url>, creditUrl: Url,
                   frontUrl: Url, backUrl: Url, petUrls: seq<Url>, parse: string -> Option<real>): (a: ApplicationFields)
    ensures a.propertyId == property.id && a.userId == user.id
    ensures a.clientId.None? && a.status.None? && a.decisionAt.None? && a.docsComplete == 1.0
    ensures a.monthlyIncome == ParseNumber(Lookup(d, "monthly_income"), parse)
    ensures a.score == Score(a.monthlyIncome, property.fields.monthlyRent)
    ensures a.score.Some? ==> 1.0 <= a.score.value <= 10.0
    ensures a.payStubsUrls == payStubUrls && a.petDocsUrls == petUrls
    ensures a.creditReportUrl == creditUrl && a.dlFrontUrl == frontUrl && a.dlBackUrl == backUrl
    ensures a.coApplicants == d.coApplicants && a.otherOccupants == d.otherOccupants &&
            a.vehicles == d.vehicles && a.pets == d.pets && a.personalReferences == d.personalReferences
    ensures a.answers.Keys == AnswerKeys * d.fields.Keys
    ensures forall k :: k in a.answers ==> a.answers[k] == d.fields[k]
    ensures a.employer == Lookup(d, "employer_name")
  {
    var income := ParseNumber(Lookup(d, "monthly_income"), parse);
    var answers := map k | k in AnswerKeys && k in d.fields :: d.fields[k];
    ApplicationFields(
      property.id, user.id, None, None, None,
      Score(income, property.fields.monthlyRent), 1.0,
      d.coApplicants, d.otherOccupants, d.vehicles, d.pets, d.personalReferences, answers,
      payStubUrls, creditUrl, frontUrl, backUrl, petUrls,
      income, Lookup(d, "employer_name"))
  }

  /** How a submission ended. */
  datatype SubmitOutcome =
    | MissingDocuments
    | TermsNotAccepted
    | BackgroundIncomplete
    | UploadsFailed
    | ProfileSaveFailed
    | CreateFailed
    | Submitted(application: ApplicationFields)
  {
    /** The outcomes that return before any upload. */
    predicate Blocked()
    {
      MissingDocuments? || TermsNotAccepted? || BackgroundIncomplete?
    }
  }

  class Wizard {
    const property: Property
    const user: User
    var currentStep: int
    var formData: Draft
    var payStubs: seq<File>
    var creditReport: Option<File>
    var licenceFront: Option<File>
    var licenceBack: Option<File>
    var petDocs: seq<File>

    /** The step stays in range, and the background answers, once set, stay set. */
    ghost predicate Valid()
      reads this
    {
      0 <= currentStep <= LastStep && BackgroundAnswered(formData)
    }

    constructor (property: Property, user: User, profile: map<string, Scalar>)
      ensures Valid()
      ensures this.property == property && this.user == user
      ensures currentStep == 0 && formData == InitialDraft(profile)
      ensures payStubs == [] && creditReport.None? && licenceFront.None? && licenceBack.None? && petDocs == []
    {
      this.property := property;
      this.user := user;
      currentStep := 0;
      formData := InitialDraft(profile);
      payStubs := [];
      creditReport := None;
      licenceFront := None;
      licenceBack := None;
      petDocs := [];
    }

    method NextStep()
      requires Valid()
      modifies this
      ensures Valid() && currentStep == Next(old(currentStep))
      ensures formData == old(formData) && payStubs == old(payStubs) && petDocs == old(petDocs)
      ensures creditReport == old(creditReport) && licenceFront == old(licenceFront) && licenceBack == old(licenceBack)
    {
      currentStep := Next(currentStep);
    }

    method PrevStep()
      requires Valid()
      modifies this
      ensures Valid() && currentStep == Prev(old(currentStep))
      ensures formData == old(formData) && payStubs == old(payStubs) && petDocs == old(petDocs)
      ensures creditReport == old(creditReport) && licenceFront == old(licenceFront) && licenceBack == old(licenceBack)
    {
      currentStep := Prev(currentStep);
    }

    method HandleInputChange(e: InputEvent)
      requires Valid()
      modifies this
      ensures Valid() && formData == SetField(old(formData), e.name, InputValue(e))
      ensures currentStep == old(currentStep) && payStubs == old(payStubs) && petDocs == old(petDocs)
      ensures creditReport == old(creditReport) && licenceFront == old(licenceFront) && licenceBack == old(licenceBack)
    {
      formData := SetField(formData, e.name, InputValue(e));
    }

    method HandleSelectChange(name: string, value: Scalar)
      requires Valid()
      modifies this
      ensures Valid() && formData == SetField(old(formData), name, value)
      ensures currentStep == old(currentStep) && payStubs == old(payStubs) && petDocs == old(petDocs)
      ensures creditReport == old(creditReport) && licenceFront == old(licenceFront) && licenceBack == old(licenceBack)
    {
      formData := SetField(formData, name, value);
    }

    method AddGroupEntry(g: GroupKind)
      requires Valid()
      modifies this
      ensures Valid() && formData == AddEntry(old(formData), g)
      ensures currentStep == old(currentStep) && payStubs == old(payStubs) && petDocs == old(petDocs)
      ensures creditReport == old(creditReport) && licenceFront == old(licenceFront) && licenceBack == old(licenceBack)
    {
      formData := AddEntry(formData, g);
    }

    method RemoveGroupEntry(g: GroupKind, index: int)
      requires Valid()
      modifies this
      ensures Valid() && formData == RemoveEntry(old(formData), g, index)
      ensures currentStep == old(currentStep) && payStubs == old(payStubs) && petDocs == old(petDocs)
      ensures creditReport == old(creditReport) && licenceFront == old(licenceFront) && licenceBack == old(licenceBack)
    {
      formData := RemoveEntry(formData, g, index);
    }

    method UpdateGroupEntry(g: GroupKind, index: int, field: string, value: Scalar)
      requires Valid()
      modifies this
      ensures Valid() && formData == UpdateEntry(old(formData), g, index, field, value)
      ensures currentStep == old(currentStep) && payStubs == old(payStubs) && petDocs == old(petDocs)
      ensures creditReport == old(creditReport) && licenceFront == old(licenceFront) && licenceBack == old(licenceBack)
    {
      formData := UpdateEntry(formData, g, index, field, value);
    }

    method OnPayStubsChange(e: FileEvent)
      requires Valid()
      modifies this
      ensures Valid() && payStubs == ApplyToList(old(payStubs), e)
      ensures currentStep == old(currentStep) && formData == old(formData) && petDocs == old(petDocs)
      ensures creditReport == old(creditReport) && licenceFront == old(licenceFront) && licenceBack == old(licenceBack)
    {
      payStubs := ApplyToList(payStubs, e);
    }

    method OnPetDocsChange(e: FileEvent)
      requires Valid()
      modifies this
      ensures Valid() && petDocs == ApplyToList(old(petDocs), e)
      ensures currentStep == old(currentStep) && formData == old(formData) && payStubs == old(payStubs)
      ensures creditReport == old(creditReport) && licenceFront == old(licenceFront) && licenceBack == old(licenceBack)
    {
      petDocs := ApplyToList(petDocs, e);
    }

    method OnCreditReportChange(e: FileEvent)
      requires Valid()
      modifies this
      ensures Valid() && creditReport == ApplyToSlot(old(creditReport), e)
      ensures currentStep == old(currentStep) && formData == old(formData) && payStubs == old(payStubs)
      ensures petDocs == old(petDocs) && licenceFront == old(licenceFront) && licenceBack == old(licenceBack)
    {
      creditReport := ApplyToSlot(creditReport, e);
    }

    method OnLicenceFrontChange(e: FileEvent)
      requires Valid()
      modifies this
      ensures Valid() && licenceFront == ApplyToSlot(old(licenceFront), e)
      ensures currentStep == old(currentStep) && formData == old(formData) && payStubs == old(payStubs)
      ensures petDocs == old(petDocs) && creditReport == old(creditReport) && licenceBack == old(licenceBack)
    {
      licenceFront := ApplyToSlot(licenceFront, e);
    }

    method OnLicenceBackChange(e: FileEvent)
      requires Valid()
      modifies this
      ensures Valid() && licenceBack == ApplyToSlot(old(licenceBack), e)
      ensures currentStep == old(currentStep) && formData == old(formData) && payStubs == old(payStubs)
      ensures petDocs == old(petDocs) && creditReport == old(creditReport) && licenceFront == old(licenceFront)
    {
      licenceBack := ApplyToSlot(licenceBack, e);
    }

    /** Every upload the submit sequence attempts once past the gates, in order. */
    function AllUploads(): (r: seq<Effect>)
      reads this
      requires creditReport.Some? && licenceFront.Some? && licenceBack.Some?
      ensures |r| == |payStubs| + 3 + |petDocs|
      ensures r[..|payStubs|] == Uploads(payStubs)
      ensures r[|payStubs|..|payStubs| + 3] ==
                [Uploaded(creditReport.value), Uploaded(licenceFront.value), Uploaded(licenceBack.value)]
      ensures r[|payStubs| + 3..] == Uploads(petDocs)
    {
      var r := Uploads(payStubs) + [Uploaded(creditReport.value), Uploaded(licenceFront.value), Uploaded(licenceBack.value)]
               + Uploads(petDocs);
      assert r[..|payStubs|] == Uploads(payStubs);
      r
    }

    /**
     * `handleSubmit`. `upload` stands for the upload service (a URL, or a failure), `parse` for
     * `parseFloat`, and `profileSaves`/`createSucceeds` for whether the two backend writes succeed.
     * The state slots are not changed: the page only toggles its busy indicator and navigates.
     */
    method Submit(upload: File -> Option<Url>, parse: string -> Option<real>, profileSaves: bool, createSucceeds: bool)
      returns (outcome: SubmitOutcome, effects: seq<Effect>)
      // the gates, before anything leaves the page
      ensures outcome.MissingDocuments? <==> !DocumentsReady(payStubs, creditReport, licenceFront, licenceBack)
      ensures outcome.TermsNotAccepted? <==>
                DocumentsReady(payStubs, creditReport, licenceFront, licenceBack) &&
                !Truthy(Lookup(formData, "agrees_to_terms"))
      ensures outcome.BackgroundIncomplete? <==>
                DocumentsReady(payStubs, creditReport, licenceFront, licenceBack) &&
                Truthy(Lookup(formData, "agrees_to_terms")) && !BackgroundAnswered(formData)
      ensures outcome.Blocked() ==> effects == []
      ensures Valid() ==> !outcome.BackgroundIncomplete?
      // past the gates every document is uploaded, in order, before anything else
      ensures !outcome.Blocked() ==>
                DocumentsReady(payStubs, creditReport, licenceFront, licenceBack) &&
                |effects| >= |AllUploads()| && effects[..|AllUploads()|] == AllUploads()
      ensures outcome.UploadsFailed? <==>
                !outcome.Blocked() &&
                !(|UploadBatch(payStubs, upload)| >= 3 && UsableUrl(upload(creditReport.value)) &&
                  UsableUrl(upload(licenceFront.value)) && UsableUrl(upload(licenceBack.value)))
      ensures outcome.UploadsFailed? ==> effects == AllUploads()
      // then the profile is saved, and only then is the application created
      ensures outcome.ProfileSaveFailed? || outcome.CreateFailed? || outcome.Submitted? ==>
                |effects| > |AllUploads()| && effects[|AllUploads()|] == ProfileSaved(ProfileOf(formData, parse))
      ensures outcome.ProfileSaveFailed? ==> !profileSaves && |effects| == |AllUploads()| + 1
      ensures outcome.CreateFailed? || outcome.Submitted? ==>
                profileSaves && |effects| == |AllUploads()| + 2 && effects[|effects| - 1].ApplicationCreated?
      ensures outcome.CreateFailed? ==> !createSucceeds
      ensures outcome.Submitted? ==> createSucceeds && effects[|effects| - 1] == ApplicationCreated(outcome.application)
      // the record the create is called with, whether or not the create succeeds
      ensures outcome.CreateFailed? || outcome.Submitted? ==>
                DocumentsReady(payStubs, creditReport, licenceFront, licenceBack) &&
                UsableUrl(upload(creditReport.value)) && UsableUrl(upload(licenceFront.value)) &&
                UsableUrl(upload(licenceBack.value)) && |UploadBatch(payStubs, upload)| >= 3 &&
                effects[|effects| - 1] ==
                  ApplicationCreated(Payload(property, user, formData, UploadBatch(payStubs, upload),
                                             upload(creditReport.value).value, upload(licenceFront.value).value,
                                             upload(licenceBack.value).value, UploadBatch(petDocs, upload), parse))
    {
      if |payStubs| < 3 || creditReport.None? || licenceFront.None? || licenceBack.None? {
        return MissingDocuments, [];
      }
      if !Truthy(Lookup(formData, "agrees_to_terms")) {
        return TermsNotAccepted, [];
      }
      if !BackgroundAnswered(formData) {
        return BackgroundIncomplete, [];
      }

      outcome, effects := Deliver(upload, parse, profileSaves, createSucceeds);
    }

    /** The part of `handleSubmit` after the three gates: uploads, the profile save, then the create. */
    method Deliver(upload: File -> Option<Url>, parse: string -> Option<real>, profileSaves: bool, createSucceeds: bool)
      returns (outcome: SubmitOutcome, effects: seq<Effect>)
      requires DocumentsReady(payStubs, creditReport, licenceFront, licenceBack)
      requires Truthy(Lookup(formData, "agrees_to_terms")) && BackgroundAnswered(formData)
      ensures !outcome.Blocked()
      ensures |effects| >= |AllUploads()| && effects[..|AllUploads()|] == AllUploads()
      ensures outcome.UploadsFailed? <==>
                !(|UploadBatch(payStubs, upload)| >= 3 && UsableUrl(upload(creditReport.value)) &&
                  UsableUrl(upload(licenceFront.value)) && UsableUrl(upload(licenceBack.value)))
      ensures outcome.UploadsFailed? ==> effects == AllUploads()
      ensures outcome.ProfileSaveFailed? || outcome.CreateFailed? || outcome.Submitted? ==>
                |effects| > |AllUploads()| && effects[|AllUploads()|] == ProfileSaved(ProfileOf(formData, parse))
      ensures outcome.ProfileSaveFailed? ==> !profileSaves && |effects| == |AllUploads()| + 1
      ensures outcome.CreateFailed? || outcome.Submitted? ==>
                profileSaves && |effects| == |AllUploads()| + 2 && effects[|effects| - 1].ApplicationCreated?
      ensures outcome.CreateFailed? ==> !createSucceeds
      ensures outcome.Submitted? ==> createSucceeds && effects[|effects| - 1] == ApplicationCreated(outcome.application)
      ensures outcome.CreateFailed? || outcome.Submitted? ==>
                UsableUrl(upload(creditReport.value)) && UsableUrl(upload(licenceFront.value)) &&
                UsableUrl(upload(licenceBack.value)) && |UploadBatch(payStubs, upload)| >= 3 &&
                effects[|effects| - 1] ==
                  ApplicationCreated(Payload(property, user, formData, UploadBatch(payStubs, upload),
                                             upload(creditReport.value).value, upload(licenceFront.value).value,
                                             upload(licenceBack.value).value, UploadBatch(petDocs, upload), parse))
    {
      var payStubUrls := UploadBatch(payStubs, upload);
      var creditReportUrl := upload(creditReport.value);
      var dlFrontUrl := upload(licenceFront.value);
      var dlBackUrl := upload(licenceBack.value);
      var petDocUrls := UploadBatch(petDocs, upload);
      var uploads := AllUploads();
      effects := uploads;
      assert effects[..|uploads|] == uploads;

      if |payStubUrls| < 3 || !UsableUrl(creditReportUrl) || !UsableUrl(dlFrontUrl) || !UsableUrl(dlBackUrl) {
        return UploadsFailed, effects;
      }

      var saved := ProfileSaved(ProfileOf(formData, parse));
      effects := uploads + [saved];
      assert effects[..|uploads|] == uploads && effects[|uploads|] == saved;
      if !profileSaves {
        return ProfileSaveFailed, effects;
      }

      var application := Payload(property, user, formData, payStubUrls, creditReportUrl.value, dlFrontUrl.value,
                                 dlBackUrl.value, petDocUrls, parse);
      effects := uploads + [saved, ApplicationCreated(application)];
      assert effects[..|uploads|] == uploads && effects[|uploads|] == saved;
      if !createSucceeds {
        return CreateFailed, effects;
      }
      return Submitted(application), effects;
    }
  }
}
