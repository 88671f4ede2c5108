/**
 * The records the CRM keeps: properties, clients, rental applications, leases and users.
 * Every stored record is a `Row`: the fields the creator supplied, plus the id and the
 * creation time the store assigns.
 */
module Entities {
  import opened Wrappers

  type Id = string
  type Url = string

  /** Milliseconds since the epoch: the model's reading of `Date.now()` and of ISO timestamps. */
  type Millis = int

  datatype PropertyStatus = Available | Pending | Leased
  datatype AppStatus = Pending | Approved | Denied
  datatype LeaseStatus = Active | Renewed | Ended

  /** A calendar date in local time, as year, month (1-12) and day of month. */
  datatype CalendarDate = CalendarDate(year: int, month: int, day: int)

  predicate IsLeapYear(y: int)
  {
    (y % 4 == 0 && y % 100 != 0) || y % 400 == 0
  }

  function DaysInMonth(y: int, m: int): int
  {
    if m == 2 then (if IsLeapYear(y) then 29 else 28)
    else if m == 4 || m == 6 || m == 9 || m == 11 then 30
    else 31
  }

  predicate ValidDate(d: CalendarDate)
  {
    1 <= d.month <= 12 && 1 <= d.day <= DaysInMonth(d.year, d.month)
  }

  /** A scalar form value: the text of an input, or the state of a checkbox or radio choice. */
  datatype Scalar = Text(text: string) | Flag(flag: bool)

  /** One entry of a repeating group (an occupant, vehicle, pet or reference): field name to value. */
  type SubRecord = map<string, Scalar>

  /** A stored record: the id and creation time assigned at `create`, and the supplied fields. */
  datatype Row<F> = Row(id: Id, createdDate: Millis, fields: F)

  datatype PropertyFields = PropertyFields(
    title: string,
    address: string,
    city: string,
    /** The empty string stands for a property without a neighbourhood. */
    neighbourhood: string,
    beds: int,
    baths: real,
    sqft: int,
    monthlyRent: real,
    status: PropertyStatus,
    amenities: seq<string>,
    photos: seq<Url>,
    propertyType: string,
    ownerId: Id,
    /** The client portal reads `rent_amount`, `bedrooms` and `bathrooms`; when a record lacks them they are absent here. */
    rentAmount: Option<real>,
    bedrooms: Option<int>,
    bathrooms: Option<real>)

  type Property = Row<PropertyFields>

  datatype ClientFields = ClientFields(
    firstName: string,
    lastName: string,
    email: string,
    phone: string,
    status: string,
    budgetMin: Option<real>,
    budgetMax: Option<real>,
    prefsText: string,
    source: string,
    notes: string)

  type Client = Row<ClientFields>

  datatype ApplicationFields = ApplicationFields(
    propertyId: Id,
    userId: Id,
    /** Absent on applications submitted through the wizard, which never sets it. */
    clientId: Option<Id>,
    /** Absent on applications submitted through the wizard, which never sets it. */
    status: Option<AppStatus>,
    decisionAt: Option<Millis>,
    /** Absent when the score is not a number. */
    score: Option<real>,
    docsComplete: real,
    coApplicants: seq<SubRecord>,
    otherOccupants: seq<SubRecord>,
    vehicles: seq<SubRecord>,
    pets: seq<SubRecord>,
    personalReferences: seq<SubRecord>,
    /** Parking, pet-policy, background and consent answers, and the free-text notes. */
    answers: map<string, Scalar>,
    payStubsUrls: seq<Url>,
    creditReportUrl: Url,
    dlFrontUrl: Url,
    dlBackUrl: Url,
    petDocsUrls: seq<Url>,
    monthlyIncome: Option<real>,
    employer: Option<Scalar>)

  type Application = Row<ApplicationFields>

  datatype LeaseFields = LeaseFields(
    propertyId: Id,
    clientId: Id,
    startDate: CalendarDate,
    endDate: CalendarDate,
    monthlyRent: Option<real>,
    deposit: Option<real>,
    paymentDay: int,
    status: LeaseStatus)

  type Lease = Row<LeaseFields>

  datatype User = User(id: Id, fullName: string, email: string, phone: string)

  /** How a status is written into text: the status value, or `undefined` when absent. */
  function StatusText(s: Option<AppStatus>): string
  {
    match s
    case None => "undefined"
    case Some(Pending) => "pending"
    case Some(Approved) => "approved"
    case Some(Denied) => "denied"
  }
}
