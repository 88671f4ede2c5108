# Rental management front end: a Dafny model

This project models the core of a property-rental web application, which has two sides.

- **Landlord side.** Landlords keep the properties, clients, rental applications and leases. They
  approve or deny applications, and approving one leases the property and drafts a lease. They
  end or renew leases, and follow a dashboard.
- **Public side.** Prospective tenants browse the listings and fill in a multi-step rental
  application, which uploads documents, saves their profile and files the application.

The model covers the following.

- **`RentalWizard`** (`wizard.dfy`): the rental-application wizard.
  - Step navigation.
  - The draft and its repeatable groups: occupants, vehicles, pets and references.
  - The document slots and the upload-indicator rule.
  - The score formula.
  - The profile that is saved.
  - The ordered sequence of gates and backend calls on submit.

  The wizard is a class `Wizard` whose methods change its fields as the page's state hooks do.
- **`MockStore`** (`mock_store.dfy`): the in-memory backend. It is a class `Store` holding the
  five collections. Create adds a row whose id is the prefix and the clock reading and whose
  time is the clock reading, and update merges a patch into
  the first row with the id or fails with "not found". Every write is recorded in a ghost log,
  so a workflow's contract can state which writes it made and in what order.
- **`ApplicationsView`** (`applications.dfy`): the application filters, the kanban columns and
  the approve/deny workflow, including the drafted lease's dates.
- **`PropertiesView`** (`properties.dfy`): the property filters, the amenity toggle and photo
  removal, and the per-property lookups.
- **`ClientsView`** (`clients.dfy`):
  - the client search;
  - the duplicate-email gate and the form conversion on submit;
  - the pipeline stage;
  - the properties that fit a client's budget.
- **`PublicPortalView`** (`public_portal.dfy`):
  - the public listing, where matching unleased properties come first and matching leased ones
    follow;
  - the neighbourhood choices;
  - the choice between "Apply" and "Join waitlist".
- **`ClientPortalView`** (`client_portal.dfy`): the filters of the client portal.
- **`LeasesView`** (`leases.dfy`): the lease search and the renew/end workflow. Ending a lease
  makes the property available again.
- **`DashboardView`** (`dashboard.dfy`):
  - the statistics;
  - the list of aging applications;
  - the recent-activity feed, sorted newest first by a stable insertion sort;
  - the quick decision.
- **`Routing`** (`routing.dfy`): `createPageUrl` and the router's choice of the current page
  from a URL.
- **Shared modules.**
  - `Wrappers` holds Option and Result.
  - `Seqs` holds filter, take, find, subsequence and dedup, with their lemmas.
  - `Text` holds ASCII lower-casing, substring search and decimal rendering.
  - `Entities` holds the records and their statuses.

Each filter bar is written as it is in the source: a chain of conditional filter steps. A lemma
proves that the chain equals one filter by the conjunction of the criteria. Further lemmas
prove, for every input:

- the result keeps the source order;
- it holds only matches;
- it misses none;
- the default filters keep everything.

The landlord workflows (`UpdateApplicationStatus`, `HandleStatusChange` and `QuickDecision`) are
module-level methods that take the `Store` and change it through its methods. The wizard's
`Submit` instead returns the ordered list of backend calls it makes.
Their postconditions give the new collections and the write log for each path: the early
returns, a write that fails with "not found", and the full path. The approval workflow's log is
stated through the function `DecisionWrites`, whose own lemma says what every run looks like.
`HandleStatusChange` states its log on the abort paths, including the ending of a lease whose
property is gone from the store.

## Model

| member | source | states |
|---|---|---|
| RentalWizard.Next | src/pages/ApplyForRental.jsx:107 | the step advances by one and stops at the last of the nine steps |
| RentalWizard.Prev | src/pages/ApplyForRental.jsx:108 | the step goes back by one and stops at 0 |
| RentalWizard.PrevUndoesNext | src/pages/ApplyForRental.jsx:107-108 | going back after going forward returns to any step before the last |
| RentalWizard.NextTimesReaches | src/pages/ApplyForRental.jsx:24-34 | n presses of Next reach step + n, capped at the last step |
| RentalWizard.InitialDraft | src/pages/ApplyForRental.jsx:54-96 | profile fields are kept unless the initial answers override them; the initial answers win; groups start empty; the background questions exist; terms start unaccepted |
| RentalWizard.Lookup | src/pages/ApplyForRental.jsx:236-250 | a field is found exactly when the draft has it |
| RentalWizard.SetField | src/pages/ApplyForRental.jsx:98-105 | the field is set to the value and every other field keeps its value |
| RentalWizard.InputValue | src/pages/ApplyForRental.jsx:99-100 | a checkbox yields its checked flag and any other input yields its text |
| RentalWizard.WithGroup | src/pages/ApplyForRental.jsx:141-231 | replacing one group leaves the fields and the other groups unchanged |
| RentalWizard.BlankEntryIsBlank | src/pages/ApplyForRental.jsx:141-146 | every field of a new group entry is falsy |
| RentalWizard.AddEntry | src/pages/ApplyForRental.jsx:141-146 | the group grows by one blank entry at its end; nothing else changes |
| RentalWizard.RemoveEntry | src/pages/ApplyForRental.jsx:148-153 | entry i is removed and the others keep their order; an index out of range changes nothing |
| RentalWizard.UpdateAt | src/pages/ApplyForRental.jsx:155-162 | only the entry at i changes, and it gets the field set to the value |
| RentalWizard.UpdateEntry | src/pages/ApplyForRental.jsx:155-162 | the group keeps its length; only entry i changes; the other groups and the fields are unchanged |
| RentalWizard.RemoveUndoesAdd | src/pages/ApplyForRental.jsx:141-153 | removing the entry just added restores the draft |
| RentalWizard.UpdateEntryIdempotent | src/pages/ApplyForRental.jsx:155-162 | the same update made twice equals it made once |
| RentalWizard.ApplyToList | src/pages/ApplyForRental.jsx:827-833 | chosen files are appended in order; a removal drops index i, or nothing when i is out of range |
| RentalWizard.ApplyToSlot | src/pages/ApplyForRental.jsx:841-847 | a removal empties the slot; a choice keeps its first file, or empties the slot when no file was chosen |
| RentalWizard.IsMet | src/pages/ApplyForRental.jsx:335-336 | with no or a zero requirement, met exactly when some file is chosen; zero files meet a requirement only when it is negative |
| RentalWizard.SlotCount | src/pages/ApplyForRental.jsx:335-337 | a single-file slot counts one exactly when filled |
| RentalWizard.DocumentsReadyIffIndicatorsMet | src/pages/ApplyForRental.jsx:236-239 | the submit document gate passes exactly when the four upload indicators show met |
| RentalWizard.UploadBatch | src/pages/ApplyForRental.jsx:125-139 | all URLs in file order when every upload succeeds, and no URLs when any fails |
| RentalWizard.ParseNumber | src/pages/ApplyForRental.jsx:270 | a missing or boolean field parses to no number; a text field parses as its text does |
| RentalWizard.Clamp | src/pages/ApplyForRental.jsx:316 | the result lies in [1, 10] and equals the input when the input already does |
| RentalWizard.Score | src/pages/ApplyForRental.jsx:316 | income ÷ rent × 2.5 clamped to [1, 10]; no score without an income or when 0/0 |
| RentalWizard.ScoreMonotone | src/pages/ApplyForRental.jsx:316 | a higher income never gives a lower score |
| RentalWizard.ScoreExamples | src/pages/ApplyForRental.jsx:316 | worked values, including both clamps and the four-times-rent case |
| RentalWizard.Join | src/pages/ApplyForRental.jsx:282 | an empty list joins to the empty text; otherwise the result starts with the first part; a list of non-empty parts joins to the empty text only when it is empty |
| RentalWizard.JoinSnoc | src/pages/ApplyForRental.jsx:282 | joining one more part appends the separator and the part |
| RentalWizard.PetDetailsEmptyIffNoPets | src/pages/ApplyForRental.jsx:282 | the pet description is empty exactly when there are no pets |
| RentalWizard.ProfileOf | src/pages/ApplyForRental.jsx:263-285 | the pets flag holds iff pets were listed iff the description is non-empty; other income defaults to 0; monthly income is the parsed field |
| RentalWizard.Uploads | src/pages/ApplyForRental.jsx:253-257 | one upload per file, in order |
| RentalWizard.Wizard.constructor | src/pages/ApplyForRental.jsx:44-76 | step 0, the initial draft, and empty document slots |
| RentalWizard.Wizard.NextStep | src/pages/ApplyForRental.jsx:107 | the step becomes Next of the old step and nothing else changes |
| RentalWizard.Wizard.PrevStep | src/pages/ApplyForRental.jsx:108 | the step becomes Prev of the old step and nothing else changes |
| RentalWizard.Wizard.HandleInputChange | src/pages/ApplyForRental.jsx:98-101 | the draft gets the input's value under its name and nothing else changes |
| RentalWizard.Wizard.HandleSelectChange | src/pages/ApplyForRental.jsx:103-105 | the draft gets the value under the name and nothing else changes |
| RentalWizard.Wizard.AddGroupEntry | src/pages/ApplyForRental.jsx:141-146 | the draft becomes AddEntry of the old draft and nothing else changes |
| RentalWizard.Wizard.RemoveGroupEntry | src/pages/ApplyForRental.jsx:148-153 | the draft becomes RemoveEntry of the old draft and nothing else changes |
| RentalWizard.Wizard.UpdateGroupEntry | src/pages/ApplyForRental.jsx:155-162 | the draft becomes UpdateEntry of the old draft and nothing else changes |
| RentalWizard.Wizard.OnPayStubsChange | src/pages/ApplyForRental.jsx:827-833 | the pay stubs list gets the change and nothing else changes |
| RentalWizard.Wizard.OnPetDocsChange | src/pages/ApplyForRental.jsx:608-614 | the pet documents list gets the change and nothing else changes |
| RentalWizard.Wizard.OnCreditReportChange | src/pages/ApplyForRental.jsx:841-847 | the credit report slot gets the change and nothing else changes |
| RentalWizard.Wizard.OnLicenceFrontChange | src/pages/ApplyForRental.jsx:856-862 | the licence front slot gets the change and nothing else changes |
| RentalWizard.Wizard.OnLicenceBackChange | src/pages/ApplyForRental.jsx:870-876 | the licence back slot gets the change and nothing else changes |
| RentalWizard.Wizard.AllUploads | src/pages/ApplyForRental.jsx:253-257 | pay stubs, then the three single documents, then exactly the pet documents' uploads |
| RentalWizard.Wizard.Submit | src/pages/ApplyForRental.jsx:233-329 | the gates apply in order (documents, terms, background) and each blocks every backend call; uploads come next, with a failure stopping before the profile save; then the profile is saved, then the create is called with the record built from the draft, the uploaded URLs and the score, whether or not it succeeds |
| RentalWizard.Wizard.Deliver | src/pages/ApplyForRental.jsx:253-320 | once past the gates: every upload is attempted before the check of their results; a failed required upload stops before the profile save; otherwise the profile is saved, and then the create is called with the record built from the draft and the uploaded URLs, on the failing path as on the succeeding one |
| RentalWizard.Payload | src/pages/ApplyForRental.jsx:289-318 | the record names the property and user, carries the uploaded URLs, the groups and exactly the draft answers among the application's keys, the parsed income and employer, and a score clamped to 1..10; documents count as complete |
| MockStore.MergesIdempotent | src/api/mockData.js:279 | merging the same patch twice equals merging it once |
| MockStore.IndexOfId | src/api/mockData.js:277 | the first index with the id, or -1 when no row has it |
| MockStore.FirstWithId | src/api/mockData.js:261-264 | nothing exactly when no row has the id, otherwise the first such row |
| MockStore.MergeProperty | src/api/mockData.js:279 | the patched status replaces the old one; every other field is kept; an empty patch changes nothing |
| MockStore.MergeApplication | src/api/mockData.js:279 | each field the patch sets replaces the old one, each it leaves unset is kept; the other fields are kept |
| MockStore.MergeLease | src/api/mockData.js:279 | the patched status replaces the old one; every other field is kept; an empty patch changes nothing |
| MockStore.UpdateById | src/api/mockData.js:275-283 | only the first row with the id is merged; every other row and the length are unchanged |
| MockStore.UpdateByIdIdempotent | src/api/mockData.js:275-283 | repeating an update with the same patch changes nothing more |
| MockStore.NewId | src/api/mockData.js:269 | an id is the prefix, a dash, and the decimal digits of the clock |
| MockStore.NewIdInjective | src/api/mockData.js:269 | distinct clock readings give distinct ids |
| MockStore.Store.constructor | src/api/mockData.js:253-361 | the store holds the given rows and an empty write log |
| MockStore.Store.ListProperties | src/api/mockData.js:256-260 | a copy of all properties |
| MockStore.Store.GetProperty | src/api/mockData.js:261-264 | the first property with the id, or nothing |
| MockStore.Store.CreateProperty | src/api/mockData.js:265-274 | the new row gets an id made of the prefix and the clock reading and the clock as its time, is appended, and is logged; the other collections are unchanged |
| MockStore.Store.UpdateProperty | src/api/mockData.js:275-283 | the patch is merged into the first match, or there is a not-found error with no write; the other collections are unchanged |
| MockStore.Store.ListClients | src/api/mockData.js:287-290 | a copy of all clients |
| MockStore.Store.CreateClient | src/api/mockData.js:291-300 | the row is appended with an id made of the prefix and the clock reading, and logged; nothing else changes |
| MockStore.Store.ListApplications | src/api/mockData.js:304-307 | a copy of all applications |
| MockStore.Store.CreateApplication | src/api/mockData.js:308-317 | the row is appended with an id made of the prefix and the clock reading, and logged; nothing else changes |
| MockStore.Store.UpdateApplication | src/api/mockData.js:318-326 | the patch is merged into the first match, or there is a not-found error with no write |
| MockStore.Store.ListLeases | src/api/mockData.js:330-333 | a copy of all leases |
| MockStore.Store.CreateLease | src/api/mockData.js:334-343 | the row is appended with an id made of the prefix and the clock reading, and logged; nothing else changes |
| MockStore.Store.UpdateLease | src/api/mockData.js:344-352 | the patch is merged into the first match, or there is a not-found error with no write |
| MockStore.Store.ListUsers | src/api/mockData.js:356-359 | a copy of all users |
| ApplicationsView.ApplyFilters | src/pages/Applications.jsx:69-104 | the five conditional steps equal one filter by the conjunction of the criteria |
| ApplicationsView.ApplyFiltersSpec | src/pages/Applications.jsx:69-104 | the result keeps source order, holds only matches and misses no match |
| ApplicationsView.DefaultFiltersKeepAll | src/pages/Applications.jsx:69-104 | with no filter set, every application is shown |
| ApplicationsView.FilteredSatisfyActiveFilters | src/pages/Applications.jsx:72-101 | every shown application meets each active filter: search, status, score bounds and aging |
| ApplicationsView.Column | src/pages/Applications.jsx:396-398 | a column holds only filtered applications of its status |
| ApplicationsView.ColumnsDisjoint | src/pages/Applications.jsx:396-398 | no application appears in two columns |
| ApplicationsView.ColumnsCoverStatused | src/pages/Applications.jsx:396-398 | together the three columns are exactly the filtered applications that have a status |
| ApplicationsView.NextMonthStart | src/pages/Applications.jsx:125-126 | the earliest first-of-month strictly after today, with December rolling over |
| ApplicationsView.AddOneYear | src/pages/Applications.jsx:127-128 | the same day one year on; 29 February becomes 1 March in a non-leap year |
| ApplicationsView.ApprovalLease | src/pages/Applications.jsx:124-138 | the lease drafted by an approval: the application's property, the user id as client, rent and deposit equal to the property rent, payment day 1, active, starting next month and running one year |
| ApplicationsView.DraftLease | src/pages/Applications.jsx:124-139 | the created lease row: the lease id for the store's clock reading at the create, that reading as its time, and the approval's lease fields |
| ApplicationsView.ApprovalWrites | src/pages/Applications.jsx:122-139 | an approval's writes after the decision complete exactly when the property is in the store and in the loaded map |
| ApplicationsView.DecisionWritesSpec | src/pages/Applications.jsx:117-139 | nothing is written without the application; the decision is written first; a lease is created exactly when an approval completes, which needs the application, the property in the store and in the loaded map, and it is then the third write after the property is marked leased, with the later clock reading of the create as its id and time while the decision carries the earlier one; any other decision writes at most the decision |
| ApplicationsView.UpdateApplicationStatus | src/pages/Applications.jsx:106-147 | no write and the matching outcome without an application or when approving a property with an active lease; otherwise the log grows by exactly the writes of `DecisionWrites`, the leases by exactly its new leases, the application is merged and, for an approval that found the application, the property is marked leased |
| ApplicationsView.RecordDecision | src/pages/Applications.jsx:117-139 | the log grows by exactly the writes of `DecisionWrites` for whether the application and the property are in the store, the leases by its new leases; the outcome is its outcome; clients and users are unchanged |
| ApplicationsView.LeaseOut | src/pages/Applications.jsx:122-139 | the property is marked leased; the log grows by exactly the writes of `ApprovalWrites`, and the leases by the drafted lease, stamped with the create's clock reading, only when the update succeeded and the property is in the loaded map |
| PropertiesView.ApplyFilters | src/pages/Properties.jsx:81-114 | the six conditional steps equal one filter by the conjunction of the criteria |
| PropertiesView.ApplyFiltersSpec | src/pages/Properties.jsx:81-114 | the result keeps source order, holds only matches and misses no match |
| PropertiesView.DefaultFiltersKeepAll | src/pages/Properties.jsx:81-114 | with the default filters, every property is shown |
| PropertiesView.FilteredSatisfyActiveFilters | src/pages/Properties.jsx:84-111 | every shown property meets each active filter: search, status, price bounds, beds and pets |
| PropertiesView.ToggleAmenity | src/pages/Properties.jsx:220-227 | the amenity is present afterwards iff it was absent before; other amenities are untouched; a new one is appended; a removal keeps the others in order |
| PropertiesView.ToggleTwice | src/pages/Properties.jsx:220-227 | toggling twice restores presence and leaves every other amenity's count alone |
| PropertiesView.ToggleOnOff | src/pages/Properties.jsx:220-227 | adding an absent amenity and removing it gives back the same list |
| PropertiesView.RemoveImage | src/pages/Properties.jsx:213-218 | photo i is removed and the rest keep their order; an index out of range changes nothing |
| PropertiesView.PropertyApplications | src/pages/Properties.jsx:239-241 | exactly the applications for the property, in order |
| PropertiesView.PropertyLease | src/pages/Properties.jsx:243-245 | the first lease on the property whatever its status, or nothing when none exists |
| ClientsView.FullName | src/pages/Clients.jsx:84 | first name, a space, then last name |
| ClientsView.ApplyFilters | src/pages/Clients.jsx:79-91 | an empty term shows all clients; otherwise the filter of the list by the search, that is exactly those, each as often as loaded, whose name or email contains the term ignoring case, or whose phone contains it exactly |
| ClientsView.ApplyFiltersKeepsOrder | src/pages/Clients.jsx:79-91 | the search keeps the list order |
| ClientsView.PhoneMatchIsExact | src/pages/Clients.jsx:86 | when name and email do not match, the phone is compared as typed |
| ClientsView.DuplicateWarning | src/pages/Clients.jsx:93-99 | a warning exactly when the email is non-empty and some client has exactly that email |
| ClientsView.Budget | src/pages/Clients.jsx:114-115 | an empty budget is unset; otherwise it is the parsed number |
| ClientsView.SubmitClient | src/pages/Clients.jsx:108-121 | nothing is created while a warning shows; otherwise the form fields are carried over and the budgets converted |
| ClientsView.SubmitBlockedIffDuplicate | src/pages/Clients.jsx:93-110 | a submission is blocked exactly when another client has the form's non-empty email |
| ClientsView.ClientApplications | src/pages/Clients.jsx:134-136 | exactly the applications naming the client |
| ClientsView.ClientLease | src/pages/Clients.jsx:138-140 | the first active lease of the client in list order, or nothing when the client has none |
| ClientsView.ClientStage | src/pages/Clients.jsx:124-132 | Leased exactly when the client has an active lease; Applied exactly when it has none but has an application; Lead when it has neither |
| ClientsView.ClientStageSpec | src/pages/Clients.jsx:124-132 | Leased iff the client has an active lease; otherwise Applied iff the client has any application; otherwise Lead |
| ClientsView.MatchingProperties | src/pages/Clients.jsx:142-148 | the first three fitting properties in list order, or all of them when fewer fit; each is available and within every non-zero budget bound |
| ClientsView.MatchingPropertiesSpec | src/pages/Clients.jsx:142-148 | the matches keep source order, and fewer than three means no fitting property was cut |
| PublicPortalView.Narrow | src/pages/PublicPortal.jsx:66-106 | the six conditional steps equal one filter by the conjunction of the criteria |
| PublicPortalView.ApplyFilters | src/pages/PublicPortal.jsx:60-108 | the list is the matching unleased properties followed by the matching leased ones |
| PublicPortalView.ApplyFiltersOrder | src/pages/PublicPortal.jsx:61-108 | every listed property matches; the unleased all come before the leased |
| PublicPortalView.ApplyFiltersKeepsOrder | src/pages/PublicPortal.jsx:61-108 | each group keeps source order and no property is listed more often than it is loaded |
| PublicPortalView.ApplyFiltersComplete | src/pages/PublicPortal.jsx:61-108 | every matching property is listed, in the group its status puts it in |
| PublicPortalView.DefaultFiltersListEverything | src/pages/PublicPortal.jsx:61-108 | with the default filters every property is listed exactly once, unleased first |
| PublicPortalView.Neighbourhoods | src/pages/PublicPortal.jsx:244 | the choices are distinct and non-empty; each is some property's neighbourhood; every non-empty neighbourhood is among them |
| PublicPortalView.NeighbourhoodsInFirstOccurrenceOrder | src/pages/PublicPortal.jsx:244 | the choices follow the order of first occurrence |
| PublicPortalView.CardActionFor | src/pages/PublicPortal.jsx:150-238 | "Join waitlist" exactly when an active lease on the property exists, otherwise "Apply" |
| ClientPortalView.ApplyFilters | src/pages/ClientPortal.jsx:52-87 | the six conditional steps equal one filter by the conjunction of the criteria |
| ClientPortalView.ApplyFiltersSpec | src/pages/ClientPortal.jsx:52-87 | the result keeps source order, holds only matches and misses no match |
| ClientPortalView.DefaultFiltersKeepAll | src/pages/ClientPortal.jsx:29-87 | with the default filters every loaded property is shown |
| ClientPortalView.FilteredSatisfyActiveFilters | src/pages/ClientPortal.jsx:56-84 | every shown property meets each active filter: search, type, rent bounds, bedrooms exactly and bathrooms at least |
| LeasesView.ApplyFilters | src/pages/Leases.jsx:53-66 | an empty term shows all leases; otherwise the filter of the list by the search, that is exactly those, each as often as loaded, whose loaded property title or client name contains the term ignoring case |
| LeasesView.ApplyFiltersKeepsOrder | src/pages/Leases.jsx:53-66 | the search keeps the list order |
| LeasesView.PropertyMap | src/pages/Leases.jsx:44 | every loaded property's id is a key, and each key maps to a loaded property with that id |
| LeasesView.ClientMap | src/pages/Leases.jsx:45 | every loaded client's id is a key, and each key maps to a loaded client with that id |
| LeasesView.SearchFindsLoadedRecords | src/pages/Leases.jsx:44-45 | the look-up maps hold, for each id, the last loaded record with that id |
| LeasesView.ActionsOffered | src/pages/Leases.jsx:126-131 | Renew and End are offered exactly on active leases |
| LeasesView.HandleStatusChange | src/pages/Leases.jsx:68-80 | an unknown lease means no write; otherwise the status is written; ending a lease then makes its property available; a not-found failure stops the remaining writes, and an ended lease whose property is not in the store logs only the status write |
| DashboardView.Statistics | src/pages/Dashboard.jsx:52-62 | the unit and application counts are the sizes of the status filters; rent is the sum over active leases; occupancy is the leased share |
| DashboardView.Occupancy | src/pages/Dashboard.jsx:55 | 0 with no units, otherwise leased × 100 ÷ total, within [0, 100] |
| DashboardView.StatisticsBounds | src/pages/Dashboard.jsx:52-62 | leased plus available is at most the total; occupancy is within [0, 100]; the three application counts sum to at most the number of applications |
| DashboardView.RentSum | src/pages/Dashboard.jsx:62 | non-negative when every rent is; 0 when no lease has a rent |
| DashboardView.RentSumAppend | src/pages/Dashboard.jsx:62 | the rent sum of a concatenation is the sum of the rent sums |
| DashboardView.RentSumBounds | src/pages/Dashboard.jsx:61-62 | the recurring rent is non-negative and at most the rent of all leases |
| DashboardView.Aging | src/pages/Dashboard.jsx:65-69 | the first five aging applications in list order, or all of them when fewer; each is pending and created more than 48 hours ago |
| DashboardView.AgingSpec | src/pages/Dashboard.jsx:65-69 | the list keeps order; fewer than five means every aging application is listed |
| DashboardView.Feed | src/pages/Dashboard.jsx:84-100 | at most ten items: three properties, four applications and three leases |
| DashboardView.Insert | src/pages/Dashboard.jsx:100 | inserting adds exactly the one item |
| DashboardView.InsertSorted | src/pages/Dashboard.jsx:100 | inserting into a newest-first list keeps it newest-first |
| DashboardView.SortNewestFirst | src/pages/Dashboard.jsx:100 | the result is newest-first and a permutation of the input |
| DashboardView.SortKeepsTies | src/pages/Dashboard.jsx:100 | items with equal timestamps keep their feed order, so the sort is stable |
| DashboardView.RecentActivity | src/pages/Dashboard.jsx:84-100 | at most ten items, newest first |
| DashboardView.RecentActivityIsWholeFeed | src/pages/Dashboard.jsx:84-100 | the cut to ten drops nothing: the list is a permutation of the whole feed, and ties keep their order |
| DashboardView.RecentActivitySources | src/pages/Dashboard.jsx:84-99 | every item comes from one of the first three properties, the first four applications or the first three leases |
| DashboardView.QuickDecision | src/pages/Dashboard.jsx:110-116 | the decision and time are written to the application, or there is a not-found error with no write; nothing else changes |
| Routing.StripTrailingSlash | src/pages/index.jsx:46-48 | one trailing slash is removed |
| Routing.LastSlash | src/pages/index.jsx:49 | the position of the last slash, or -1 when there is none |
| Routing.LastSegment | src/pages/index.jsx:49 | the text after the last slash, which contains no slash |
| Routing.BeforeQuery | src/pages/index.jsx:50-52 | the prefix before the first question mark, or the whole text when there is none |
| Routing.PageNamed | src/pages/index.jsx:54 | the first page whose name equals the segment ignoring case |
| Routing.CurrentPage | src/pages/index.jsx:45-56 | always one of the nine pages; Dashboard when no name matches |
| Routing.PagesDistinctIgnoringCase | src/pages/index.jsx:23-43 | no two page names are equal ignoring case |
| Routing.CurrentPageMatches | src/pages/index.jsx:54-55 | when a page is named, it is the one whose name matches the segment |
| Routing.CurrentPageCanonical | src/pages/index.jsx:54-55 | a segment spelling a page's name in any case selects that page |
| Routing.SegmentOfPath | src/pages/index.jsx:45-52 | the path "/Name" has segment Name |
| Routing.LowerCasePathSelectsPage | src/pages/index.jsx:45-56 | "/properties" selects Properties |
| Routing.RootSelectsDashboard | src/pages/index.jsx:45-56 | "/" selects Dashboard |
| Routing.TrailingSlashIgnored | src/pages/index.jsx:46-48 | adding one trailing slash does not change the page |
| Routing.QueryIgnored | src/pages/index.jsx:49-52 | a query string after the last segment does not change the page |
| Routing.CreatePageUrl | src/utils/index.ts:4-7 | a leading slash and then the name with every space replaced by a dash |
| Routing.CreatePageUrlRoundTrip | src/utils/index.ts:4-7 | the URL of each page selects that page |
| Routing.PageLinkWithQuery | src/utils/index.ts:4-7 | a page URL with a query attached still selects the page |
| Routing.ApplyLinkRoutesToForm | src/utils/index.ts:6 | the router picks the rental application page for the apply link with its property id |

## Left out

- **Not modelled at all.**
  - Network and visual behaviour: rendering, alerts, navigation, loading spinners, the
    simulated delays and the reload after each workflow (`loadData`).
  - Concurrency between the asynchronous steps. Each workflow is modelled as its writes made one
    after another.
  - The external SDK client. `src/api/entities.js` binds the entities to it, and
    `src/api/base44Client.js` is not part of this model. The workflows run against the
    mock-store semantics of `src/api/mockData.js`: create assigns an id and a time, and update
    fails when the row is not found.
- **Parameters instead of code.**
  - The clock.
  - The file-upload service, as `upload: File -> Option<Url>`.
  - `parseFloat`, as a function from text to an optional number, where NaN is `None`.
  - The backend call results inside `Submit`: whether the profile save and the create succeed.
- **Numbers and text.**
  - Numbers are reals, not IEEE doubles. NaN is `None`, and a comparison with it is false.
    `toFixed(1)` on the occupancy is not modelled.
  - Lower-casing is ASCII only. No Unicode case mapping is modelled.
- **Simplifications to the data.**
  - The filter bars take their numeric inputs already parsed: a number, or `None` for an empty
    box or for `all`.
  - Patches carry only the fields the workflows send: status, and the decision time for
    applications.
  - Timestamps are milliseconds (`Millis`). ISO text is not modelled.
- **Members with approximated time.**
  - ApplicationsView.ApplyFilters and DashboardView.Aging: the aging cutoffs (`AgingOk`,
    `IsAging`) are fixed offsets, `N * DayMs` and 48 hours in milliseconds. The source steps
    the local calendar back: `setDate(getDate() - N)` at `src/pages/Applications.jsx:96-97`
    and `setHours(getHours() - 48)` at `src/pages/Dashboard.jsx:65-66`. Across a
    daylight-saving change those cutoffs differ by an hour. Local-time arithmetic is not
    modelled.
  - MockStore.Store.CreateLease and the other creates: one clock reading gives both the id and
    the creation time. The source reads the clock twice, one statement apart.
- **Members with partial contracts.**
  - RentalWizard.Wizard.HandleInputChange: inputs whose name is a group key (occupants,
    vehicles, pets, references) are not modelled. Group entries are changed only through the
    group handlers.
  - RentalWizard.InitialDraft: the co-applicants group has no handler in the source. It is kept,
    always empty.
  - ClientPortalView.ApplyFiltersSpec: the portal loads only available properties through the
    SDK's query (`ClientPortal.jsx:47`). That query is not modelled: the filters apply to
    whatever list is passed.
  - PublicPortalView.Neighbourhoods: an unset neighbourhood is the empty string.
  - Routing.ApplyLinkRoutesToForm: covers only the router's choice of page, not how the form
    reads the query. The client portal's card link passes `property_id`
    (`src/pages/ClientPortal.jsx:180`). The form reads `propertyId`
    (`src/pages/ApplyForRental.jsx:52`), and without it goes back to the public portal
    (`src/pages/ApplyForRental.jsx:55-58`). So that link reaches the form's page, which then
    leaves it. The public portal's own links use `propertyId` (`src/pages/PublicPortal.jsx:116-125`).
  - MockStore.NewId: two creates of the same kind in the same millisecond get the same id. The
    store checks no uniqueness, so the model states only that distinct clock readings give
    distinct ids.
  - LeasesView.SearchFindsLoadedRecords: the maps are built from the loaded lists by id, with
    the last record winning. The SDK's list order is not modelled.
