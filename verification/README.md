# Business app core, modelled in Dafny

The application manages a small business's clients, projects, tasks, time
entries, invoices, contracts and calendar events. A React front end talks to
an Express back end. The storage the routes use is Postgres
(`DatabaseStorage`, exported as `storage` in server/storage.ts); an
in-memory store (`MemStorage`) with the same interface is exported as well
but never instantiated (server/storage.ts:120, 622-623). This project models the parts of the application that carry
business logic and proves what they promise. The route handlers are modelled
over `MemStorage`, whose state is visible; the Postgres storage contributes
its patch rewrites, insertion defaults and dashboard figures:

- **Reports** (`reports.dfy`, `report_rollups.dfy`): the range keywords, the
  dense per-month revenue and hours series built by a month loop and
  accumulated in place, the per-project and per-client rollups (sparse,
  stably sorted by a descending total) and the summary counters.
- **In-memory storage** (`mem_storage.dfy`): `MemStorage` as a class with ten
  keyed tables and ten auto-increment counters; create, merge-update, delete,
  the invoice-item cascade, the filtered, sorted and limited queries and the
  dashboard figures.
- **Lifecycle rules on the server** (`routes.dfy`, `db_storage.dfy`): the
  time-entry duration, the task completion stamp, the invoice payment stamp,
  the two-party contract signature, insertion defaults, validation before any
  write, query-parameter precedence and the Postgres dashboard figures.
- **Time tracker** (`time_tracker.dfy`): the timer as a class (start, tick,
  stop, resume), the clock formatting with its decomposition and
  the entry filter.
- **Client pages and components**: invoices, contracts, clients, tasks,
  settings, sign-in and calendar pages; the project, task and activity cards;
  the layout's page title; translation lookup and language choice (`i18n.dfy`).
- **Shared models** of what the code leans on: `Array.prototype` filter,
  slice, find and the stable sort (`seqs.dfy`), string operations and number
  printing (`text.dfy`), the local calendar of JavaScript `Date` and date-fns
  (`calendar.dfy`), JavaScript objects with spread and truthiness
  (`records.dfy`), and the entity types and their status enumerations (`schema.dfy`).

Instants are whole milliseconds since the epoch in one fixed time zone without
daylight saving. Money and hours are `real`. A request's outcome (success or
failure) and "now" are parameters. A schema check that rejects a body is
modelled by the body being absent.

The in-memory store and the Postgres store disagree in two places. They count
"active" projects differently (only `in_progress` against `in_progress` or
`not_started`). Their dashboard figures also have different shapes. Both
variants are modelled side by side.

## Model

| member | source | states |
|---|---|---|
| Reports.GetDateRange | client/src/pages/reports/index.tsx:102-105 | the "custom" keyword yields exactly the two entered instants |
| Reports.ThisMonthRange | client/src/pages/reports/index.tsx:82-85 | "this-month" runs from the first instant of now's month to the last instant of that month |
| Reports.LastMonthRange | client/src/pages/reports/index.tsx:86-89 | "last-month" covers exactly the whole month before now's month |
| Reports.LastThreeMonthsRange | client/src/pages/reports/index.tsx:90-93 | "last-3-months" starts on the first of the month two months back and ends at the last instant of now's month |
| Reports.LastSixMonthsRange | client/src/pages/reports/index.tsx:94-97 | "last-6-months" starts on the first of the month five months back and ends at the last instant of now's month |
| Reports.ThisYearKeywordRange | client/src/pages/reports/index.tsx:98-101 | "this-year" is the as-written range: from January 1 of now's year to midnight at the start of December 31 (see Findings) |
| Reports.GetDateRangeDefault | client/src/pages/reports/index.tsx:106-108 | any unknown keyword gives the same range as "this-month" |
| Reports.MonthRange | client/src/pages/reports/index.tsx:83-84 | startOfMonth/endOfMonth: the start is a month start in a's month; the end lies in b's month and the next instant starts a month |
| Reports.ThisYear | client/src/pages/reports/index.tsx:99-100 | `new Date(y, 0, 1)` is January's first instant; `new Date(y, 11, 31)` is the start of the 31st day of December |
| Reports.YearBounds | client/src/pages/reports/index.tsx:99-100 | the two constructed dates of a year are January 1 00:00 and December 31 00:00 |
| Reports.ThisYearMissesDecember31 | client/src/pages/reports/index.tsx:99-100 | as written, some instant of the current year (later on December 31) lies outside the "this-year" range |
| Reports.ThisYearCorrected | client/src/pages/reports/index.tsx:99-100 | the corrected range starts on January 1 and ends at the last instant of December |
| Reports.ThisYearCorrectedCoversYear | client/src/pages/reports/index.tsx:99-100 | an instant lies in the corrected range exactly when it falls in now's year |
| Reports.RangeMonths | client/src/pages/reports/index.tsx:122-131 | the months the initialisation loop visits: none for an empty range, otherwise every month from start's to end's, consecutively |
| Reports.RangeMonthsCover | client/src/pages/reports/index.tsx:122-131 | every instant of the range falls in one of the visited months |
| Reports.RangeMonthsWitness | client/src/pages/reports/index.tsx:122-131 | every visited month contains an instant of the range (no month is visited that the range does not touch) |
| Reports.VisitMonths | client/src/pages/reports/index.tsx:122-131 | the `while (currentMonth <= end)` loop, stepping to the first of the next month, visits one key per month from start's month to end's month, in order |
| Reports.VisitMonthsIsRangeMonths | client/src/pages/reports/index.tsx:122-131 | the loop's keys are exactly RangeMonths |
| Reports.KeyedSeriesTotal | client/src/pages/reports/index.tsx:134-142 | a dense series whose row i sums the items keyed first + i adds up to the sum over all items, when every key falls within the series |
| Reports.InitRevenueMonths | client/src/pages/reports/index.tsx:122-131 | one zero-initialised revenue bucket, labelled "MMM yyyy", per visited month and no other key |
| Reports.AddIncome | client/src/pages/reports/index.tsx:134-142 | after the forEach, each bucket's income is the sum of the totals of the paid invoices issued in range in that month; no key is added |
| Reports.AddInvoiceIncome | client/src/pages/reports/index.tsx:135-141 | one forEach step keeps "every bucket holds the income of the invoices seen so far" |
| Reports.AddExpenses | client/src/pages/reports/index.tsx:145-147 | every bucket's expenses become 0.4 × its income; nothing else changes |
| Reports.GenerateRevenueData | client/src/pages/reports/index.tsx:115-150 | the method returns the revenue series RevenueData (empty while invoices are not loaded) |
| Reports.RevenueDataAt | client/src/pages/reports/index.tsx:122-149 | row t of the revenue series is month start+t, with that month's paid income and 0.4 of it as expenses (dense: months without invoices hold 0) |
| Reports.RevenueMatchesSummary | client/src/pages/reports/index.tsx:298-306 | the incomes of the revenue series add up to the summary's totalRevenue |
| Reports.RevenueExpenses | client/src/pages/reports/index.tsx:145-147 | every revenue row's expenses are 0.4 × its income |
| Reports.InitTimeMonths | client/src/pages/reports/index.tsx:229-238 | one zero-initialised hours bucket per visited month and no other key |
| Reports.AddHours | client/src/pages/reports/index.tsx:241-253 | each bucket's billable/nonBillable are the summed durations of the in-range entries with a truthy duration started that month, split by the billable flag |
| Reports.AddEntryHours | client/src/pages/reports/index.tsx:242-252 | one forEach step keeps "every bucket holds the hours of the entries seen so far" |
| Reports.GenerateTimeData | client/src/pages/reports/index.tsx:222-256 | the method returns the hours series TimeData (empty while entries are not loaded) |
| Reports.TimeDataAt | client/src/pages/reports/index.tsx:229-255 | row t of the hours series is month start+t with that month's billable and non-billable hours |
| Reports.TimeMatchesSummary | client/src/pages/reports/index.tsx:309-323 | the series' billable and nonBillable columns add up to the summary's billableHours and nonBillableHours |
| Reports.TimeRowSplit | client/src/pages/reports/index.tsx:241-253 | in every bucket billable + nonBillable equals the summed durations of the in-range entries with a truthy duration started that month |
| Reports.CalculateSummaryStats | client/src/pages/reports/index.tsx:294-347 | totalRevenue sums paid in-range invoice totals; billable/non-billable hours sum in-range truthy durations; activeProjects counts "in_progress" only; activeClients is the number of distinct clients invoiced in range, any status |
| Reports.SumTrackedHours | client/src/pages/reports/index.tsx:309-323 | the two mutable counters end as the sums of the billable and the non-billable tracked durations |
| Reports.CollectActiveClients | client/src/pages/reports/index.tsx:331-339 | the Set ends as the client ids of the invoices issued in range, whatever their status |
| Reports.ActiveClientsAtMostInvoices | client/src/pages/reports/index.tsx:331-339 | there are never more active clients than invoices issued in range |
| ReportRollups.InitProjectStats | client/src/pages/reports/index.tsx:160-166 | one zeroed row per project id, named after the last project with that id |
| ReportRollups.AddProjectHours | client/src/pages/reports/index.tsx:169-180 | each project's hours sum the in-range entries on it with a truthy duration; value sums 50 × duration over the billable ones; no key is added |
| ReportRollups.GenerateProjectData | client/src/pages/reports/index.tsx:153-186 | the method returns ProjectData: the rows in ascending id order, those without hours dropped, stably sorted by hours descending |
| ReportRollups.ProjectDataDescending | client/src/pages/reports/index.tsx:183-185 | project rows come out in non-increasing order of hours |
| ReportRollups.ProjectDataRows | client/src/pages/reports/index.tsx:183-184 | a row is listed exactly when it is a project row with positive hours |
| ReportRollups.ProjectDataTies | client/src/pages/reports/index.tsx:183-185 | rows with equal hours keep the ascending-id order of `Object.values` (stable sort) |
| ReportRollups.ProjectValueRate | client/src/pages/reports/index.tsx:174-177 | a project's value is 50 × its billable hours in range |
| ReportRollups.ProjectDataConserves | client/src/pages/reports/index.tsx:153-186 | when logged durations are not negative, the project rows' hours sum to the hours of the entries logged in range against a listed project's id; entries on other ids are dropped |
| ReportRollups.InitClientStats | client/src/pages/reports/index.tsx:196-202 | one zeroed row per client id |
| ReportRollups.AddClientRevenue | client/src/pages/reports/index.tsx:205-213 | each client's revenue sums the totals of its paid invoices issued in range, and its value equals its revenue; no key is added |
| ReportRollups.GenerateClientData | client/src/pages/reports/index.tsx:189-219 | the method returns ClientData: rows in ascending id order, those without revenue dropped, stably sorted by revenue descending |
| ReportRollups.ClientDataDescending | client/src/pages/reports/index.tsx:216-218 | client rows come out in non-increasing order of revenue |
| ReportRollups.ClientDataRows | client/src/pages/reports/index.tsx:205-218 | a row is listed exactly when it is a client row with positive revenue, and its value equals its revenue |
| ReportRollups.ClientDataTies | client/src/pages/reports/index.tsx:216-218 | rows with equal revenue keep the ascending-id order |
| ReportRollups.ClientDataConserves | client/src/pages/reports/index.tsx:189-218 | when paid in-range totals are not negative, the client rows' revenue sums to the totals of the invoices paid in range and billed to a listed client's id; invoices of other ids are dropped |
| ReportRollups.KeyedGroupTotal | client/src/pages/reports/index.tsx:170-180 | one row per distinct id, each the sum over that id's items, adds up to the sum over the items of any listed id |
| ReportRollups.DropZeroRowsKeepsSum | client/src/pages/reports/index.tsx:182-185 | dropping the zero rows of non-negative rows and sorting the rest keeps their sum |
| ReportRollups.GetReportData | client/src/pages/reports/index.tsx:259-272 | the report type selects the matching series; any other type gives no data |
| Storage.ValuesBelowMembers | server/storage.ts:245-248 | `Array.from(map.values())` lists exactly the stored rows |
| Storage.ValuesBelowCount | server/storage.ts:245-248 | the listing has one row per stored id |
| Storage.ValuesBelowFilterCount | server/storage.ts:433-437 | a filtered listing has one row per stored row that passes the filter |
| Storage.ListedIds | server/storage.ts:414-417 | the ids collected by the cascade are exactly the keys of the stored items that match |
| Storage.RemoveId | server/storage.ts:241-243 | `Map.delete` removes the one key equal to the id and keeps every other row |
| Storage.DeleteEach | server/storage.ts:419 | the `forEach` of deletes removes exactly the listed ids and keeps the other rows unchanged |
| Storage.CascadeKeeps | server/storage.ts:414-421 | after the cascade, an item remains exactly when it does not belong to the invoice; the table stays well-formed |
| Storage.ValuesBelowSnoc | server/storage.ts:198-203 | storing a row under the next id appends it at the end of the listing |
| Storage.Stamp | server/storage.ts:198-203 | a created row gets its id, and a createdAt stamp on every table but invoice items |
| Storage.EmptyTables | server/storage.ts:146-155 | the constructor's ten maps start empty |
| Storage.FirstIds | server/storage.ts:157-166 | the ten counters start at 1 |
| Storage.DueOrderTop | server/storage.ts:333-342 | a dated task cut off by the limit is due no earlier than every task kept |
| Storage.DueOrderPermutes | server/storage.ts:335-340 | the due-date sort neither loses nor adds tasks |
| Storage.DueOrderSorted | server/storage.ts:335-340 | after the sort, dated tasks come first ascending by due date, then the undated ones |
| Storage.NewInvoiceNoRevenue | server/storage.ts:604-608 | a freshly created invoice, with no paidAt, leaves the month's revenue unchanged |
| Storage.MemStorage.constructor | server/storage.ts:144-178 | every counter is 1 except users at 2, and the only row is the admin user, stored under id 1 |
| Storage.MemStorage.ValuesMembers | server/storage.ts:245-248 | a table's listing holds exactly its stored rows |
| Storage.MemStorage.ValuesCount | server/storage.ts:245-248 | a table's listing has as many rows as the table |
| Storage.MemStorage.Lookup | server/storage.ts:182-184 | `get(id)` finds a row exactly when the id is stored, and the row carries that id |
| Storage.MemStorage.Create | server/storage.ts:198-203 | create stores the spread row under the current counter, which is above every stored id, and increments that counter only; the new row is listed last |
| Storage.MemStorage.Update | server/storage.ts:206-213 | an absent id returns undefined and changes nothing; a present one stores and returns the stored row overridden by the patch, every other table and the counters unchanged |
| Storage.MemStorage.Delete | server/storage.ts:241-243 | the plain delete of a client, project, task, time entry, invoice item, contract or event answers whether the id was present and removes it; nothing else changes (invoices cascade through DeleteInvoice) |
| Storage.MemStorage.DeleteInvoice | server/storage.ts:414-421 | every item of the invoice is removed, even when the invoice is absent; other items and other tables are untouched; the answer says whether the invoice was present |
| Storage.ValuesBelowFirst | server/storage.ts:186-196 | the first listed row meeting a condition is the stored row with the smallest id meeting it |
| Storage.MemStorage.FindUser | server/storage.ts:186-196 | `find` by username or email returns the stored user with that value and the smallest id, or undefined when none has it |
| Storage.MemStorage.ListWhereMembers | server/storage.ts:279-283 | a `filter` listing holds exactly the stored rows with the field value |
| Storage.MemStorage.CountWhere | server/storage.ts:433-437 | the listing by a field value has one row per stored row with that value |
| Storage.MemStorage.ListActiveProjects | server/storage.ts:285-289 | every listed project is stored and "in_progress" |
| Storage.MemStorage.ActiveProjectsExactly | server/storage.ts:285-289 | a project is listed exactly when it is stored and "in_progress" |
| Storage.MemStorage.InvoiceWithItems | server/storage.ts:439-446 | defined exactly when the invoice is stored, with that invoice and exactly the stored items that belong to it, one per stored item |
| Storage.MemStorage.UpcomingTasksShape | server/storage.ts:333-342 | at most `limit` tasks (exactly min(limit, n)), all assigned to the user and not completed, dated ones first, ascending by due date |
| Storage.MemStorage.UpcomingTasksEarliest | server/storage.ts:333-342 | no dated open task left out is due before one kept |
| Storage.MemStorage.UpcomingEventsShape | server/storage.ts:556-563 | at most `limit` events, all starting after now, ascending by start |
| Storage.MemStorage.UpcomingEventsEarliest | server/storage.ts:556-563 | no later event left out starts before one kept |
| Storage.MemStorage.ActivitiesNewestFirst | server/storage.ts:577-581 | min(limit, n) stored activities, newest first |
| Storage.MemStorage.ActivitiesLatest | server/storage.ts:577-581 | no activity left out is newer than one kept |
| Storage.MemStorage.ActivitiesByUserShape | server/storage.ts:583-589 | min(limit, n) of the user's n activities, only theirs, newest first |
| Storage.MemStorage.ActivitiesByUserLatest | server/storage.ts:583-589 | an activity of the user left out is no newer than every listed one |
| Storage.MemStorage.GetDashboardStats | server/storage.ts:591-616 | clientCount counts the clients, activeProjectCount the stored projects "in_progress", pendingInvoiceCount the stored invoices "sent" |
| Storage.MemStorage.RevenuePaidThisMonth | server/storage.ts:601-608 | revenue adds the paid amount, missing as 0, of every stored invoice that is paid with a paidAt on or after the first of now's month, and of nothing else |
| DbStorage.FillFalsyGet | server/dbStorage.ts:133-141 | the falsy-default rule: a truthy inserted field is kept, a falsy one takes the default, a field without a default is untouched |
| DbStorage.NewUserDefaults | server/dbStorage.ts:85-92 | createUser: falsy role becomes "user", language "ro", phone null; other fields kept |
| DbStorage.NewProjectDefaults | server/dbStorage.ts:194-205 | createProject: falsy status becomes "not_started", progress 0, and completedAt is always null |
| DbStorage.NewTaskDefaults | server/dbStorage.ts:282-292 | createTask: falsy status becomes "todo", priority "medium", completedAt always null |
| DbStorage.NewTimeEntryDefaults | server/dbStorage.ts:383-394 | createTimeEntry: billable defaults to true only when undefined (false is kept); a falsy duration or endTime (so a duration of 0) is stored as null |
| DbStorage.NewInvoiceDefaults | server/dbStorage.ts:472-483 | createInvoice: falsy status becomes "draft"; paidAt and paidAmount are always null |
| DbStorage.NewContractDefaults | server/dbStorage.ts:638-651 | createContract: status "draft", both signature flags false when falsy, signedAt always null |
| DbStorage.UpdateInvoicePatchRule | server/dbStorage.ts:491-504 | a "paid" patch on a stored invoice without paidAt gains paidAt = now and paidAmount = the stored total; any other patch is written unchanged; no other column changes |
| DbStorage.PaidInvoiceHasDate | server/dbStorage.ts:491-504 | after a "paid" update the invoice has a payment date, from the patch or already stored |
| DbStorage.UpdateContractNeedsBoth | server/dbStorage.ts:659-670 | signedAt is added exactly when the patch says "signed", carries both signature flags, and the stored contract has no signedAt; nothing else changes |
| DbStorage.ActiveProjectsDiverge | server/dbStorage.ts:254-264 | this storage's active count is the in-progress count plus the not-started count, unlike the in-memory one |
| DbStorage.GetDashboardStats | server/dbStorage.ts:864-929 | a failed query gives all six figures 0; otherwise each count is the number of rows meeting its condition (active project, pending task of the user, draft, overdue at now), clientCount counts every client, and totalEarnings sums the paid amount of every paid invoice |
| DbStorage.OverdueGrowsWithTime | server/dbStorage.ts:892-898 | overdue invoices are sent ones due by now: the count never shrinks as now advances and never exceeds the sent invoices |
| DbStorage.EarningsArePaidAmounts | server/dbStorage.ts:898-902 | totalEarnings adds the paid amount (missing counts 0) of every paid invoice and of nothing else |
| Routes.PostTimeEntryDuration | server/routes.ts:500-506 | with an end time the duration is (end − start) in hours, overwriting any sent one, and nothing else changes; without one the body is kept |
| Routes.PutTimeEntryStart | server/routes.ts:533-541 | a missing entry gets no duration; an existing one with an end time gets the hours from the patch start, or the stored start, to the end |
| Routes.PutTaskCompletion | server/routes.ts:398-402 | completedAt is added exactly when the stored task exists, has none, and the patch status is "completed"; nothing else changes, and it is never cleared |
| Routes.PutInvoicePaidAt | server/routes.ts:655-659 | a "paid" patch always carries a truthy paidAt; any other patch is unchanged |
| Routes.LiveMarkPaid | server/routes.ts:655-662 | composed with the live storage's rewrite, marking an unpaid invoice paid stores paidAt = now and paidAmount = the stored total |
| Routes.SignsNowMeaning | server/routes.ts:776-781 | the signing condition holds exactly when not yet signed, both parties have signed counting patch and stored flags, and the patch signs for at least one |
| Routes.PutContractSigning | server/routes.ts:776-786 | when the condition holds the patch gains signedAt = now and status "signed", overriding any patch status; otherwise it is unchanged |
| Routes.SigningRulesDiffer | server/routes.ts:776-790 | a patch the route accepts for signing can still get no signedAt from the live storage's own rule |
| Routes.PostUser | server/routes.ts:57-79 | an invalid body gives 400; a taken username gives 400 before the email is checked; a taken email gives 400; only when both are free is the user created, under the next id, and the users counter advances by one; a 400 changes nothing |
| Routes.PostEntity | server/routes.ts:121-143 | an invalid body gives 400 with no write; otherwise the row (a time entry with its derived duration) is created under the next id and a "create" activity is logged, advancing those two counters by one each and no other |
| Routes.PutData | server/routes.ts:398-402 | a handler's rewrite adds at most duration, completedAt, paidAt, signedAt and status to the patch |
| Routes.PutEntity | server/routes.ts:390-422 | an invalid body gives 400 with no write; a missing id gives 404 with no write; otherwise the stored row is merged with the rewritten patch and, except for time entries, an "update" activity is logged; only the activities counter can advance |
| Routes.EntriesWhere | server/storage.ts:374-390 | the listing by a property holds exactly the stored time entries whose property is that id |
| Routes.CreateLogged | server/routes.ts:128-137 | the row is stored under the next id and a "create" activity under the next activity id; those two counters advance by one and nothing else changes |
| Routes.InvoicePatch | shared/schema.ts:193-197 | a parsed invoice patch never carries id, createdAt or paidAt; every other property passes through |
| Routes.ParsedPaidAtIsServerTime | server/routes.ts:650-659 | after parsing, a patch marking an invoice paid is always stamped with the server's time, whatever date the request carried |
| Routes.UpdateLogged | server/routes.ts:661-673 | a missing id changes nothing; otherwise the row becomes the merge of the stored row and the patch and, except for time entries, an "update" activity is stored under the next activity id, advancing only that counter |
| Routes.GetTimeEntries | server/routes.ts:459-478 | a truthy userId wins, then projectId, then taskId, and the listing holds exactly the stored entries with that id; with none the whole table is listed |
| Routes.UserFilterWins | server/routes.ts:459-467 | with a truthy userId the other query parameters make no difference |
| TimeTracker.PadIntNat | client/src/pages/time-tracker/index.tsx:228 | `String(n).padStart(2, '0')` of a whole non-negative number is its decimal digits padded to two |
| TimeTracker.ClockArithmetic | client/src/pages/time-tracker/index.tsx:224-226 | the minutes field is below 60 and hours, minutes and seconds recompose the count: 3600·H + 60·M + S = s |
| TimeTracker.FormatDurationNat | client/src/pages/time-tracker/index.tsx:223-229 | for s ≥ 0, formatDuration is the three padded fields joined by ":" |
| TimeTracker.ClockSplit | client/src/pages/time-tracker/index.tsx:228 | three digit strings joined by ":" split back into exactly those three |
| TimeTracker.FormatDurationFields | client/src/pages/time-tracker/index.tsx:223-229 | the text reads back as three fields of at least two digits, M and S below 60, and 3600·H + 60·M + S = s |
| TimeTracker.FloorOfQuotient | client/src/pages/time-tracker/index.tsx:235 | `Math.floor(s / d)` on whole numbers is integer division |
| TimeTracker.RealRemWhole | client/src/pages/time-tracker/index.tsx:236 | JavaScript's `%` on whole non-negative numbers is the integer remainder |
| TimeTracker.DisplayOfWhole | client/src/pages/time-tracker/index.tsx:232-239 | for a whole positive count the display is the padded hours and minutes |
| TimeTracker.DisplayDropsSeconds | client/src/pages/time-tracker/index.tsx:223-239 | for s > 0 the clock text is the table display followed by ":" and the seconds field: the display drops only the seconds |
| TimeTracker.DisplayOfNothing | client/src/pages/time-tracker/index.tsx:233 | null and 0 both display as "00:00" |
| TimeTracker.ManualDuration | client/src/pages/time-tracker/index.tsx:338-341 | differenceInSeconds(end, start)/3600: non-negative when end ≥ start, and negative when end is a second or more before start (nothing rejects it) |
| TimeTracker.ManualDurationSeconds | client/src/pages/time-tracker/index.tsx:338-341 | a span of n whole seconds gives a duration of n/3600 hours |
| TimeTracker.TotalIgnoresOpenEntries | client/src/pages/time-tracker/index.tsx:467-478 | calculateTotalHours counts only entries with a truthy duration: dropping the others changes nothing |
| TimeTracker.FilterIgnoresSearch | client/src/pages/time-tracker/index.tsx:173-187 | an entry is listed exactly when it is an entry and the tab keeps it: the running tab keeps open entries whatever the date; the other tabs apply the date filter, and the billable tabs split on the flag |
| TimeTracker.SearchNeverNarrows | client/src/pages/time-tracker/index.tsx:174 | the always-true disjunct makes the search text irrelevant: any two queries list the same entries |
| TimeTracker.BillableTabsSplit | client/src/pages/time-tracker/index.tsx:181-183 | the billable and non-billable tabs together list as many entries as "all" |
| TimeTracker.OpenEntry | client/src/pages/time-tracker/index.tsx:108 | `find`: the first entry with no end time belonging to the user, or none when no entry is both |
| TimeTracker.IdOrUndefined | client/src/pages/time-tracker/index.tsx:115-116 | the or-undefined fallback: a 0 or missing id becomes undefined, any other is kept |
| TimeTracker.Timer.constructor | client/src/pages/time-tracker/index.tsx:78-87 | the timer starts stopped, at 0 seconds, with no active entry, empty description and billable on |
| TimeTracker.Timer.StartTimer | client/src/pages/time-tracker/index.tsx:253-288 | the request carries the user, the form fields and now; a failed request changes nothing; on success the timer runs from 0 with the created entry active and ticks |
| TimeTracker.Timer.Tick | client/src/pages/time-tracker/index.tsx:247-249 | each tick raises elapsed by exactly 1 while the interval runs, and changes nothing else |
| TimeTracker.Timer.StopTimer | client/src/pages/time-tracker/index.tsx:291-331 | with no active entry nothing is sent or changed; otherwise the request sends duration = elapsed/3600; a failure changes nothing; success stops the timer, resets elapsed to 0, clears the entry and the interval |
| TimeTracker.Timer.Resume | client/src/pages/time-tracker/index.tsx:106-129 | with an open entry of the user, the timer runs with the first such entry (OpenEntry), elapsed = whole seconds from its start to now, and the form takes its fields; otherwise nothing changes |
| TimeTracker.StartTickStop | client/src/pages/time-tracker/index.tsx:247-316 | starting, ticking n times and stopping sends a duration of n/3600 hours for the created entry and leaves the timer reset |
| InvoicesPage.NumberOrZero | client/src/pages/invoices/index.tsx:127-129 | the parse-or-zero fallback: a parsed number is kept and an unparsable or empty input gives 0 |
| InvoicesPage.TotalOfMeaning | client/src/pages/invoices/index.tsx:131 | with no tax or discount the total is the subtotal; a non-negative tax never lowers it; the discount comes off whole |
| InvoicesPage.InvoiceForm.constructor | client/src/pages/invoices/index.tsx:115-118 | the form starts with subtotal, tax, discount and total all 0, consistent with the formula |
| InvoicesPage.InvoiceForm.UpdateTotal | client/src/pages/invoices/index.tsx:126-133 | updateTotal makes the total agree with subtotal + subtotal·tax/100 − discount, leaving the three inputs alone |
| InvoicesPage.InvoiceForm.ChangeSubtotal | client/src/pages/invoices/index.tsx:485-486 | a new subtotal (unparsable read as 0) is stored and the total recomputed; tax and discount are kept |
| InvoicesPage.InvoiceForm.ChangeTax | client/src/pages/invoices/index.tsx:510-511 | a new tax is stored and the total recomputed; subtotal and discount are kept |
| InvoicesPage.InvoiceForm.ChangeDiscount | client/src/pages/invoices/index.tsx:536-537 | a new discount is stored and the total recomputed; subtotal and tax are kept |
| InvoicesPage.DiscountBound | client/src/pages/invoices/index.tsx:56-67 | with the computed total and otherwise valid fields, the schema accepts the form exactly when the discount does not exceed the taxed subtotal |
| InvoicesPage.DefaultInvoiceNumberShape | client/src/pages/invoices/index.tsx:110 | the default number is "INV-", the year, "-", then two digits of month and two of day reading back as now's month and day, then "-" |
| InvoicesPage.NewInvoiceDefaults | client/src/pages/invoices/index.tsx:109-122 | the due date is exactly 14 days after the issue date; a draft whose total agrees with its fields; created by the current user |
| InvoicesPage.InvoicesListed | client/src/pages/invoices/index.tsx:94-104 | an invoice is listed exactly when its number contains the search ignoring case and, on a status tab, it has that status |
| InvoicesPage.StatusTabNarrowsAll | client/src/pages/invoices/index.tsx:94-104 | a status tab lists the "all" tab's matches of that status, in the same order |
| InvoicesPage.MarkPaidPayload | client/src/pages/invoices/index.tsx:209-215 | mark-as-paid sends status "paid" and paidAmount equal to the invoice total |
| InvoicesPage.InvoiceLifecycle | client/src/pages/invoices/index.tsx:347-361 | the offered actions move draft to sent and sent to paid only; a paid invoice offers nothing and cannot be deleted; a payable one can be deleted but not sent |
| InvoicesPage.MarkPaidThroughServer | client/src/pages/invoices/index.tsx:209-215 | parsing drops the page's paidAt, so the route stamps the server's time and keeps the page's amount; the live storage then stamps the server's time and the stored total |
| ContractsPage.ContractsListed | client/src/pages/contracts/index.tsx:102-112 | a contract is listed exactly when its title contains the search ignoring case and, on a status tab, it has that status |
| ContractsPage.CanceledOnlyUnderAll | client/src/pages/contracts/index.tsx:102-112 | a canceled contract appears under no status tab |
| ContractsPage.SignPayload | client/src/pages/contracts/index.tsx:304-308 | signing sends signedByMe = true and nothing else |
| ContractsPage.SendPayload | client/src/pages/contracts/index.tsx:281-285 | sending sends only the status "sent" |
| ContractsPage.ContractActions | client/src/pages/contracts/index.tsx:414-428 | a signed contract offers no send, sign or delete; a canceled or expired one offers only delete; whatever can be sent can be deleted |
| ContractsPage.SignFromPage | client/src/pages/contracts/index.tsx:304-308 | signing from the page completes the contract on the server exactly when the client had signed and no date is stored; then the status becomes "signed" |
| ContractsPage.FlagOrFalse | client/src/pages/contracts/index.tsx:66-67 | an absent signature flag reads as false |
| ContractsPage.AddFormDefaults | client/src/pages/contracts/index.tsx:117-129 | the add dialog starts as an empty unsigned draft created by the signed-in user, which the schema rejects |
| ContractsPage.DefaultsNeedTitleClientAndUser | client/src/pages/contracts/index.tsx:58-68 | from the defaults, a title and a client make the form valid exactly when a user is signed in, since the insert schema requires createdBy |
| ContractsPage.EditFormValues | client/src/pages/contracts/index.tsx:225-240 | a falsy project or value becomes undefined, null terms become "", and title, client, status, flags and creator are copied |
| ContractsPage.EditFormOfStored | client/src/pages/contracts/index.tsx:58-68 | a stored contract reopened for editing passes the schema exactly when its title is non-empty and a truthy value is not negative |
| SettingsPage.ProfileDefaults | client/src/pages/settings/index.tsx:71-79 | with no user every field starts empty; with a user the names and email are the user's |
| SettingsPage.OwnProfileOk | client/src/pages/settings/index.tsx:35-40 | the user's own profile passes the profile schema exactly when both names are non-empty and the email is valid |
| SettingsPage.PasswordIssues | client/src/pages/settings/index.tsx:43-50 | no issue exactly when the current password is given, the new one has at least 8 characters and the confirmation equals it; the mismatch issue sits on confirmPassword exactly when they differ |
| SettingsPage.ValidPasswordLength | client/src/pages/settings/index.tsx:43-50 | an accepted confirmation has at least 8 characters too |
| SettingsPage.NotificationValues | client/src/pages/settings/index.tsx:53-58 | each absent switch defaults to on; only an explicit false turns it off |
| SettingsPage.NotificationDefaults | client/src/pages/settings/index.tsx:92-100 | all four notification switches start on |
| SettingsPage.Settings.constructor | client/src/pages/settings/index.tsx:82-89 | the password form starts empty and no request has been sent |
| SettingsPage.Settings.HandleProfileUpdate | client/src/pages/settings/index.tsx:103-125 | with no user nothing happens; otherwise one PUT of the data to the user's own id, and the signed-in user is replaced by the reply only on success |
| SettingsPage.Settings.HandlePasswordUpdate | client/src/pages/settings/index.tsx:128-152 | with no user nothing happens; otherwise one change-password request with the current and new password, and the form is cleared only on success |
| SettingsPage.Settings.HandleNotificationUpdate | client/src/pages/settings/index.tsx:155-174 | saving notification preferences sends nothing and changes neither the user nor the password form |
| SettingsPage.Settings.HandleLanguageChange | client/src/pages/settings/index.tsx:177-199 | with a user, one PUT of the language; the interface language switches only when it succeeds |
| AuthPage.ParseRegister | client/src/pages/auth-page.tsx:32-40 | the register schema accepts exactly the stated minimum lengths, a valid email and a language of ro, en or none; an absent language becomes ro and every other field is kept |
| AuthPage.RegisterDefaults | client/src/pages/auth-page.tsx:57-68 | the register form starts empty with language ro |
| AuthPage.RegisterDefaultsLanguage | client/src/pages/auth-page.tsx:57-68 | the empty register form is rejected, and a form keeping the default language registers in Romanian |
| AuthPage.OnLoginSubmit | client/src/pages/auth-page.tsx:70-72 | login submits exactly the values the login schema accepts, unchanged |
| AuthPage.RegisteredCanLogIn | client/src/pages/auth-page.tsx:27-40 | any credentials the register schema accepts also pass the login schema |
| AuthPage.Page | client/src/pages/auth-page.tsx:78-81 | a signed-in user is redirected to the root and only a signed-out visitor sees the forms |
| ClientsPage.ClientsListed | client/src/pages/clients/index.tsx:77-81 | a client is listed exactly when the search, ignoring case, occurs in its name, its email or its contact person if it has one |
| ClientsPage.EmptySearchKeepsAll | client/src/pages/clients/index.tsx:77-81 | an empty search lists every client in order |
| ClientsPage.OrEmpty | client/src/pages/clients/index.tsx:195-200 | the `or ""` fallback keeps a non-empty text and turns an absent or empty one into "" |
| ClientsPage.EditFormValues | client/src/pages/clients/index.tsx:190-202 | the edit dialog copies name, email and creator and fills every optional field with its text or "" |
| ClientsPage.EditFormOfStored | client/src/pages/clients/index.tsx:48-56 | a stored client reopened for editing passes the schema exactly when its email is valid |
| ClientsPage.AddFormDefaults | client/src/pages/clients/index.tsx:84-97 | the add dialog starts empty, created by the current user |
| TasksPage.GetFilteredTasks | client/src/pages/tasks/index.tsx:84-91 | no task list gives an empty list |
| TasksPage.AllPrioritiesKeepList | client/src/pages/tasks/index.tsx:84-91 | the "all" filter keeps the whole list in order |
| TasksPage.PriorityFilterMembers | client/src/pages/tasks/index.tsx:84-91 | any other filter keeps exactly the tasks whose priority has that name |
| TasksPage.CompletedTabMembers | client/src/pages/tasks/index.tsx:212 | the completed tab shows exactly the loaded tasks whose status is completed |
| TasksPage.AddFormDefaults | client/src/pages/tasks/index.tsx:94-107 | a new task starts as a medium-priority to-do with no project, date or estimate, assigned to and created by the current user |
| TasksPage.DefaultsNeedTitleAndUser | client/src/pages/tasks/index.tsx:41-47 | the defaults are rejected; with a title they pass exactly when someone is signed in |
| TasksPage.AddTaskRequest | client/src/pages/tasks/index.tsx:110-115 | the request is the form's data with createdBy overwritten by the current user and nothing else changed |
| ProjectStatusCard.ProjectsListed | client/src/components/projects/ProjectStatus.tsx:19-25 | a project is listed exactly when it is in the list and, under "active", in progress or, under "completed", completed |
| ProjectStatusCard.OtherFiltersKeepAll | client/src/components/projects/ProjectStatus.tsx:19-26 | any filter other than active or completed keeps every project, then applies the limit |
| ProjectStatusCard.LimitKeepsPrefix | client/src/components/projects/ProjectStatus.tsx:26 | a limit keeps the first n filtered projects, or all of them when fewer |
| ProjectStatusCard.GetClientName | client/src/components/projects/ProjectStatus.tsx:28-31 | the name of the first client with that id, or "Unknown Client" when none has it |
| ProjectStatusCard.FirstLettersOfWords | client/src/components/projects/ProjectStatus.tsx:34-37 | joining the words' first characters gives one character per non-empty word, in order |
| ProjectStatusCard.InitialsOfWords | client/src/components/projects/ProjectStatus.tsx:33-40 | the initials are the upper-cased first letters of the first two non-empty words of the name, fewer when there are fewer words |
| ProjectStatusCard.InitialBackgroundColor | client/src/components/projects/ProjectStatus.tsx:42-54 | a non-negative id picks colour id mod 7; a negative id indexes past the array (no colour) unless its truncated remainder is 0 |
| ProjectStatusCard.SameColor | client/src/components/projects/ProjectStatus.tsx:53 | two non-negative ids share a colour exactly when they agree mod 7 |
| TaskListCard.ShownTasks | client/src/components/tasks/TaskList.tsx:36 | no limit or 0 shows every task; a positive limit shows that many from the front; a negative one drops that many from the end |
| TaskListCard.DueLabelByDay | client/src/components/tasks/TaskList.tsx:51-63 | the due label is "No due date" without a date and otherwise today, tomorrow, overdue or a later date, each exactly for its calendar day relative to now |
| TaskListCard.TogglePayload | client/src/components/tasks/TaskList.tsx:65-69 | the toggle sends only a status, completed when checked and todo otherwise |
| TaskListCard.ToggleOnServer | client/src/components/tasks/TaskList.tsx:65-69 | on the server a completion time is added exactly when the task is checked and had none; unchecking is passed through unchanged |
| TaskListCard.PriorityClass | client/src/components/tasks/TaskList.tsx:38-49 | any priority other than high, medium or low gets the gray class |
| TaskListCard.PriorityClassesDistinct | client/src/components/tasks/TaskList.tsx:38-49 | the three known priorities get three different classes, none of them the gray fallback |
| RecentActivityCard.ShownActivities | client/src/components/activities/RecentActivity.tsx:19-20 | the default limit shows the first three; a limit of 0 shows all; a positive one shows that many |
| RecentActivityCard.ActivityTitle | client/src/components/activities/RecentActivity.tsx:69-86 | a known type gives its label, " #" and the id; any other type is shown as written |
| RecentActivityCard.TitleNamesEntity | client/src/components/activities/RecentActivity.tsx:69-86 | for one entity type, two titles are equal exactly when the ids are |
| RecentActivityCard.ActivityLink | client/src/components/activities/RecentActivity.tsx:88-105 | an unknown type links to "#"; a known one links to a path starting with "/" and ending with the id |
| RecentActivityCard.RouteKey | client/src/components/activities/RecentActivity.tsx:88-105 | two known types never share a route |
| RecentActivityCard.LinksIdentifyEntity | client/src/components/activities/RecentActivity.tsx:88-105 | two known activities with the same link refer to the same entity type and id |
| RecentActivityCard.ActivityIcon | client/src/components/activities/RecentActivity.tsx:22-67 | an unknown type gets the gray file icon and every known type a coloured one |
| DashboardLayout.PageTitle | client/src/components/layouts/DashboardLayout.tsx:20-24 | the root path is "Dashboard"; any other path drops its first character and capitalises the next |
| DashboardLayout.PageTitleRoundTrip | client/src/components/layouts/DashboardLayout.tsx:20-24 | for a path starting with "/" and a letter that is not upper-case, lower-casing the title's first letter and prefixing "/" gives the path back |
| DashboardLayout.Layout | client/src/components/layouts/DashboardLayout.tsx:15-17 | nothing is shown without a user; with one the page title is shown |
| CalendarPage.EventsForDay | client/src/pages/calendar/index.tsx:165-172 | with no events loaded a day has none |
| CalendarPage.EventsForDayMembers | client/src/pages/calendar/index.tsx:165-172 | a day lists exactly the events that start on that calendar day |
| CalendarPage.EventInOneCell | client/src/pages/calendar/index.tsx:165-172 | an event listed under two days means the two are the same day |
| CalendarPage.DayCell | client/src/pages/calendar/index.tsx:280-296 | a cell lists a prefix of at most three events and a "more" count exactly when there are more than three, accounting for every event |
| CalendarPage.DefaultTimes | client/src/pages/calendar/index.tsx:84-102 | the new event starts at 09:00 and ends at 10:00 on the selected day, or today when none is selected |
| CalendarPage.EndBeforeStartAccepted | client/src/pages/calendar/index.tsx:41-49 | the schema accepts an event whose end is before its start |
| CalendarPage.AddEventRequest | client/src/pages/calendar/index.tsx:105-110 | the request is the form's data with createdBy overwritten by the current user and nothing else changed |
| CalendarPage.FormatEventTime | client/src/pages/calendar/index.tsx:189-198 | an all-day event shows "All day"; any other shows its own start and end |
| CalendarPage.GetClientName | client/src/pages/calendar/index.tsx:175-179 | no name without a truthy id; otherwise the first matching client's name, or "Unknown Client" |
| CalendarPage.GetProjectName | client/src/pages/calendar/index.tsx:182-186 | no name without a truthy id; "Unknown Project" when no project matches; otherwise the name of the first matching project |
| CalendarPage.CalendarView.constructor | client/src/pages/calendar/index.tsx:57-58 | the view starts on the current month with no day selected |
| CalendarPage.CalendarView.PrevMonth | client/src/pages/calendar/index.tsx:155 | the displayed month moves back by one; the selection is kept |
| CalendarPage.CalendarView.NextMonth | client/src/pages/calendar/index.tsx:156 | the displayed month moves forward by one; the selection is kept |
| CalendarPage.CalendarView.GoToToday | client/src/pages/calendar/index.tsx:157 | the displayed month becomes the current one; the selection is kept |
| CalendarPage.CalendarView.OpenAddEventDialog | client/src/pages/calendar/index.tsx:201-204 | the clicked day becomes the selection; the displayed month is kept |
| CalendarPage.NextThenPrev | client/src/pages/calendar/index.tsx:155-156 | next then previous shows the month it started on |
| I18n.KeysOf | client/src/lib/i18n.ts:7-264 | the key list of a table, one key per entry in order |
| I18n.TableOfKeys | client/src/lib/i18n.ts:7-264 | a table's keys are its entries' keys, and every looked-up text is one of its entries |
| I18n.Translations | client/src/lib/i18n.ts:273-275 | a table exists exactly for "en" and "ro" |
| I18n.Translate | client/src/lib/i18n.ts:272-278 | the key itself for an unknown language or a missing key; the table's text when it is non-empty |
| I18n.SameKeyLists | client/src/lib/i18n.ts:7-264 | the English and Romanian tables list the same keys in the same order |
| I18n.NoEmptyEnglish | client/src/lib/i18n.ts:8-135 | no English text is empty |
| I18n.NoEmptyRomanian | client/src/lib/i18n.ts:136-263 | no Romanian text is empty |
| I18n.FallbackDependsOnKey | client/src/lib/i18n.ts:272-278 | in either language, t falls back to the key exactly for the keys missing from the English table |
| I18n.Translator.constructor | client/src/lib/i18n.ts:266 | the language starts as English |
| I18n.Translator.T | client/src/lib/i18n.ts:272-278 | the key when it falls back, the current table's text otherwise |
| I18n.Translator.SetLanguage | client/src/lib/i18n.ts:268-270 | the current language becomes the one given |
| I18n.Translator.InitializeLanguage | client/src/lib/i18n.ts:281-294 | the language becomes the one initializeLanguage settles on |
| I18n.ChosenLanguage | client/src/lib/i18n.ts:281-294 | a user preference of en or ro wins; otherwise Romanian exactly when the browser language starts with "ro", English for anything else |
| Text.ToLower | client/src/pages/invoices/index.tsx:95 | lower-casing keeps the length and maps every character |
| Text.ToUpper | client/src/components/projects/ProjectStatus.tsx:38 | upper-casing keeps the length and maps every character |
| Text.ContainsSlice | client/src/pages/invoices/index.tsx:95 | every slice of a text is contained in it |
| Text.NatToString | client/src/components/activities/RecentActivity.tsx:72 | a number prints as at least one digit, with no leading zero |
| Text.ParseNatToString | client/src/components/activities/RecentActivity.tsx:72 | reading a printed number back gives the number |
| Text.IntToString | client/src/components/activities/RecentActivity.tsx:72 | a negative number prints as "-" and its magnitude |
| Text.IntToStringInjective | client/src/components/activities/RecentActivity.tsx:72-84 | two numbers print the same only when they are equal |
| Text.JsRem | client/src/components/projects/ProjectStatus.tsx:53 | JavaScript's remainder: the Euclidean one for a non-negative dividend; for a negative one, zero or negative, and in every case its magnitude is the dividend's magnitude mod the divisor |
| Text.PadStart | client/src/pages/invoices/index.tsx:110 | padding gives the target length, or leaves a longer text alone |
| Text.PadStartShape | client/src/pages/invoices/index.tsx:110 | the padded text ends with the original and begins with pad characters only |
| Text.Pad2 | client/src/pages/invoices/index.tsx:110 | a padded month or day has at least two digits and reads back as the number |
| Text.Split | client/src/components/projects/ProjectStatus.tsx:35 | splitting gives at least one part and no part holds the separator |
| Text.JoinSplit | client/src/components/projects/ProjectStatus.tsx:35 | joining the parts with the separator gives the text back |
| Calendar.StartOfMonth | client/src/pages/reports/index.tsx:83 | the start of the month is no later than the instant and in the same month |
| Calendar.EndOfMonth | client/src/pages/reports/index.tsx:84 | the end of the month is no earlier than the instant, in the same month, and the next millisecond is in the next month |
| Calendar.SubMonths | client/src/pages/reports/index.tsx:87 | the result lies n months earlier |
| Calendar.StartOfWeek | client/src/pages/time-tracker/index.tsx:207-213 | the week starts on the Sunday at or before the instant, less than seven days earlier |
| Calendar.StartOfDay | client/src/pages/calendar/index.tsx:87 | midnight of the same calendar day, no later than the instant |
| Calendar.DifferenceInSeconds | client/src/pages/time-tracker/index.tsx:123 | whole seconds between two instants, truncated toward zero |
| Calendar.MonthOfYear | client/src/pages/invoices/index.tsx:110 | getMonth lies between 0 and 11 |
| Calendar.DayOfMonthRange | client/src/pages/invoices/index.tsx:110 | getDate lies between 1 and the month's length |
| Calendar.InMonthSpan | client/src/pages/reports/index.tsx:83-84 | between a month's start and another month's end exactly when the instant's month lies between the two months |
| Schema.ClientName | client/src/components/projects/ProjectStatus.tsx:29 | find by id: none exactly when no client has the id, otherwise the first client with it |
| Records.Spread | client/src/pages/tasks/index.tsx:112-115 | an object spread has the keys of both objects |
| Records.SpreadGet | client/src/pages/tasks/index.tsx:112-115 | after a spread the later object's properties win and the rest come from the earlier one |
| RecentActivityCard.IconsByTypeOnly | client/src/components/activities/RecentActivity.tsx:22-67 | two known activities get the same icon exactly when they share an entity type, whatever their actions |
| Seqs.FilterMembers | server/storage.ts:559 | a filter keeps exactly the elements that satisfy the predicate |
| Seqs.SortBy | server/storage.ts:560 | sorting keeps the length and the elements with their multiplicities |
| Seqs.SortBySorted | server/storage.ts:560 | the sorted sequence is ascending by the key |
| Seqs.SortByStable | server/storage.ts:560 | elements with equal keys keep their original order, as the stable Array.prototype.sort does |
| Seqs.Slice | server/storage.ts:561 | slice(0, limit) is a prefix of limit elements, or everything when shorter or without a limit |
| Seqs.SliceEnd | client/src/components/tasks/TaskList.tsx:36 | a negative slice end counts back from the length, clamped at 0; a non-negative one is clamped at the length |
| Seqs.SliceSortedTop | server/storage.ts:579-580 | an element left out of the sorted prefix sorts no earlier than every element kept |
| Seqs.FilterCountPositions | server/dbStorage.ts:865-897 | a filtered listing has one element per position whose element meets the condition |
| Seqs.Find | server/storage.ts:187-189 | find returns nothing exactly when no element matches, and otherwise the first matching element |

## Left out

- Floating point: hours and money are exact `real`s. IEEE rounding, `toFixed` and `Intl.NumberFormat` are not modelled.
- Time zones and daylight saving: the calendar is one fixed offset. Date parsing and the date-fns display formats ("MMM d", "h:mm a", "yyyy-MM-dd", "MMM yyyy") are not modelled. Only which day, month or year an instant falls in is modelled, and a formatted label is taken as given.
- The calendar grid itself (`eachDayOfInterval` and its rendering) is not modelled. Only the per-day event list and the overflow count are.
- HTTP plumbing, react-query caching, toasts, dialogs and JSX are not modelled. So are react-hook-form and zodResolver, and the Express wiring with its 500 catch-alls. Every request is a success or failure input.
- `setInterval` and `clearInterval` scheduling is not modelled. The running interval is a flag and each tick is an explicit step.
- The simulated report export (`setTimeout`) and the notification save's artificial delay are not modelled.
- `navigator.language` becomes a parameter of `I18n.Translator.InitializeLanguage`.
- Email-format checks in the zod schemas are an abstract predicate passed in, because the validator's internals are not part of this model.
- Drizzle and SQL query bodies are left out. Only their filter predicates, patch rewrites and count semantics are modelled. The Postgres session store and server/auth.ts (scrypt hashing, passport) are not part of this model.
- shared/schema.ts is used only for its status enumerations and the entity fields the logic reads. The Drizzle table definitions are not modelled.
- The wording of the activity descriptions recorded by the routes is not modelled. The activity's actor, action, entity type and id are.
- `toLowerCase` and `toUpperCase` are modelled on ASCII letters only. Unicode case mapping is not.
- Strings are sequences of code points, so lengths, indices and slices count code points, not UTF-16 code units as JavaScript's `.length`, zod's `.min(n)`, `charAt`, `substring` and `slice` do. The two agree on text without characters outside the Basic Multilingual Plane; a password of four such characters (eight UTF-16 units) passes the source's `.min(8)` but not the model's length check (AuthPage.ParseRegister, SettingsPage.PasswordIssues, DashboardLayout.PageTitle, ProjectStatusCard.InitialsOfWords).
- Schema.Contract: `signedByClient` and `signedByMe` are `bool`, although the columns are nullable (shared/schema.ts:133-134). A stored null flag, which the edit form's `z.boolean()` would reject, is not modelled, so ContractsPage.EditFormOfStored speaks of rows whose flags are set.
- Object keys that clash with `Object.prototype` names (a translation key such as "constructor") are not modelled. Lookup is plain map membership.
- Storage.MemStorage.Update: requires that the patch carries no "id". The routes pass a partial insert schema, which has none. A patch that renamed a row's id is not modelled.
- Storage.MemStorage.GetDashboardStats: the source's userId argument is unused and is left out. The clock reading is a parameter.
- Storage.DueOrder: the source's comparator is inconsistent for two undated tasks (it answers 1 both ways). The model takes the order a stable sort gives: dated tasks ascending, then undated ones in listing order. Other engines may order undated tasks differently.
- The `Map` fields of MemStorage are `map<int, Record>`, and iteration order is ascending id. The store inserts ids in increasing order, so this equals insertion order.
- DbStorage.GetDashboardStats: each SQL aggregate is modelled as a count or sum over the table rows passed in. Whether a query throws is an input flag.
- Routes.PostUser, Routes.PostEntity, Routes.PutEntity, Routes.GetTimeEntries: modelled over `MemStorage`, not over the exported `DatabaseStorage`. The Postgres user defaults (role "user", language "ro", phone null, DbStorage.NewUserRow) and the other Postgres insertion defaults are therefore not applied by these handlers; they are modelled on their own in `db_storage.dfy`.
- Routes.PutEntity: receives the patch already parsed by the insert schema (Routes.InvoicePatch models that parse for invoices); zod's type checks of the other properties are a success or failure input.
- Records.Value has no arrays or nested objects. Patches and rows are flat, as the handlers use them.
- DbStorage.NewClientRow, DbStorage.NewInvoiceItemRow, DbStorage.NewEventRow, DbStorage.NewActivityRow: these insertion defaults are modelled without a lemma of their own.

## Findings

| source | as written | input that shows it | evidently intended | confidence | as-written member | corrected member |
|---|---|---|---|---|---|---|
| client/src/pages/reports/index.tsx:99-101 | the "this-year" range ends at `new Date(year, 11, 31)`, midnight at the start of December 31 | an invoice issued at 01:00 on December 31 of the current year lies outside the range, so the year's report omits it | the range ends at the last instant of December 31 (`endOfYear`), so it holds every instant of the year | high, not executed | Reports.ThisYearMissesDecember31 | Reports.ThisYearCorrectedCoversYear |
