/**
 * The rules the live database storage (DatabaseStorage in
 * server/dbStorage.ts) applies around its SQL: the values each create*
 * inserts, the patch rewrites of updateInvoice and updateContract, the
 * filter of listActiveProjects and the figures of getDashboardStats. The
 * SQL itself is not modelled; a query's rows are inputs.
 */
module DbStorage {
  import opened Wrappers
  import opened Seqs
  import opened Records

  /** `{...insert, f: insert.f || d, ...}` for every default d of the given columns. */
  function FillFalsy(insert: Record, defaults: Record): (r: Record)
  {
    Spread(insert, map f | f in defaults :: Or(Get(insert, f), defaults[f]))
  }

  /** A defaulted column keeps a truthy value and otherwise takes its default; other columns are kept. */
  lemma FillFalsyGet(insert: Record, defaults: Record, f: string)
    ensures f in defaults && Truthy(Get(insert, f)) ==> Get(FillFalsy(insert, defaults), f) == Get(insert, f)
    ensures f in defaults && !Truthy(Get(insert, f)) ==> Get(FillFalsy(insert, defaults), f) == defaults[f]
    ensures f !in defaults ==> Get(FillFalsy(insert, defaults), f) == Get(insert, f)
  {
  }

  /** createUser. */
  function NewUserRow(u: Record): (r: Record)
  {
    FillFalsy(u, map["role" := Str("user"), "language" := Str("ro"), "phone" := Null])
  }

  /** createUser: role "user", language "ro" and a null phone unless given; the rest as given. */
  lemma NewUserDefaults(u: Record, f: string)
    ensures !Truthy(Get(u, "role")) ==> Get(NewUserRow(u), "role") == Str("user")
    ensures !Truthy(Get(u, "language")) ==> Get(NewUserRow(u), "language") == Str("ro")
    ensures !Truthy(Get(u, "phone")) ==> Get(NewUserRow(u), "phone") == Null
    ensures f != "role" && f != "language" && f != "phone" ==> Get(NewUserRow(u), f) == Get(u, f)
  {
    FillFalsyGet(u, map["role" := Str("user"), "language" := Str("ro"), "phone" := Null], f);
  }

  /** createClient: every optional column falls back to null. */
  function NewClientRow(c: Record): (r: Record)
  {
    FillFalsy(c, map["phone" := Null, "address" := Null, "city" := Null, "country" := Null,
                     "contactPerson" := Null, "notes" := Null])
  }

  function ProjectDefaults(): Record
  {
    map["status" := Str("not_started"), "progress" := Num(0.0), "description" := Null,
        "startDate" := Null, "deadline" := Null, "budget" := Null]
  }

  /** createProject. */
  function NewProjectRow(p: Record): (r: Record)
  {
    FillFalsy(p, ProjectDefaults())["completedAt" := Null]
  }

  /** createProject: status "not_started" and progress 0 unless given, and never completed. */
  lemma NewProjectDefaults(p: Record)
    ensures !Truthy(Get(p, "status")) ==> Get(NewProjectRow(p), "status") == Str("not_started")
    ensures !Truthy(Get(p, "progress")) ==> Get(NewProjectRow(p), "progress") == Num(0.0)
    ensures Get(NewProjectRow(p), "completedAt") == Null
  {
    FillFalsyGet(p, ProjectDefaults(), "status");
    FillFalsyGet(p, ProjectDefaults(), "progress");
  }

  function TaskDefaults(): Record
  {
    map["status" := Str("todo"), "priority" := Str("medium"), "description" := Null,
        "dueDate" := Null, "estimatedHours" := Null]
  }

  /** createTask. */
  function NewTaskRow(t: Record): (r: Record)
  {
    FillFalsy(t, TaskDefaults())["completedAt" := Null]
  }

  /** createTask: status "todo" and priority "medium" unless given, and never completed. */
  lemma NewTaskDefaults(t: Record)
    ensures !Truthy(Get(t, "status")) ==> Get(NewTaskRow(t), "status") == Str("todo")
    ensures !Truthy(Get(t, "priority")) ==> Get(NewTaskRow(t), "priority") == Str("medium")
    ensures Get(NewTaskRow(t), "completedAt") == Null
  {
    FillFalsyGet(t, TaskDefaults(), "status");
    FillFalsyGet(t, TaskDefaults(), "priority");
  }

  function TimeEntryDefaults(): Record
  {
    map["description" := Null, "projectId" := Null, "taskId" := Null, "endTime" := Null,
        "duration" := Null, "invoiceId" := Null]
  }

  /** createTimeEntry: `billable` defaults to true only when undefined; the other columns with `|| null`. */
  function NewTimeEntryRow(e: Record): (r: Record)
  {
    var billable := if IsUndefined(e, "billable") then Bool(true) else Get(e, "billable");
    FillFalsy(e, TimeEntryDefaults())["billable" := billable]
  }

  /**
   * createTimeEntry: a given billable flag is kept, false included, and a
   * missing one becomes true; a falsy end time or duration (0 included) is
   * stored as null.
   */
  lemma NewTimeEntryDefaults(e: Record)
    ensures IsUndefined(e, "billable") ==> Get(NewTimeEntryRow(e), "billable") == Bool(true)
    ensures !IsUndefined(e, "billable") ==> Get(NewTimeEntryRow(e), "billable") == Get(e, "billable")
    ensures !Truthy(Get(e, "duration")) ==> Get(NewTimeEntryRow(e), "duration") == Null
    ensures Truthy(Get(e, "duration")) ==> Get(NewTimeEntryRow(e), "duration") == Get(e, "duration")
    ensures !Truthy(Get(e, "endTime")) ==> Get(NewTimeEntryRow(e), "endTime") == Null
  {
    FillFalsyGet(e, TimeEntryDefaults(), "duration");
    FillFalsyGet(e, TimeEntryDefaults(), "endTime");
  }

  function InvoiceDefaults(): Record
  {
    map["status" := Str("draft"), "notes" := Null, "tax" := Null, "discount" := Null, "terms" := Null]
  }

  /** createInvoice. */
  function NewInvoiceRow(i: Record): (r: Record)
  {
    FillFalsy(i, InvoiceDefaults())["paidAt" := Null]["paidAmount" := Null]
  }

  /** createInvoice: status "draft" unless given; a new invoice is never paid, whatever the caller sent. */
  lemma NewInvoiceDefaults(i: Record)
    ensures !Truthy(Get(i, "status")) ==> Get(NewInvoiceRow(i), "status") == Str("draft")
    ensures Get(NewInvoiceRow(i), "paidAt") == Null && Get(NewInvoiceRow(i), "paidAmount") == Null
  {
    FillFalsyGet(i, InvoiceDefaults(), "status");
  }

  /** createInvoiceItem. */
  function NewInvoiceItemRow(i: Record): (r: Record)
  {
    FillFalsy(i, map["projectId" := Null, "taskId" := Null])
  }

  function ContractDefaults(): Record
  {
    map["status" := Str("draft"), "startDate" := Null, "endDate" := Null, "value" := Null,
        "terms" := Null, "projectId" := Null, "signedByClient" := Bool(false), "signedByMe" := Bool(false)]
  }

  /** createContract. */
  function NewContractRow(c: Record): (r: Record)
  {
    FillFalsy(c, ContractDefaults())["signedAt" := Null]
  }

  /** createContract: status "draft" and both signature flags false unless given, and not yet signed. */
  lemma NewContractDefaults(c: Record)
    ensures !Truthy(Get(c, "status")) ==> Get(NewContractRow(c), "status") == Str("draft")
    ensures !Truthy(Get(c, "signedByClient")) ==> Get(NewContractRow(c), "signedByClient") == Bool(false)
    ensures !Truthy(Get(c, "signedByMe")) ==> Get(NewContractRow(c), "signedByMe") == Bool(false)
    ensures Get(NewContractRow(c), "signedAt") == Null
  {
    FillFalsyGet(c, ContractDefaults(), "status");
    FillFalsyGet(c, ContractDefaults(), "signedByClient");
    FillFalsyGet(c, ContractDefaults(), "signedByMe");
  }

  /** createEvent. */
  function NewEventRow(e: Record): (r: Record)
  {
    FillFalsy(e, map["description" := Null, "clientId" := Null, "projectId" := Null, "allDay" := Bool(false)])
  }

  /** createActivity. */
  function NewActivityRow(a: Record): (r: Record)
  {
    FillFalsy(a, map["description" := Null])
  }

  /**
   * updateInvoice: marking an invoice paid that has no payment date yet adds
   * the payment date and, as the amount paid, the stored total. `stored` is
   * what getInvoice found (None for a missing invoice or a failed lookup).
   */
  function UpdateInvoicePatch(patch: Record, stored: Option<Record>, now: int): (r: Record)
  {
    if Get(patch, "status") == Str("paid") && stored.Some? && !Truthy(Get(stored.value, "paidAt")) then
      patch["paidAt" := Time(now)]["paidAmount" := Get(stored.value, "total")]
    else patch
  }

  /**
   * Marking an unpaid stored invoice paid sets paidAt to now and paidAmount to
   * the stored total and leaves every other column of the patch alone; any
   * other patch is written as sent.
   */
  lemma UpdateInvoicePatchRule(patch: Record, stored: Option<Record>, now: int, f: string)
    ensures var marks := Get(patch, "status") == Str("paid") && stored.Some? && !Truthy(Get(stored.value, "paidAt"));
      var r := UpdateInvoicePatch(patch, stored, now);
      (!marks ==> r == patch) &&
      (marks ==> Get(r, "paidAt") == Time(now) && Get(r, "paidAmount") == Get(stored.value, "total")) &&
      (f != "paidAt" && f != "paidAmount" ==> Get(r, f) == Get(patch, f))
  {
  }

  /**
   * Once an update marks an invoice paid, the invoice has a payment date:
   * either the patch brings one or the stored invoice already had one.
   */
  lemma PaidInvoiceHasDate(patch: Record, stored: Record, now: int)
    requires Get(patch, "status") == Str("paid") && "paidAt" !in patch
    ensures var r := UpdateInvoicePatch(patch, Some(stored), now);
      Truthy(Get(r, "paidAt")) || ("paidAt" !in r && Truthy(Get(stored, "paidAt")))
  {
  }

  /**
   * updateContract: a patch that marks the contract signed, with both
   * signature flags set in the patch itself, on a contract not yet signed,
   * gains the signing date.
   */
  function UpdateContractPatch(patch: Record, stored: Option<Record>, now: int): (r: Record)
  {
    if Get(patch, "status") == Str("signed") && stored.Some? && !Truthy(Get(stored.value, "signedAt"))
       && Truthy(Get(patch, "signedByClient")) && Truthy(Get(patch, "signedByMe"))
    then patch["signedAt" := Time(now)]
    else patch
  }

  /** The signing date is added only when the patch itself carries both signatures and the signed status. */
  lemma UpdateContractNeedsBoth(patch: Record, stored: Option<Record>, now: int)
    requires "signedAt" !in patch
    ensures var r := UpdateContractPatch(patch, stored, now);
      "signedAt" in r <==>
        Get(patch, "status") == Str("signed") && stored.Some? && !Truthy(Get(stored.value, "signedAt")) &&
        Truthy(Get(patch, "signedByClient")) && Truthy(Get(patch, "signedByMe"))
    ensures forall f :: f != "signedAt" ==> Get(UpdateContractPatch(patch, stored, now), f) == Get(patch, f)
  {
  }

  /** listActiveProjects here: not started or in progress. */
  predicate ActiveProject(p: Record)
  {
    Get(p, "status") == Str("not_started") || Get(p, "status") == Str("in_progress")
  }

  predicate InProgress(p: Record)
  {
    Get(p, "status") == Str("in_progress")
  }

  predicate NotStarted(p: Record)
  {
    Get(p, "status") == Str("not_started")
  }

  /**
   * The two storages disagree on "active": this one counts the projects in
   * progress, as the in-memory one does, plus the ones not started.
   */
  lemma ActiveProjectsDiverge(ps: seq<Record>)
    ensures |Filter(ps, ActiveProject)| == |Filter(ps, InProgress)| + |Filter(ps, NotStarted)|
  {
    SumOfFilterSplit(ps, ActiveProject, InProgress, NotStarted, (p: Record) => 0.0);
  }

  /** The six figures getDashboardStats returns. */
  datatype DbDashboard = DbDashboard(
    activeProjects: nat, pendingTasks: nat, draftInvoices: nat, overdueInvoices: nat,
    totalEarnings: real, clientCount: nat)

  /** Tasks pending for a user: assigned to them, to do or in progress. */
  function PendingFor(userId: int): Record -> bool
  {
    (t: Record) => Get(t, "assignedTo") == IdValue(userId) &&
      (Get(t, "status") == Str("todo") || Get(t, "status") == Str("in_progress"))
  }

  /** Invoices overdue at `now`: sent, with the due date reached. */
  function OverdueAt(now: int): Record -> bool
  {
    (i: Record) => Get(i, "status") == Str("sent") && Get(i, "dueDate").Time? && Get(i, "dueDate").ms <= now
  }

  predicate IsDraft(i: Record)
  {
    Get(i, "status") == Str("draft")
  }

  predicate IsPaid(i: Record)
  {
    Get(i, "status") == Str("paid")
  }

  /** `SUM(paid_amount)` skips nulls. */
  function PaidAmountOf(i: Record): real
  {
    OrZero(Get(i, "paidAmount"))
  }

  /**
   * getDashboardStats over the rows of the four tables; `failed` says that a
   * query threw, in which case every figure is 0.
   */
  function GetDashboardStats(projects: seq<Record>, tasks: seq<Record>, invoices: seq<Record>,
                             clients: seq<Record>, userId: int, now: int, failed: bool): (d: DbDashboard)
    ensures failed ==> d == DbDashboard(0, 0, 0, 0, 0.0, 0)
    ensures !failed ==> d.clientCount == |clients| && d.activeProjects <= |projects| && d.overdueInvoices <= |invoices|
    ensures !failed ==> d.activeProjects == |Positions(projects, ActiveProject)|
    ensures !failed ==> d.pendingTasks == |Positions(tasks, PendingFor(userId))|
    ensures !failed ==> d.draftInvoices == |Positions(invoices, IsDraft)|
    ensures !failed ==> d.overdueInvoices == |Positions(invoices, OverdueAt(now))|
    ensures !failed ==> d.totalEarnings == SumOf(invoices, (i: Record) => if IsPaid(i) then PaidAmountOf(i) else 0.0)
  {
    if failed then DbDashboard(0, 0, 0, 0, 0.0, 0)
    else
      FilterCountPositions(projects, ActiveProject);
      FilterCountPositions(tasks, PendingFor(userId));
      FilterCountPositions(invoices, IsDraft);
      FilterCountPositions(invoices, OverdueAt(now));
      EarningsArePaidAmounts(invoices);
      DbDashboard(
        |Filter(projects, ActiveProject)|,
        |Filter(tasks, PendingFor(userId))|,
        |Filter(invoices, IsDraft)|,
        |Filter(invoices, OverdueAt(now))|,
        SumOf(Filter(invoices, IsPaid), PaidAmountOf),
        |clients|)
  }

  /** Total earnings count every paid invoice's amount and nothing else. */
  lemma EarningsArePaidAmounts(invoices: seq<Record>)
    ensures SumOf(Filter(invoices, IsPaid), PaidAmountOf)
         == SumOf(invoices, (i: Record) => if IsPaid(i) then PaidAmountOf(i) else 0.0)
  {
    var g := (i: Record) => if IsPaid(i) then PaidAmountOf(i) else 0.0;
    SumOfFilter(invoices, IsPaid, g);
    FilterMembers(invoices, IsPaid);
    SumOfCongruent(Filter(invoices, IsPaid), PaidAmountOf, g);
  }

  /**
   * Overdue invoices are sent ones whose due date has been reached, so the
   * figure never shrinks as time passes and never exceeds the sent invoices.
   */
  lemma OverdueGrowsWithTime(projects: seq<Record>, tasks: seq<Record>, invoices: seq<Record>,
                             clients: seq<Record>, userId: int, earlier: int, later: int)
    requires earlier <= later
    ensures GetDashboardStats(projects, tasks, invoices, clients, userId, earlier, false).overdueInvoices
         <= GetDashboardStats(projects, tasks, invoices, clients, userId, later, false).overdueInvoices
         <= |Filter(invoices, (i: Record) => Get(i, "status") == Str("sent"))|
  {
    var sent := (i: Record) => Get(i, "status") == Str("sent");
    FilterNarrow(invoices, OverdueAt(later), OverdueAt(earlier));
    FilterNarrow(invoices, sent, OverdueAt(later));
  }
}
