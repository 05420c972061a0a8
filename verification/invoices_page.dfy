/**
 * The invoices page: the running total of the new-invoice form, the form's
 * defaults and validation, the searchable tab filter and which actions a
 * row offers for its status, with the requests those actions send.
 */
module InvoicesPage {
  import opened Wrappers
  import opened Seqs
  import opened Text
  import opened Calendar
  import opened Schema
  import Records
  import Routes
  import DbStorage

  /** `parseFloat(x) || 0`: an unparsable or empty input (None) and zero both give 0. */
  function NumberOrZero(x: Option<real>): (r: real)
    ensures x.Some? ==> r == x.value
    ensures x.None? ==> r == 0.0
  {
    if x.Some? then x.value else 0.0
  }

  /** The invoice total: subtotal plus tax percent of it, minus the discount. */
  function TotalOf(subtotal: real, tax: real, discount: real): real
  {
    subtotal + subtotal * (tax / 100.0) - discount
  }

  /** Without tax or discount the total is the subtotal; tax never lowers it and the discount comes off whole. */
  lemma TotalOfMeaning(subtotal: real, tax: real, discount: real)
    ensures TotalOf(subtotal, 0.0, 0.0) == subtotal
    ensures subtotal >= 0.0 && tax >= 0.0 ==> TotalOf(subtotal, tax, discount) >= subtotal - discount
    ensures TotalOf(subtotal, tax, discount) + discount == TotalOf(subtotal, tax, 0.0)
  {
  }

  /** The numeric fields of the new-invoice form. */
  class InvoiceForm {
    var subtotal: real
    var tax: real
    var discount: real
    var total: real

    /** The total shown always agrees with the other three fields. */
    predicate Valid()
      reads this
    {
      total == TotalOf(subtotal, tax, discount)
    }

    /** The form's defaults: everything zero. */
    constructor ()
      ensures Valid()
      ensures subtotal == 0.0 && tax == 0.0 && discount == 0.0 && total == 0.0
    {
      subtotal, tax, discount, total := 0.0, 0.0, 0.0, 0.0;
    }

    /** updateTotal: recompute the total from the three fields' current values. */
    method UpdateTotal()
      modifies this
      ensures Valid()
      ensures subtotal == old(subtotal) && tax == old(tax) && discount == old(discount)
    {
      total := TotalOf(NumberOrZero(Some(subtotal)), NumberOrZero(Some(tax)), NumberOrZero(Some(discount)));
    }

    /** Typing in the subtotal input: the field takes the parsed number (or 0), then the total follows. */
    method ChangeSubtotal(input: Option<real>)
      modifies this
      ensures Valid()
      ensures subtotal == NumberOrZero(input) && tax == old(tax) && discount == old(discount)
    {
      subtotal := NumberOrZero(input);
      UpdateTotal();
    }

    /** Typing in the tax input. */
    method ChangeTax(input: Option<real>)
      modifies this
      ensures Valid()
      ensures tax == NumberOrZero(input) && subtotal == old(subtotal) && discount == old(discount)
    {
      tax := NumberOrZero(input);
      UpdateTotal();
    }

    /** Typing in the discount input. */
    method ChangeDiscount(input: Option<real>)
      modifies this
      ensures Valid()
      ensures discount == NumberOrZero(input) && subtotal == old(subtotal) && tax == old(tax)
    {
      discount := NumberOrZero(input);
      UpdateTotal();
    }
  }

  /** The new-invoice form's values as the schema sees them (dates as entered text). */
  datatype InvoiceFormValues = InvoiceFormValues(
    invoiceNumber: string, clientId: Option<int>, issueDate: string, dueDate: string,
    subtotal: real, tax: Option<real>, discount: Option<real>, total: real)

  /** invoiceFormSchema. */
  predicate InvoiceFormOk(v: InvoiceFormValues)
  {
    |v.invoiceNumber| >= 1 && v.clientId.Some? && |v.issueDate| >= 1 && |v.dueDate| >= 1 &&
    v.subtotal >= 0.0 && (v.tax.Some? ==> v.tax.value >= 0.0) &&
    (v.discount.Some? ==> v.discount.value >= 0.0) && v.total >= 0.0
  }

  /**
   * A total computed by the form from valid inputs can be submitted exactly
   * when the discount does not exceed the taxed subtotal.
   */
  lemma DiscountBound(v: InvoiceFormValues)
    requires v.tax.Some? && v.discount.Some?
    requires v.total == TotalOf(v.subtotal, v.tax.value, v.discount.value)
    requires |v.invoiceNumber| >= 1 && v.clientId.Some? && |v.issueDate| >= 1 && |v.dueDate| >= 1
    requires v.subtotal >= 0.0 && v.tax.value >= 0.0 && v.discount.value >= 0.0
    ensures InvoiceFormOk(v) <==> v.discount.value <= TotalOf(v.subtotal, v.tax.value, 0.0)
  {
  }

  /** `String(n).padStart(2, '0')` is two digits for a number below 100. */
  lemma Pad2Short(n: nat)
    requires n < 100
    ensures |Pad2(n)| == 2
  {
    if n >= 10 {
      assert NatToString(n) == NatToString(n / 10) + [DigitChar(n % 10)];
    }
  }

  /** The default invoice number: `INV-<year>-<MM><DD>-`. */
  function DefaultInvoiceNumber(now: int): string
  {
    DayOfMonthRange(now);
    "INV-" + IntToString(YearOf(now)) + "-" + Pad2(MonthOfYear(now) + 1) + Pad2(DayOfMonth(now)) + "-"
  }

  /**
   * The default number starts with "INV-" and the year, and its month and
   * day are two digits each that read back as the month (from 1) and the
   * day of the month.
   */
  lemma DefaultInvoiceNumberShape(now: int)
    ensures DayOfMonth(now) >= 1
    ensures exists mm: string, dd: string ::
      DefaultInvoiceNumber(now) == "INV-" + IntToString(YearOf(now)) + "-" + mm + dd + "-" &&
      |mm| == 2 && |dd| == 2 && AllDigits(mm) && AllDigits(dd) &&
      ParseNat(mm) == MonthOfYear(now) + 1 && ParseNat(dd) == DayOfMonth(now)
  {
    DayOfMonthRange(now);
    assert DaysInMonth(MonthOf(now)) <= 31;
    var mm, dd := Pad2(MonthOfYear(now) + 1), Pad2(DayOfMonth(now));
    Pad2Short(MonthOfYear(now) + 1);
    Pad2Short(DayOfMonth(now));
  }

  /** The form's starting values: today's issue date, due in 14 days, a draft with zero amounts. */
  datatype InvoiceDefaults = InvoiceDefaults(
    invoiceNumber: string, issueDate: int, dueDate: int, status: InvoiceStatus,
    subtotal: real, tax: real, discount: real, total: real, notes: string, terms: string,
    createdBy: Option<int>)

  function NewInvoiceDefaults(now: int, userId: Option<int>): (d: InvoiceDefaults)
    ensures d.dueDate - d.issueDate == 14 * DayMs && DayIndex(d.dueDate) == DayIndex(d.issueDate) + 14
    ensures d.status == InvoiceStatus.Draft && d.total == TotalOf(d.subtotal, d.tax, d.discount)
    ensures d.createdBy == userId
  {
    InvoiceDefaults(DefaultInvoiceNumber(now), now, now + 14 * DayMs, InvoiceStatus.Draft,
      0.0, 0.0, 0.0, 0.0, "", "Payment due within 14 days of issue.", userId)
  }

  // ---------------------------------------------------------------------
  // The list

  function StatusName(s: InvoiceStatus): string
  {
    match s
    case Draft => "draft"
    case Sent => "sent"
    case Paid => "paid"
    case Overdue => "overdue"
    case Canceled => "canceled"
  }

  /** One invoice against the tab and the search. */
  predicate InvoiceShown(inv: Invoice, tab: string, query: string)
  {
    var matches := ContainsIgnoringCase(inv.invoiceNumber, query);
    if tab == "all" then matches
    else if tab == "draft" then matches && inv.status == InvoiceStatus.Draft
    else if tab == "sent" then matches && inv.status == InvoiceStatus.Sent
    else if tab == "paid" then matches && inv.status == InvoiceStatus.Paid
    else if tab == "overdue" then matches && inv.status == InvoiceStatus.Overdue
    else matches
  }

  /** filteredInvoices: undefined until the invoices are loaded. */
  function FilteredInvoices(invoices: Option<seq<Invoice>>, tab: string, query: string): Option<seq<Invoice>>
  {
    match invoices
    case None => None
    case Some(invs) => Some(Filter(invs, (inv: Invoice) => InvoiceShown(inv, tab, query)))
  }

  predicate IsStatusTab(tab: string)
  {
    tab == "draft" || tab == "sent" || tab == "paid" || tab == "overdue"
  }

  /**
   * An invoice is listed exactly when its number contains the search,
   * ignoring case, and, on a status tab, it has that status; "all" and any
   * other tab keep every match.
   */
  lemma InvoicesListed(invs: seq<Invoice>, tab: string, query: string, inv: Invoice)
    ensures inv in FilteredInvoices(Some(invs), tab, query).value <==>
      inv in invs && ContainsIgnoringCase(inv.invoiceNumber, query) &&
      (IsStatusTab(tab) ==> StatusName(inv.status) == tab)
  {
    FilterMembers(invs, (inv: Invoice) => InvoiceShown(inv, tab, query));
  }

  /** A status tab lists the "all" tab's invoices of that status, in the same order. */
  lemma StatusTabNarrowsAll(invs: seq<Invoice>, tab: string, query: string)
    requires IsStatusTab(tab)
    ensures FilteredInvoices(Some(invs), tab, query).value ==
      Filter(FilteredInvoices(Some(invs), "all", query).value, (inv: Invoice) => StatusName(inv.status) == tab)
  {
    var all := (inv: Invoice) => InvoiceShown(inv, "all", query);
    var onTab := (inv: Invoice) => InvoiceShown(inv, tab, query);
    FilterNarrow(invs, all, onTab);
    FilterMembers(invs, all);
    FilterCongruent(Filter(invs, all), (inv: Invoice) => StatusName(inv.status) == tab, onTab);
  }

  // ---------------------------------------------------------------------
  // Row actions

  /** "Send Invoice" is offered for drafts only. */
  predicate CanSend(inv: Invoice) { inv.status == InvoiceStatus.Draft }

  /** "Mark as Paid" is offered for sent invoices only. */
  predicate CanMarkPaid(inv: Invoice) { inv.status == InvoiceStatus.Sent }

  /** "Delete" is offered for every status but paid. */
  predicate CanDelete(inv: Invoice) { inv.status != InvoiceStatus.Paid }

  /** What each action sends to `PUT /api/invoices/:id`. */
  function SendPayload(): Records.Record
  {
    map["status" := Records.Str("sent")]
  }

  function MarkPaidPayload(inv: Invoice, now: int): (p: Records.Record)
    ensures Records.Get(p, "status") == Records.Str("paid")
    ensures Records.Get(p, "paidAmount") == Records.Num(inv.total)
  {
    map["status" := Records.Str("paid"), "paidAmount" := Records.Num(inv.total), "paidAt" := Records.Time(now)]
  }

  /** The status an action moves an invoice to. */
  datatype InvoiceAction = Send | MarkPaid

  function Offered(inv: Invoice, a: InvoiceAction): bool
  {
    match a
    case Send => CanSend(inv)
    case MarkPaid => CanMarkPaid(inv)
  }

  function After(a: InvoiceAction): InvoiceStatus
  {
    match a
    case Send => InvoiceStatus.Sent
    case MarkPaid => InvoiceStatus.Paid
  }

  /**
   * The page's invoice lifecycle runs draft, then sent, then paid: each
   * action moves one step forward, and a paid invoice offers no action at
   * all, not even delete.
   */
  lemma InvoiceLifecycle(inv: Invoice, a: InvoiceAction)
    ensures Offered(inv, a) ==>
      (inv.status == InvoiceStatus.Draft && After(a) == InvoiceStatus.Sent) ||
      (inv.status == InvoiceStatus.Sent && After(a) == InvoiceStatus.Paid)
    ensures inv.status == InvoiceStatus.Paid ==> !Offered(inv, a) && !CanDelete(inv)
    ensures CanMarkPaid(inv) ==> CanDelete(inv) && !CanSend(inv)
  {
  }

  /**
   * Marking paid from the page: parsing drops the page's payment date, so
   * the route stamps the server's time; the live storage, when the stored
   * invoice is not yet paid, stamps it again and takes the amount paid from
   * the stored total.
   */
  lemma MarkPaidThroughServer(inv: Invoice, clientNow: int, serverNow: int, stored: Records.Record)
    requires !Records.Truthy(Records.Get(stored, "paidAt"))
    ensures var routed := Routes.PutInvoiceData(Routes.InvoicePatch(MarkPaidPayload(inv, clientNow)), serverNow);
      Records.Get(routed, "paidAt") == Records.Time(serverNow) &&
      Records.Get(routed, "paidAmount") == Records.Num(inv.total) &&
      var written := DbStorage.UpdateInvoicePatch(routed, Some(stored), serverNow);
      Records.Get(written, "paidAt") == Records.Time(serverNow) &&
      Records.Get(written, "paidAmount") == Records.Get(stored, "total")
  {
  }
}
