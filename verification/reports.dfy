/**
 * The reports page (client/src/pages/reports/index.tsx): a date range chosen
 * by keyword, dense per-month series of revenue and tracked hours, sparse
 * per-project and per-client rollups sorted by size, and the summary
 * counters. Each generator is a method with the loops of the page, proved
 * equal to a specification function; the lemmas relate the series to the
 * summary.
 */
module Reports {
  import opened Wrappers
  import opened Seqs
  import opened Calendar
  import opened Schema
  import Text

  /** An inclusive range of instants. */
  datatype DateRange = DateRange(start: int, end: int)

  predicate InRange(t: int, r: DateRange)
  {
    r.start <= t <= r.end
  }

  // ---------------------------------------------------------------------
  // The range keyword

  /**
   * getDateRange: "this-month", "last-month", "last-3-months",
   * "last-6-months", "this-year" and "custom"; any other keyword behaves
   * like "this-month". The custom bounds are the already parsed inputs.
   */
  function GetDateRange(keyword: string, now: int, customStart: int, customEnd: int): (r: DateRange)
    ensures keyword == "custom" ==> r == DateRange(customStart, customEnd)
  {
    if keyword == "this-month" then MonthRange(now, now)
    else if keyword == "last-month" then MonthRange(SubMonths(now, 1), SubMonths(now, 1))
    else if keyword == "last-3-months" then MonthRange(SubMonths(now, 2), now)
    else if keyword == "last-6-months" then MonthRange(SubMonths(now, 5), now)
    else if keyword == "this-year" then ThisYear(now)
    else if keyword == "custom" then DateRange(customStart, customEnd)
    else MonthRange(now, now)
  }

  /** "this-month": the whole current month. */
  lemma ThisMonthRange(now: int, customStart: int, customEnd: int)
    ensures var r := GetDateRange("this-month", now, customStart, customEnd);
      IsMonthStart(r.start) && IsMonthStart(r.end + 1) && MonthOf(r.start) == MonthOf(now) && MonthOf(r.end) == MonthOf(now)
  {
    assert GetDateRange("this-month", now, customStart, customEnd) == MonthRange(now, now);
  }

  /** "last-month": the whole previous month. */
  lemma LastMonthRange(now: int, customStart: int, customEnd: int)
    ensures var r := GetDateRange("last-month", now, customStart, customEnd);
      IsMonthStart(r.start) && IsMonthStart(r.end + 1) && MonthOf(r.start) == MonthOf(now) - 1 && MonthOf(r.end) == MonthOf(now) - 1
  {
    var m := SubMonths(now, 1);
    assert GetDateRange("last-month", now, customStart, customEnd) == MonthRange(m, m);
  }

  /** "last-3-months": the current month and the two before it. */
  lemma LastThreeMonthsRange(now: int, customStart: int, customEnd: int)
    ensures var r := GetDateRange("last-3-months", now, customStart, customEnd);
      IsMonthStart(r.start) && IsMonthStart(r.end + 1) && MonthOf(r.start) == MonthOf(now) - 2 && MonthOf(r.end) == MonthOf(now)
  {
    var m := SubMonths(now, 2);
    assert GetDateRange("last-3-months", now, customStart, customEnd) == MonthRange(m, now);
  }

  /** "last-6-months": the current month and the five before it. */
  lemma LastSixMonthsRange(now: int, customStart: int, customEnd: int)
    ensures var r := GetDateRange("last-6-months", now, customStart, customEnd);
      IsMonthStart(r.start) && IsMonthStart(r.end + 1) && MonthOf(r.start) == MonthOf(now) - 5 && MonthOf(r.end) == MonthOf(now)
  {
    var m := SubMonths(now, 5);
    assert GetDateRange("last-6-months", now, customStart, customEnd) == MonthRange(m, now);
  }

  /**
   * "this-year": from midnight on January 1 of now's year to midnight at
   * the start of December 31 (see ThisYearMissesDecember31).
   */
  lemma ThisYearKeywordRange(now: int, customStart: int, customEnd: int)
    ensures var r := GetDateRange("this-year", now, customStart, customEnd);
      r == ThisYear(now) && IsMonthStart(r.start) && MonthOf(r.start) == YearOf(now) * 12 &&
      MonthOf(r.end) == YearOf(now) * 12 + 11 && DayOfMonth(r.end) == 31 && StartOfDay(r.end) == r.end
  {
    assert GetDateRange("this-year", now, customStart, customEnd) == ThisYear(now);
  }

  /** An unknown keyword gives the "this-month" range. */
  lemma GetDateRangeDefault(keyword: string, now: int, customStart: int, customEnd: int)
    requires keyword !in {"this-month", "last-month", "last-3-months", "last-6-months", "this-year", "custom"}
    ensures GetDateRange(keyword, now, customStart, customEnd) == GetDateRange("this-month", now, customStart, customEnd)
  {
  }

  /** From the start of a's month to the end of b's month. */
  function MonthRange(a: int, b: int): (r: DateRange)
    ensures IsMonthStart(r.start) && MonthOf(r.start) == MonthOf(a)
    ensures MonthOf(r.end) == MonthOf(b) && IsMonthStart(r.end + 1)
  {
    MonthOfMonthStart(MonthOf(b) + 1);
    DateRange(StartOfMonth(a), EndOfMonth(b))
  }

  /** `new Date(year, 0, 1)` to `new Date(year, 11, 31)`: the end is midnight at the start of December 31. */
  function ThisYear(now: int): (r: DateRange)
    ensures IsMonthStart(r.start) && MonthOf(r.start) == YearOf(now) * 12
    ensures MonthOf(r.end) == YearOf(now) * 12 + 11 && DayOfMonth(r.end) == 31 && StartOfDay(r.end) == r.end
  {
    var y := YearOf(now);
    YearBounds(y);
    DateRange(MakeDate(y, 0, 1), MakeDate(y, 11, 31))
  }

  lemma YearBounds(y: int)
    ensures IsMonthStart(MakeDate(y, 0, 1)) && MonthOf(MakeDate(y, 0, 1)) == y * 12
    ensures var end := MakeDate(y, 11, 31);
      MonthOf(end) == y * 12 + 11 && DayOfMonth(end) == 31 && StartOfDay(end) == end
  {
    var jan := y * 12;
    var dec := jan + 11;
    assert dec % 12 == 11;
    assert MakeDate(y, 11, 31) == MonthStart(dec) + 30 * DayMs;
    MonthOfMonthStart(jan);
    DecemberLastDay(dec);
  }

  lemma DecemberLastDay(dec: int)
    requires dec % 12 == 11
    ensures var t := MonthStart(dec) + 30 * DayMs;
      MonthOf(t) == dec && DayOfMonth(t) == 31 && StartOfDay(t) == t
  {
    var a := MonthStartDay(dec);
    var t := MonthStart(dec) + 30 * DayMs;
    assert t == (a + 30) * DayMs;
    MonthStartDayStep(dec);
    assert DaysInMonth(dec) == 31;
    assert MonthStart(dec + 1) == (a + 31) * DayMs;
    MonthOfUnique(t, dec);
    DayIndexOfDayStart(a + 30, 0);
    assert DayIndex(t) == a + 30;
  }

  /**
   * As written, the "this-year" range ends at midnight at the start of
   * December 31: an instant later that day belongs to the year but lies
   * outside the range.
   */
  lemma ThisYearMissesDecember31(now: int) returns (t: int)
    ensures YearOf(t) == YearOf(now) && !InRange(t, ThisYear(now))
  {
    var y := YearOf(now);
    var dec := y * 12 + 11;
    assert dec % 12 == 11 && dec / 12 == y;
    assert DaysInMonth(dec) == 31;
    var end := MonthStart(dec) + 30 * DayMs;
    assert ThisYear(now).end == end;
    t := end + HourMs;
    MonthOfWithinMonth(dec, 30, HourMs);
    YearOfMonths(t, y);
  }

  /** The range "this-year" evidently means: January 1 to the last instant of December 31. */
  function ThisYearCorrected(now: int): (r: DateRange)
    ensures IsMonthStart(r.start) && MonthOf(r.start) == YearOf(now) * 12
    ensures MonthOf(r.end) == YearOf(now) * 12 + 11 && IsMonthStart(r.end + 1)
  {
    var jan := YearOf(now) * 12;
    MonthOfMonthStart(jan);
    MonthOfMonthStart(jan + 11);
    MonthRange(MonthStart(jan), MonthStart(jan + 11))
  }

  /** The corrected range holds exactly the instants of the current year. */
  lemma ThisYearCorrectedCoversYear(now: int, t: int)
    ensures InRange(t, ThisYearCorrected(now)) <==> YearOf(t) == YearOf(now)
  {
    var r := ThisYearCorrected(now);
    InMonthSpan(r.start, r.end, t);
    YearOfMonths(t, YearOf(now));
  }

  // ---------------------------------------------------------------------
  // The months of a range

  /** The month indices from the month of r.start to the month of r.end; none when r is empty. */
  function RangeMonths(r: DateRange): (ms: seq<int>)
    ensures r.start > r.end ==> ms == []
    ensures r.start <= r.end ==> |ms| == MonthOf(r.end) - MonthOf(r.start) + 1
    ensures forall i :: 0 <= i < |ms| ==> ms[i] == MonthOf(r.start) + i
  {
    if r.start <= r.end then
      MonthOfMonotone(r.start, r.end);
      seq(MonthOf(r.end) - MonthOf(r.start) + 1, i => MonthOf(r.start) + i)
    else []
  }

  /** Every instant of the range lies in one of the listed months. */
  lemma RangeMonthsCover(r: DateRange, t: int)
    requires InRange(t, r)
    ensures MonthOf(t) in RangeMonths(r)
  {
    MonthOfMonotone(r.start, t);
    MonthOfMonotone(t, r.end);
    var ms := RangeMonths(r);
    assert ms[MonthOf(t) - MonthOf(r.start)] == MonthOf(t);
  }

  /** Every listed month holds some instant of the range: the series has no month too many. */
  lemma RangeMonthsWitness(r: DateRange, i: nat) returns (t: int)
    requires i < |RangeMonths(r)|
    ensures InRange(t, r) && MonthOf(t) == RangeMonths(r)[i]
  {
    var first := MonthOf(r.start);
    var last := MonthOf(r.end);
    var m := first + i;
    assert RangeMonths(r)[i] == m && m <= last;
    if i == 0 {
      t := r.start;
    } else {
      t := MonthStart(m);
      MonthOfMonthStart(m);
      MonthStartIncreasing(first + 1, m);
      MonthStartIncreasing(m, last);
    }
  }

  /**
   * The loop `while (currentMonth <= end)` that visits one instant per month,
   * stepping to `new Date(year, month + 1, 1)`; it returns the months visited,
   * in order, which are the keys the generators create.
   */
  method VisitMonths(r: DateRange) returns (keys: seq<int>)
    ensures r.start > r.end ==> keys == []
    ensures r.start <= r.end ==> |keys| == MonthOf(r.end) - MonthOf(r.start) + 1
    ensures forall i :: 0 <= i < |keys| ==> keys[i] == MonthOf(r.start) + i
  {
    keys := [];
    var cur := r.start;
    ghost var first := MonthOf(r.start);
    while cur <= r.end
      invariant |keys| == 0 ==> cur == r.start
      invariant |keys| > 0 ==> r.start <= r.end && cur == MonthStart(first + |keys|) && first + |keys| - 1 <= MonthOf(r.end)
      invariant forall i :: 0 <= i < |keys| ==> keys[i] == first + i
      decreases r.end - cur
    {
      VisitStep(r, |keys|, cur);
      var k := MonthOf(cur);
      keys := keys + [k];
      cur := MakeDate(YearOf(cur), MonthOfYear(cur) + 1, 1);
    }
    if |keys| > 0 {
      MonthOfBefore(r.end, first + |keys|);
    }
  }

  /** One step of the month loop: the month visited is the next one, and the loop moves to the start of the month after. */
  lemma VisitStep(r: DateRange, n: nat, cur: int)
    requires cur <= r.end
    requires n == 0 ==> cur == r.start
    requires n > 0 ==> cur == MonthStart(MonthOf(r.start) + n)
    ensures MonthOf(cur) == MonthOf(r.start) + n <= MonthOf(r.end)
    ensures MakeDate(YearOf(cur), MonthOfYear(cur) + 1, 1) == MonthStart(MonthOf(r.start) + n + 1)
    ensures cur < MonthStart(MonthOf(r.start) + n + 1)
  {
    var k := MonthOf(cur);
    if n > 0 {
      MonthOfMonthStart(MonthOf(r.start) + n);
    }
    MonthOfMonotone(cur, r.end);
    MakeDateNextMonth(k);
  }

  /** The months the loop visits, as a value. */
  lemma VisitMonthsIsRangeMonths(r: DateRange, keys: seq<int>)
    requires r.start > r.end ==> keys == []
    requires r.start <= r.end ==> |keys| == MonthOf(r.end) - MonthOf(r.start) + 1
    requires forall i :: 0 <= i < |keys| ==> keys[i] == MonthOf(r.start) + i
    ensures keys == RangeMonths(r)
  {
  }

  /** `format(month, "MMM yyyy")`, e.g. "Mar 2024", for years 0 to 9999. */
  function MonthLabel(m: int): string
  {
    var names := ["Jan", "Feb", "Mar", "Apr", "May", "Jun", "Jul", "Aug", "Sep", "Oct", "Nov", "Dec"];
    var y := m / 12;
    names[m % 12] + " " + (if y >= 0 then Text.PadStart(Text.NatToString(y), 4, '0') else Text.IntToString(y))
  }

  // ---------------------------------------------------------------------
  // Sums split by month

  /** The items p accepts whose key is below b. */
  function Before<T>(p: T -> bool, key: T -> int, b: int): T -> bool
  {
    x => p(x) && key(x) < b
  }

  /** The items p accepts whose key is m. */
  function During<T>(p: T -> bool, key: T -> int, m: int): T -> bool
  {
    x => p(x) && key(x) == m
  }

  lemma {:induction false} KeyedPrefix<T, U>(s: seq<T>, p: T -> bool, key: T -> int, f: T -> real,
                                            first: int, rows: seq<U>, g: U -> real, n: nat)
    requires forall x :: x in s && p(x) ==> first <= key(x)
    requires forall i :: 0 <= i < |rows| ==> g(rows[i]) == SumOf(Filter(s, During(p, key, first + i)), f)
    requires n <= |rows|
    ensures SumOf(rows[..n], g) == SumOf(Filter(s, Before(p, key, first + n)), f)
  {
    if n == 0 {
      FilterNone(s, Before(p, key, first));
      assert rows[..0] == [];
    } else {
      KeyedPrefix(s, p, key, f, first, rows, g, n - 1);
      assert rows[..n] == rows[..n - 1] + [rows[n - 1]];
      SumOfAppend(rows[..n - 1], [rows[n - 1]], g);
      SumOfFilterSplit(s, Before(p, key, first + n), Before(p, key, first + n - 1), During(p, key, first + n - 1), f);
    }
  }

  /**
   * A series whose row i holds the sum over the items with key first + i
   * adds up to the sum over all items, provided every key lies in
   * first .. first + |rows| - 1.
   */
  lemma KeyedSeriesTotal<T, U>(s: seq<T>, p: T -> bool, key: T -> int, f: T -> real,
                               first: int, rows: seq<U>, g: U -> real)
    requires forall x :: x in s && p(x) ==> first <= key(x) < first + |rows|
    requires forall i :: 0 <= i < |rows| ==> g(rows[i]) == SumOf(Filter(s, During(p, key, first + i)), f)
    ensures SumOf(rows, g) == SumOf(Filter(s, p), f)
  {
    var b := first + |rows|;
    calc {
      SumOf(rows, g);
      { assert rows[..|rows|] == rows; }
      SumOf(rows[..|rows|], g);
      { KeyedPrefix(s, p, key, f, first, rows, g, |rows|); }
      SumOf(Filter(s, Before(p, key, b)), f);
      { BeforeBound(s, p, key, b); }
      SumOf(Filter(s, p), f);
    }
  }

  /** When every accepted item has a key below b, "before b" accepts the same items. */
  lemma BeforeBound<T>(s: seq<T>, p: T -> bool, key: T -> int, b: int)
    requires forall x :: x in s && p(x) ==> key(x) < b
    ensures Filter(s, Before(p, key, b)) == Filter(s, p)
  {
    FilterCongruent(s, Before(p, key, b), p);
  }

  /** Every instant of r lies in one of the months of RangeMonths(r). */
  lemma RangeMonthsBounds(r: DateRange, t: int)
    requires InRange(t, r)
    ensures MonthOf(r.start) <= MonthOf(t) < MonthOf(r.start) + |RangeMonths(r)|
  {
    MonthOfMonotone(r.start, t);
    MonthOfMonotone(t, r.end);
  }

  // ---------------------------------------------------------------------
  // Revenue per month

  datatype RevenueRow = RevenueRow(month: string, income: real, expenses: real)

  function InvoiceTotal(inv: Invoice): real
  {
    inv.total
  }

  /** The month an invoice was issued in. */
  function IssueMonth(inv: Invoice): int
  {
    MonthOf(inv.issueDate)
  }

  function RowIncome(row: RevenueRow): real
  {
    row.income
  }

  /** The invoices that count as income for range r: paid and issued within r. */
  function PaidIn(r: DateRange): Invoice -> bool
  {
    (inv: Invoice) => InRange(inv.issueDate, r) && inv.status == InvoiceStatus.Paid
  }

  /** Income of month m: the totals of the paid invoices of r issued in m. */
  function MonthIncome(invoices: seq<Invoice>, r: DateRange, m: int): real
  {
    SumOf(Filter(invoices, During(PaidIn(r), IssueMonth, m)), InvoiceTotal)
  }

  /** generateRevenueData as a value: one row per month of the range, expenses 40% of income. */
  function RevenueData(invoices: Option<seq<Invoice>>, r: DateRange): seq<RevenueRow>
  {
    if invoices.None? then []
    else
      var ms := RangeMonths(r);
      seq(|ms|, i requires 0 <= i < |ms| =>
        RevenueRow(MonthLabel(ms[i]), MonthIncome(invoices.value, r, ms[i]), MonthIncome(invoices.value, r, ms[i]) * 0.4))
  }

  /** The months object after its initialising loop: each month of the range with a label and zero sums. */
  method InitRevenueMonths(keys: seq<int>, first: int) returns (months: map<int, RevenueRow>)
    requires forall t :: 0 <= t < |keys| ==> keys[t] == first + t
    ensures forall k :: k in months <==> first <= k < first + |keys|
    ensures forall k :: k in months ==> months[k] == RevenueRow(MonthLabel(k), 0.0, 0.0)
  {
    months := map[];
    var j := 0;
    while j < |keys|
      invariant 0 <= j <= |keys|
      invariant forall k :: k in months <==> first <= k < first + j
      invariant forall k :: k in months ==> months[k] == RevenueRow(MonthLabel(k), 0.0, 0.0)
    {
      months := months[keys[j] := RevenueRow(MonthLabel(keys[j]), 0.0, 0.0)];
      j := j + 1;
    }
  }

  /** `invoices.forEach`: each paid invoice of r adds its total to the income of its issue month, when that month is a key. */
  method AddIncome(invs: seq<Invoice>, r: DateRange, months0: map<int, RevenueRow>) returns (months: map<int, RevenueRow>)
    requires forall k :: k in months0 ==> months0[k].income == 0.0
    ensures months.Keys == months0.Keys
    ensures forall k :: k in months ==> months[k] == months0[k].(income := MonthIncome(invs, r, k))
  {
    months := months0;
    var i := 0;
    while i < |invs|
      invariant 0 <= i <= |invs|
      invariant IncomeSoFar(invs, i, r, months0, months)
    {
      months := AddInvoiceIncome(invs, i, r, months0, months);
      i := i + 1;
    }
    assert invs[..|invs|] == invs;
  }

  /** The forEach callback for invoice i: a paid invoice of r adds its total to its issue month when that month is a key. */
  method AddInvoiceIncome(invs: seq<Invoice>, i: nat, r: DateRange, months0: map<int, RevenueRow>, months: map<int, RevenueRow>)
    returns (next: map<int, RevenueRow>)
    requires i < |invs| && IncomeSoFar(invs, i, r, months0, months)
    ensures IncomeSoFar(invs, i + 1, r, months0, next)
  {
    next := months;
    var inv := invs[i];
    if inv.issueDate >= r.start && inv.issueDate <= r.end && inv.status == InvoiceStatus.Paid {
      var key := MonthOf(inv.issueDate);
      if key in next {
        IncomeCredit(invs, i, r, months0, months);
        next := next[key := next[key].(income := next[key].income + inv.total)];
      } else {
        IncomeSkip(invs, i, r, months0, months);
      }
    } else {
      IncomeSkip(invs, i, r, months0, months);
    }
  }

  /** `Object.keys(months).forEach`: every month's expenses become 40% of its income. */
  method AddExpenses(keys: seq<int>, first: int, months0: map<int, RevenueRow>) returns (months: map<int, RevenueRow>)
    requires forall t :: 0 <= t < |keys| ==> keys[t] == first + t
    requires forall k :: k in months0 <==> first <= k < first + |keys|
    ensures months.Keys == months0.Keys
    ensures forall k :: k in months ==> months[k] == months0[k].(expenses := months0[k].income * 0.4)
  {
    months := months0;
    var j := 0;
    while j < |keys|
      invariant 0 <= j <= |keys|
      invariant months.Keys == months0.Keys
      invariant forall k :: k in months ==> months[k] == if k < first + j then months0[k].(expenses := months0[k].income * 0.4) else months0[k]
    {
      var k := keys[j];
      months := months[k := months[k].(expenses := months[k].income * 0.4)];
      j := j + 1;
    }
  }

  /** generateRevenueData: zero-filled months, then income per issue month, then expenses. */
  method GenerateRevenueData(invoices: Option<seq<Invoice>>, r: DateRange) returns (rows: seq<RevenueRow>)
    ensures rows == RevenueData(invoices, r)
  {
    if invoices.None? {
      return [];
    }
    var keys := VisitMonths(r);
    VisitMonthsIsRangeMonths(r, keys);
    var first := MonthOf(r.start);
    var zeroed := InitRevenueMonths(keys, first);
    var withIncome := AddIncome(invoices.value, r, zeroed);
    var months := AddExpenses(keys, first, withIncome);
    rows := seq(|keys|, t requires 0 <= t < |keys| => months[keys[t]]);
    forall t | 0 <= t < |keys|
      ensures rows[t] == RevenueData(invoices, r)[t]
    {
      var k := keys[t];
      assert k == first + t && k in zeroed;
      assert withIncome[k] == RevenueRow(MonthLabel(k), MonthIncome(invoices.value, r, k), 0.0);
      RevenueDataAt(invoices.value, r, t);
    }
  }

  /** Row t of the revenue series belongs to the t-th month of the range. */
  lemma RevenueDataAt(invs: seq<Invoice>, r: DateRange, t: nat)
    requires t < |RangeMonths(r)|
    ensures var m := MonthOf(r.start) + t;
      RevenueData(Some(invs), r)[t] == RevenueRow(MonthLabel(m), MonthIncome(invs, r, m), MonthIncome(invs, r, m) * 0.4)
  {
    var ms := RangeMonths(r);
    assert ms[t] == MonthOf(r.start) + t;
    assert |RevenueData(Some(invs), r)| == |ms|;
  }

  /** The months object after the first i invoices: each month's income is that of those invoices. */
  ghost predicate IncomeSoFar(invs: seq<Invoice>, i: nat, r: DateRange, m0: map<int, RevenueRow>, m: map<int, RevenueRow>)
    requires i <= |invs|
  {
    m.Keys == m0.Keys && forall k :: k in m ==> m[k] == m0[k].(income := MonthIncome(invs[..i], r, k))
  }

  /** One step of AddIncome for an invoice that credits a month present in the object. */
  lemma IncomeCredit(invs: seq<Invoice>, i: nat, r: DateRange, m0: map<int, RevenueRow>, m: map<int, RevenueRow>)
    requires i < |invs| && PaidIn(r)(invs[i]) && IssueMonth(invs[i]) in m
    requires IncomeSoFar(invs, i, r, m0, m)
    ensures var key := IssueMonth(invs[i]);
      var m' := m[key := m[key].(income := m[key].income + invs[i].total)];
      IncomeSoFar(invs, i + 1, r, m0, m')
  {
    forall k | k in m
      ensures MonthIncome(invs[..i + 1], r, k) == MonthIncome(invs[..i], r, k) + if IssueMonth(invs[i]) == k then invs[i].total else 0.0
    {
      IncomeStep(invs, i, r, k);
    }
  }

  /** One step of AddIncome for an invoice that leaves the object unchanged. */
  lemma IncomeSkip(invs: seq<Invoice>, i: nat, r: DateRange, m0: map<int, RevenueRow>, m: map<int, RevenueRow>)
    requires i < |invs| && !(PaidIn(r)(invs[i]) && IssueMonth(invs[i]) in m)
    requires IncomeSoFar(invs, i, r, m0, m)
    ensures IncomeSoFar(invs, i + 1, r, m0, m)
  {
    forall k | k in m
      ensures MonthIncome(invs[..i + 1], r, k) == MonthIncome(invs[..i], r, k)
    {
      IncomeStep(invs, i, r, k);
    }
  }

  lemma IncomeStep(invs: seq<Invoice>, i: nat, r: DateRange, k: int)
    requires i < |invs|
    ensures MonthIncome(invs[..i + 1], r, k) == MonthIncome(invs[..i], r, k) +
      (if PaidIn(r)(invs[i]) && IssueMonth(invs[i]) == k then invs[i].total else 0.0)
  {
    SumOfFilterSnoc(invs, i, During(PaidIn(r), IssueMonth, k), InvoiceTotal);
  }

  /** The monthly incomes add up to the summary's total revenue. */
  lemma RevenueMatchesSummary(invoices: Option<seq<Invoice>>, r: DateRange)
    ensures SumOf(RevenueData(invoices, r), RowIncome) == TotalRevenue(invoices, r)
  {
    if invoices.Some? {
      var invs := invoices.value;
      var rows := RevenueData(invoices, r);
      var first := MonthOf(r.start);
      forall inv | inv in invs && PaidIn(r)(inv)
        ensures first <= IssueMonth(inv) < first + |rows|
      {
        RangeMonthsBounds(r, inv.issueDate);
      }
      forall i | 0 <= i < |rows|
        ensures RowIncome(rows[i]) == SumOf(Filter(invs, During(PaidIn(r), IssueMonth, first + i)), InvoiceTotal)
      {
      }
      KeyedSeriesTotal(invs, PaidIn(r), IssueMonth, InvoiceTotal, first, rows, RowIncome);
    }
  }

  /** Expenses are 40% of income in every month. */
  lemma RevenueExpenses(invoices: Option<seq<Invoice>>, r: DateRange, i: nat)
    requires i < |RevenueData(invoices, r)|
    ensures RevenueData(invoices, r)[i].expenses == RevenueData(invoices, r)[i].income * 0.4
  {
  }

  // ---------------------------------------------------------------------
  // Tracked hours per month

  datatype TimeRow = TimeRow(name: string, billable: real, nonBillable: real)

  /** The duration in hours, where a missing one reads as 0. */
  function Hours(e: TimeEntry): real
  {
    e.duration.GetOr(0.0)
  }

  /** The month an entry started in. */
  function StartMonth(e: TimeEntry): int
  {
    MonthOf(e.startTime)
  }

  function RowBillable(row: TimeRow): real
  {
    row.billable
  }

  function RowNonBillable(row: TimeRow): real
  {
    row.nonBillable
  }

  /** The entries that count as billable (or non-billable) time in r: started in r, with a non-zero duration. */
  function Tracked(r: DateRange, billable: bool): TimeEntry -> bool
  {
    (e: TimeEntry) => InRange(e.startTime, r) && TruthyReal(e.duration) && e.billable == billable
  }

  function MonthHours(entries: seq<TimeEntry>, r: DateRange, m: int, billable: bool): real
  {
    SumOf(Filter(entries, During(Tracked(r, billable), StartMonth, m)), Hours)
  }

  /** generateTimeData as a value: one row per month of the range. */
  function TimeData(entries: Option<seq<TimeEntry>>, r: DateRange): seq<TimeRow>
  {
    if entries.None? then []
    else
      var ms := RangeMonths(r);
      seq(|ms|, i requires 0 <= i < |ms| =>
        TimeRow(MonthLabel(ms[i]), MonthHours(entries.value, r, ms[i], true), MonthHours(entries.value, r, ms[i], false)))
  }

  /** The months object of generateTimeData after its initialising loop: labels and zero hours. */
  method InitTimeMonths(keys: seq<int>, first: int) returns (months: map<int, TimeRow>)
    requires forall t :: 0 <= t < |keys| ==> keys[t] == first + t
    ensures forall k :: k in months <==> first <= k < first + |keys|
    ensures forall k :: k in months ==> months[k] == TimeRow(MonthLabel(k), 0.0, 0.0)
  {
    months := map[];
    var j := 0;
    while j < |keys|
      invariant 0 <= j <= |keys|
      invariant forall k :: k in months <==> first <= k < first + j
      invariant forall k :: k in months ==> months[k] == TimeRow(MonthLabel(k), 0.0, 0.0)
    {
      months := months[keys[j] := TimeRow(MonthLabel(keys[j]), 0.0, 0.0)];
      j := j + 1;
    }
  }

  /**
   * `timeEntries.forEach`: each entry of r with a non-zero duration adds its hours to the
   * billable or the non-billable sum of its start month, when that month is a key.
   */
  method AddHours(es: seq<TimeEntry>, r: DateRange, months0: map<int, TimeRow>) returns (months: map<int, TimeRow>)
    requires forall k :: k in months0 ==> months0[k].billable == 0.0 && months0[k].nonBillable == 0.0
    ensures months.Keys == months0.Keys
    ensures forall k :: k in months ==>
      months[k] == months0[k].(billable := MonthHours(es, r, k, true), nonBillable := MonthHours(es, r, k, false))
  {
    months := months0;
    var i := 0;
    while i < |es|
      invariant 0 <= i <= |es|
      invariant HoursSoFar(es, i, r, months0, months)
    {
      months := AddEntryHours(es, i, r, months0, months);
      i := i + 1;
    }
    assert es[..|es|] == es;
  }

  /** The forEach callback for entry i: credits its hours to its start month when that month is a key. */
  method AddEntryHours(es: seq<TimeEntry>, i: nat, r: DateRange, months0: map<int, TimeRow>, months: map<int, TimeRow>)
    returns (next: map<int, TimeRow>)
    requires i < |es| && HoursSoFar(es, i, r, months0, months)
    ensures HoursSoFar(es, i + 1, r, months0, next)
  {
    next := months;
    var e := es[i];
    if e.startTime >= r.start && e.startTime <= r.end && TruthyReal(e.duration) {
      var key := MonthOf(e.startTime);
      if key in next {
        if e.billable {
          BillableCredit(es, i, r, months0, months);
          next := next[key := next[key].(billable := next[key].billable + e.duration.value)];
        } else {
          NonBillableCredit(es, i, r, months0, months);
          next := next[key := next[key].(nonBillable := next[key].nonBillable + e.duration.value)];
        }
      } else {
        HoursSkip(es, i, r, months0, months);
      }
    } else {
      HoursSkip(es, i, r, months0, months);
    }
  }

  /** generateTimeData: zero-filled months, then each entry's hours added to its start month. */
  method GenerateTimeData(entries: Option<seq<TimeEntry>>, r: DateRange) returns (rows: seq<TimeRow>)
    ensures rows == TimeData(entries, r)
  {
    if entries.None? {
      return [];
    }
    var keys := VisitMonths(r);
    VisitMonthsIsRangeMonths(r, keys);
    var first := MonthOf(r.start);
    var zeroed := InitTimeMonths(keys, first);
    var months := AddHours(entries.value, r, zeroed);
    rows := seq(|keys|, t requires 0 <= t < |keys| => months[keys[t]]);
    forall t | 0 <= t < |keys|
      ensures rows[t] == TimeData(entries, r)[t]
    {
      assert keys[t] == first + t && keys[t] in zeroed;
      TimeDataAt(entries.value, r, t);
    }
  }

  /** Row t of the time series belongs to the t-th month of the range. */
  lemma TimeDataAt(es: seq<TimeEntry>, r: DateRange, t: nat)
    requires t < |RangeMonths(r)|
    ensures var m := MonthOf(r.start) + t;
      TimeData(Some(es), r)[t] == TimeRow(MonthLabel(m), MonthHours(es, r, m, true), MonthHours(es, r, m, false))
  {
    var ms := RangeMonths(r);
    assert ms[t] == MonthOf(r.start) + t;
    assert |TimeData(Some(es), r)| == |ms|;
  }

  /** How one entry changes the hours of month k, billable or not. */
  lemma HoursStep(es: seq<TimeEntry>, i: nat, r: DateRange, k: int, b: bool)
    requires i < |es|
    ensures MonthHours(es[..i + 1], r, k, b) == MonthHours(es[..i], r, k, b) +
      (if Tracked(r, b)(es[i]) && StartMonth(es[i]) == k then Hours(es[i]) else 0.0)
  {
    SumOfFilterSnoc(es, i, During(Tracked(r, b), StartMonth, k), Hours);
  }

  /** The months object after the first i entries: each month's sums are the hours of those entries. */
  ghost predicate HoursSoFar(es: seq<TimeEntry>, i: nat, r: DateRange, m0: map<int, TimeRow>, m: map<int, TimeRow>)
    requires i <= |es|
  {
    m.Keys == m0.Keys &&
    forall k :: k in m ==>
      m[k] == m0[k].(billable := MonthHours(es[..i], r, k, true), nonBillable := MonthHours(es[..i], r, k, false))
  }

  /** One step of AddHours for a billable entry that credits a month present in the object. */
  lemma BillableCredit(es: seq<TimeEntry>, i: nat, r: DateRange, m0: map<int, TimeRow>, m: map<int, TimeRow>)
    requires i < |es| && Tracked(r, true)(es[i]) && StartMonth(es[i]) in m
    requires HoursSoFar(es, i, r, m0, m)
    ensures var key := StartMonth(es[i]);
      var m' := m[key := m[key].(billable := m[key].billable + es[i].duration.value)];
      HoursSoFar(es, i + 1, r, m0, m')
  {
    forall k | k in m
      ensures MonthHours(es[..i + 1], r, k, true) == MonthHours(es[..i], r, k, true) + if StartMonth(es[i]) == k then Hours(es[i]) else 0.0
      ensures MonthHours(es[..i + 1], r, k, false) == MonthHours(es[..i], r, k, false)
    {
      HoursStep(es, i, r, k, true);
      HoursStep(es, i, r, k, false);
    }
  }

  /** One step of AddHours for a non-billable entry that credits a month present in the object. */
  lemma NonBillableCredit(es: seq<TimeEntry>, i: nat, r: DateRange, m0: map<int, TimeRow>, m: map<int, TimeRow>)
    requires i < |es| && Tracked(r, false)(es[i]) && StartMonth(es[i]) in m
    requires HoursSoFar(es, i, r, m0, m)
    ensures var key := StartMonth(es[i]);
      var m' := m[key := m[key].(nonBillable := m[key].nonBillable + es[i].duration.value)];
      HoursSoFar(es, i + 1, r, m0, m')
  {
    forall k | k in m
      ensures MonthHours(es[..i + 1], r, k, true) == MonthHours(es[..i], r, k, true)
      ensures MonthHours(es[..i + 1], r, k, false) == MonthHours(es[..i], r, k, false) + if StartMonth(es[i]) == k then Hours(es[i]) else 0.0
    {
      HoursStep(es, i, r, k, true);
      HoursStep(es, i, r, k, false);
    }
  }

  /** One step of AddHours for an entry that leaves the object unchanged. */
  lemma HoursSkip(es: seq<TimeEntry>, i: nat, r: DateRange, m0: map<int, TimeRow>, m: map<int, TimeRow>)
    requires i < |es| && !(Tracked(r, es[i].billable)(es[i]) && StartMonth(es[i]) in m)
    requires HoursSoFar(es, i, r, m0, m)
    ensures HoursSoFar(es, i + 1, r, m0, m)
  {
    forall k | k in m
      ensures MonthHours(es[..i + 1], r, k, true) == MonthHours(es[..i], r, k, true)
      ensures MonthHours(es[..i + 1], r, k, false) == MonthHours(es[..i], r, k, false)
    {
      HoursStep(es, i, r, k, true);
      HoursStep(es, i, r, k, false);
    }
  }

  /** The monthly billable and non-billable hours add up to the summary's two totals. */
  lemma TimeMatchesSummary(entries: Option<seq<TimeEntry>>, r: DateRange)
    ensures SumOf(TimeData(entries, r), RowBillable) == TrackedHours(entries, r, true)
    ensures SumOf(TimeData(entries, r), RowNonBillable) == TrackedHours(entries, r, false)
  {
    if entries.Some? {
      var es := entries.value;
      var rows := TimeData(entries, r);
      var first := MonthOf(r.start);
      forall e, b: bool | e in es && Tracked(r, b)(e)
        ensures first <= StartMonth(e) < first + |rows|
      {
        RangeMonthsBounds(r, e.startTime);
      }
      forall i | 0 <= i < |rows|
        ensures RowBillable(rows[i]) == SumOf(Filter(es, During(Tracked(r, true), StartMonth, first + i)), Hours)
        ensures RowNonBillable(rows[i]) == SumOf(Filter(es, During(Tracked(r, false), StartMonth, first + i)), Hours)
      {
      }
      KeyedSeriesTotal(es, Tracked(r, true), StartMonth, Hours, first, rows, RowBillable);
      KeyedSeriesTotal(es, Tracked(r, false), StartMonth, Hours, first, rows, RowNonBillable);
    }
  }

  /** A month's billable plus non-billable hours are all the hours tracked in it. */
  lemma TimeRowSplit(entries: Option<seq<TimeEntry>>, r: DateRange, i: nat)
    requires i < |TimeData(entries, r)|
    ensures entries.Some?
    ensures var m := RangeMonths(r)[i];
      TimeData(entries, r)[i].billable + TimeData(entries, r)[i].nonBillable ==
      SumOf(Filter(entries.value, (e: TimeEntry) => InRange(e.startTime, r) && TruthyReal(e.duration) && MonthOf(e.startTime) == m), Hours)
  {
    var m := RangeMonths(r)[i];
    SumOfFilterSplit(entries.value, (e: TimeEntry) => InRange(e.startTime, r) && TruthyReal(e.duration) && MonthOf(e.startTime) == m,
      During(Tracked(r, true), StartMonth, m), During(Tracked(r, false), StartMonth, m), Hours);
  }

  // ---------------------------------------------------------------------
  // Summary counters

  datatype SummaryStats = SummaryStats(
    totalRevenue: real, billableHours: real, nonBillableHours: real, activeProjects: nat, activeClients: nat)

  function TotalRevenue(invoices: Option<seq<Invoice>>, r: DateRange): real
  {
    if invoices.None? then 0.0 else SumOf(Filter(invoices.value, PaidIn(r)), InvoiceTotal)
  }

  function TrackedHours(entries: Option<seq<TimeEntry>>, r: DateRange, billable: bool): real
  {
    if entries.None? then 0.0 else SumOf(Filter(entries.value, Tracked(r, billable)), Hours)
  }

  predicate IsInProgress(p: Project)
  {
    p.status == ProjectStatus.InProgress
  }

  /** The clients with at least one invoice issued in r, whatever its status. */
  function ActiveClientIds(invoices: Option<seq<Invoice>>, r: DateRange): set<int>
  {
    if invoices.None? then {} else set inv | inv in invoices.value && InRange(inv.issueDate, r) :: inv.clientId
  }

  /** calculateSummaryStats. */
  method CalculateSummaryStats(invoices: Option<seq<Invoice>>, entries: Option<seq<TimeEntry>>,
                               projects: Option<seq<Project>>, r: DateRange) returns (s: SummaryStats)
    ensures s.totalRevenue == TotalRevenue(invoices, r)
    ensures s.billableHours == TrackedHours(entries, r, true)
    ensures s.nonBillableHours == TrackedHours(entries, r, false)
    ensures s.activeProjects == if projects.None? then 0 else CountOf(projects.value, IsInProgress)
    ensures s.activeClients == |ActiveClientIds(invoices, r)|
  {
    var totalRevenue := TotalRevenue(invoices, r);
    var billableHours := 0.0;
    var nonBillableHours := 0.0;
    if entries.Some? {
      billableHours, nonBillableHours := SumTrackedHours(entries.value, r);
    }
    var activeProjects := if projects.None? then 0 else |Filter(projects.value, IsInProgress)|;
    var activeClients: set<int> := {};
    if invoices.Some? {
      activeClients := CollectActiveClients(invoices.value, r);
    }
    s := SummaryStats(totalRevenue, billableHours, nonBillableHours, activeProjects, |activeClients|);
  }

  /** The time-entry loop of calculateSummaryStats: billable and non-billable hours of the entries tracked in r. */
  method SumTrackedHours(es: seq<TimeEntry>, r: DateRange) returns (billableHours: real, nonBillableHours: real)
    ensures billableHours == SumOf(Filter(es, Tracked(r, true)), Hours)
    ensures nonBillableHours == SumOf(Filter(es, Tracked(r, false)), Hours)
  {
    billableHours := 0.0;
    nonBillableHours := 0.0;
    var i := 0;
    while i < |es|
      invariant 0 <= i <= |es|
      invariant billableHours == SumOf(Filter(es[..i], Tracked(r, true)), Hours)
      invariant nonBillableHours == SumOf(Filter(es[..i], Tracked(r, false)), Hours)
    {
      var e := es[i];
      SumOfFilterSnoc(es, i, Tracked(r, true), Hours);
      SumOfFilterSnoc(es, i, Tracked(r, false), Hours);
      if e.startTime >= r.start && e.startTime <= r.end && TruthyReal(e.duration) {
        if e.billable {
          billableHours := billableHours + e.duration.value;
        } else {
          nonBillableHours := nonBillableHours + e.duration.value;
        }
      }
      i := i + 1;
    }
    assert es[..|es|] == es;
  }

  /** The invoice loop of calculateSummaryStats: the set of client ids of the invoices issued in r. */
  method CollectActiveClients(invs: seq<Invoice>, r: DateRange) returns (activeClients: set<int>)
    ensures activeClients == ActiveClientIds(Some(invs), r)
  {
    activeClients := {};
    var i := 0;
    while i < |invs|
      invariant 0 <= i <= |invs|
      invariant activeClients == ActiveClientIds(Some(invs[..i]), r)
    {
      var inv := invs[i];
      ActiveClientsSnoc(invs, i, r);
      if inv.issueDate >= r.start && inv.issueDate <= r.end {
        activeClients := activeClients + {inv.clientId};
      }
      i := i + 1;
    }
    assert invs[..|invs|] == invs;
  }

  /** One more invoice adds its client exactly when it was issued in r. */
  lemma ActiveClientsSnoc(invs: seq<Invoice>, i: nat, r: DateRange)
    requires i < |invs|
    ensures ActiveClientIds(Some(invs[..i + 1]), r) ==
      ActiveClientIds(Some(invs[..i]), r) + (if InRange(invs[i].issueDate, r) then {invs[i].clientId} else {})
  {
    assert invs[..i + 1] == invs[..i] + [invs[i]];
  }

  /** There are never more active clients than invoices issued in the range. */
  lemma {:induction false} ActiveClientsAtMostInvoices(invs: seq<Invoice>, r: DateRange)
    ensures |ActiveClientIds(Some(invs), r)| <= |Filter(invs, (inv: Invoice) => InRange(inv.issueDate, r))|
  {
    if invs != [] {
      ActiveClientsAtMostInvoices(invs[1..], r);
      var x := invs[0];
      var rest := ActiveClientIds(Some(invs[1..]), r);
      var bound := if InRange(x.issueDate, r) then rest + {x.clientId} else rest;
      forall c | c in ActiveClientIds(Some(invs), r)
        ensures c in bound
      {
        var inv :| inv in invs && InRange(inv.issueDate, r) && inv.clientId == c;
        if inv != x {
          assert inv in invs[1..];
        }
      }
      SubsetSize(ActiveClientIds(Some(invs), r), bound);
    }
  }

  lemma SubsetSize(a: set<int>, b: set<int>)
    requires a <= b
    ensures |a| <= |b|
  {
    assert b == a + (b - a);
  }

}
