/**
 * The time-tracker page: the running timer as a small state machine, the
 * clock formatting of elapsed seconds, the entry-list filter and the totals
 * row. Requests to the server are modelled by their payloads and by a
 * success/failure input; "now" is a parameter.
 */
module TimeTracker {
  import opened Wrappers
  import opened Seqs
  import opened Text
  import opened Calendar
  import opened Schema

  // ---------------------------------------------------------------------
  // Formatting

  /** `String(n).padStart(2, '0')` for any integer. */
  function PadInt(n: int): string
  {
    PadStart(IntToString(n), 2, '0')
  }

  /** formatDuration: seconds as `HH:MM:SS`. */
  function FormatDuration(seconds: int): string
  {
    var hours := seconds / 3600;                 // Math.floor
    var minutes := JsRem(seconds, 3600) / 60;    // Math.floor of a truncated remainder
    var rest := JsRem(seconds, 60);
    PadInt(hours) + ":" + PadInt(minutes) + ":" + PadInt(rest)
  }

  /** For a whole non-negative number the padded text is Pad2's. */
  lemma PadIntNat(n: int)
    requires n >= 0
    ensures PadInt(n) == Pad2(n)
  {
  }

  lemma DigitsHaveNoColon(s: string)
    requires AllDigits(s)
    ensures ':' !in s
  {
    forall i | 0 <= i < |s|
      ensures s[i] != ':'
    {
      assert IsDigit(s[i]);
    }
  }

  /** Three runs of digits joined by colons split back into those three runs. */
  lemma ClockSplit(a: string, b: string, c: string)
    requires AllDigits(a) && AllDigits(b) && AllDigits(c)
    ensures Split(a + ":" + b + ":" + c, ':') == [a, b, c]
  {
    DigitsHaveNoColon(a);
    DigitsHaveNoColon(b);
    DigitsHaveNoColon(c);
    assert a + ":" + b + ":" + c == a + [':'] + (b + [':'] + c);
    SplitConcat(a, ':', b + [':'] + c);
    SplitConcat(b, ':', c);
    SplitNoSeparator(c, ':');
  }

  /** Hours, minutes and seconds of a non-negative count. */
  lemma ClockArithmetic(seconds: int)
    requires seconds >= 0
    ensures (seconds % 3600) / 60 < 60
    ensures 3600 * (seconds / 3600) + 60 * ((seconds % 3600) / 60) + seconds % 60 == seconds
  {
    var h, r := seconds / 3600, seconds % 3600;
    assert seconds == 3600 * h + r;
    assert r == 60 * (r / 60) + r % 60;
    assert r % 60 == seconds % 60 by {
      assert seconds == 60 * (60 * h + r / 60) + r % 60;
    }
  }

  /** formatDuration of a non-negative count, field by field. */
  lemma FormatDurationNat(seconds: int)
    requires seconds >= 0
    ensures FormatDuration(seconds) == Pad2(seconds / 3600) + ":" + Pad2((seconds % 3600) / 60) + ":" + Pad2(seconds % 60)
  {
    PadIntNat(seconds / 3600);
    PadIntNat((seconds % 3600) / 60);
    PadIntNat(seconds % 60);
  }

  /**
   * For a non-negative count of seconds the text has exactly three
   * colon-separated fields of at least two digits each, minutes and seconds
   * are below 60, and the fields recombine to the count.
   */
  lemma FormatDurationFields(seconds: int)
    requires seconds >= 0
    ensures var parts := Split(FormatDuration(seconds), ':');
      |parts| == 3 && (forall i :: 0 <= i < 3 ==> |parts[i]| >= 2 && AllDigits(parts[i])) &&
      ParseNat(parts[1]) < 60 && ParseNat(parts[2]) < 60 &&
      3600 * ParseNat(parts[0]) + 60 * ParseNat(parts[1]) + ParseNat(parts[2]) == seconds
  {
    var h, m, r := seconds / 3600, (seconds % 3600) / 60, seconds % 60;
    FormatDurationNat(seconds);
    ClockSplit(Pad2(h), Pad2(m), Pad2(r));
    ClockArithmetic(seconds);
  }

  /** JavaScript's `a % b` on numbers: the dividend minus whole divisors toward zero. */
  function RealRem(a: real, b: real): real
    requires b > 0.0
  {
    var q := a / b;
    var t := if q >= 0.0 then q.Floor else -((-q).Floor);
    a - b * (t as real)
  }

  /** formatDurationForDisplay: hours and minutes of a count of seconds; null or 0 give "00:00". */
  function FormatDurationForDisplay(seconds: Option<real>): string
  {
    if !TruthyReal(seconds) then "00:00"
    else
      var s := seconds.value;
      var hours := (s / 3600.0).Floor;
      var minutes := (RealRem(s, 3600.0) / 60.0).Floor;
      PadInt(hours) + ":" + PadInt(minutes)
  }

  lemma FloorOfQuotient(s: nat, d: nat)
    requires d > 0
    ensures (s as real / d as real).Floor == s / d
  {
    var q, r := s / d, s % d;
    assert s as real == (q * d) as real + r as real;
    assert s as real / d as real == q as real + r as real / d as real;
  }

  /** The remainder of whole numbers is the same in JavaScript's number arithmetic. */
  lemma RealRemWhole(s: nat, d: nat)
    requires d > 0
    ensures RealRem(s as real, d as real) == (s % d) as real
  {
    FloorOfQuotient(s, d);
    assert s as real == (s / d) as real * d as real + (s % d) as real;
  }

  /** The display of a whole positive count, field by field. */
  lemma DisplayOfWhole(seconds: int)
    requires seconds > 0
    ensures FormatDurationForDisplay(Some(seconds as real)) == Pad2(seconds / 3600) + ":" + Pad2((seconds % 3600) / 60)
  {
    var h := seconds / 3600;
    var rest := seconds % 3600;
    FloorOfQuotient(seconds, 3600);
    RealRemWhole(seconds, 3600);
    FloorOfQuotient(rest, 60);
    DisplayFields(seconds as real, h, rest / 60);
    PadIntNat(h);
    PadIntNat(rest / 60);
  }

  lemma DisplayFields(s: real, h: int, m: int)
    requires s > 0.0 && (s / 3600.0).Floor == h && (RealRem(s, 3600.0) / 60.0).Floor == m
    ensures FormatDurationForDisplay(Some(s)) == PadInt(h) + ":" + PadInt(m)
  {
  }

  /**
   * For a whole positive number of seconds the table's display is the
   * clock text without its seconds field.
   */
  lemma DisplayDropsSeconds(seconds: int)
    requires seconds > 0
    ensures FormatDuration(seconds) == FormatDurationForDisplay(Some(seconds as real)) + ":" + Pad2(seconds % 60)
  {
    FormatDurationNat(seconds);
    DisplayOfWhole(seconds);
  }

  /** Zero seconds and null both read as "00:00". */
  lemma DisplayOfNothing()
    ensures FormatDurationForDisplay(None) == "00:00"
    ensures FormatDurationForDisplay(Some(0.0)) == "00:00"
  {
  }

  // ---------------------------------------------------------------------
  // Manual entries and totals

  /** The duration sent for a manual entry: whole seconds between the two times, in hours; end may precede start. */
  function ManualDuration(start: int, end: int): (hours: real)
    ensures end >= start ==> hours >= 0.0
    ensures end <= start - SecondMs ==> hours < 0.0
  {
    DifferenceInSeconds(end, start) as real / 3600.0
  }

  /** Between instants a whole number of seconds apart, the duration times 3600 is that number of seconds. */
  lemma ManualDurationSeconds(start: int, end: int, n: int)
    requires end - start == n * SecondMs
    ensures ManualDuration(start, end) * 3600.0 == n as real
  {
    if n >= 0 {
      assert (end - start) / SecondMs == n;
    } else {
      assert (start - end) / SecondMs == -n;
    }
  }

  /** One entry's contribution to the total, in seconds: duration × 3600 when the duration is truthy. */
  function EntrySeconds(e: TimeEntry): real
  {
    if TruthyReal(e.duration) then e.duration.value * 3600.0 else 0.0
  }

  /** calculateTotalHours: the shown entries' durations summed, as hours and minutes. */
  function TotalHours(shown: Option<seq<TimeEntry>>): string
  {
    if shown.None? || |shown.value| == 0 then "00:00"
    else FormatDurationForDisplay(Some(SumOf(shown.value, EntrySeconds)))
  }

  /** Only entries with a duration count: dropping the ones without changes nothing. */
  lemma TotalIgnoresOpenEntries(shown: seq<TimeEntry>)
    ensures TotalHours(Some(shown)) == TotalHours(Some(Filter(shown, (e: TimeEntry) => TruthyReal(e.duration))))
  {
    SumOfFilter(shown, (e: TimeEntry) => TruthyReal(e.duration), EntrySeconds);
    if |shown| > 0 && |Filter(shown, (e: TimeEntry) => TruthyReal(e.duration))| == 0 {
      // no entry has a duration: the sum is 0, shown as "00:00" like the empty list
      assert SumOf(shown, EntrySeconds) == 0.0;
    }
  }

  // ---------------------------------------------------------------------
  // The entry list

  /** The date filters, relative to now (weeks start on Sunday). */
  predicate MatchesDate(dateFilter: string, start: int, now: int)
  {
    dateFilter == "all" ||
    (dateFilter == "today" && SameDay(start, now)) ||
    (dateFilter == "yesterday" && DayIndex(start) == DayIndex(now) - 1) ||
    (dateFilter == "this-week" && start >= StartOfWeek(now)) ||
    (dateFilter == "this-month" && MonthOf(start) == MonthOf(now))
  }

  /** The search test as written: its `|| true` makes it hold for every entry. */
  predicate MatchesSearch(e: TimeEntry, query: string)
  {
    (e.description.Some? && ContainsIgnoringCase(e.description.value, query)) || true
  }

  /** One entry against the tab, the date filter and the search. */
  predicate Shown(e: TimeEntry, tab: string, dateFilter: string, query: string, now: int)
  {
    if tab == "all" then MatchesSearch(e, query) && MatchesDate(dateFilter, e.startTime, now)
    else if tab == "running" then MatchesSearch(e, query) && e.endTime.None?
    else if tab == "billable" then MatchesSearch(e, query) && MatchesDate(dateFilter, e.startTime, now) && e.billable
    else if tab == "non-billable" then MatchesSearch(e, query) && MatchesDate(dateFilter, e.startTime, now) && !e.billable
    else MatchesSearch(e, query) && MatchesDate(dateFilter, e.startTime, now)
  }

  /** filteredTimeEntries: undefined until the entries are loaded. */
  function FilteredTimeEntries(entries: Option<seq<TimeEntry>>, tab: string, dateFilter: string, query: string, now: int): (r: Option<seq<TimeEntry>>)
  {
    match entries
    case None => None
    case Some(es) => Some(Filter(es, (e: TimeEntry) => Shown(e, tab, dateFilter, query, now)))
  }

  /**
   * Whatever the search text, an entry is listed exactly when the tab and,
   * except on the running tab, the date filter keep it; the running tab
   * keeps the entries without an end time, the billable tabs split on the
   * flag, and any other tab behaves like "all".
   */
  lemma FilterIgnoresSearch(es: seq<TimeEntry>, tab: string, dateFilter: string, query: string, now: int, e: TimeEntry)
    ensures var r := FilteredTimeEntries(Some(es), tab, dateFilter, query, now).value;
      var dated := MatchesDate(dateFilter, e.startTime, now) &&
        (tab == "billable" ==> e.billable) && (tab == "non-billable" ==> !e.billable);
      var keeps := if tab == "running" then e.endTime.None? else dated;
      e in r <==> e in es && keeps
  {
    FilterMembers(es, (e: TimeEntry) => Shown(e, tab, dateFilter, query, now));
  }

  /** Two searches list the same entries. */
  lemma SearchNeverNarrows(es: seq<TimeEntry>, tab: string, dateFilter: string, q1: string, q2: string, now: int)
    ensures FilteredTimeEntries(Some(es), tab, dateFilter, q1, now) == FilteredTimeEntries(Some(es), tab, dateFilter, q2, now)
  {
    FilterCongruent(es, (e: TimeEntry) => Shown(e, tab, dateFilter, q1, now), (e: TimeEntry) => Shown(e, tab, dateFilter, q2, now));
  }

  /** The billable and non-billable tabs split the date-filtered entries between them. */
  lemma BillableTabsSplit(es: seq<TimeEntry>, dateFilter: string, query: string, now: int)
    ensures |FilteredTimeEntries(Some(es), "billable", dateFilter, query, now).value| +
            |FilteredTimeEntries(Some(es), "non-billable", dateFilter, query, now).value| ==
            |FilteredTimeEntries(Some(es), "all", dateFilter, query, now).value|
  {
    var p := (e: TimeEntry) => Shown(e, "billable", dateFilter, query, now);
    var q := (e: TimeEntry) => Shown(e, "non-billable", dateFilter, query, now);
    var all := (e: TimeEntry) => Shown(e, "all", dateFilter, query, now);
    var cnt := (e: TimeEntry) => 1.0;
    SumOfFilterSplit(es, all, p, q, cnt);
  }

  // ---------------------------------------------------------------------
  // The timer

  /** The body of the POST that starts a timer. */
  datatype StartRequest = StartRequest(
    userId: Option<int>, description: string, projectId: Option<int>, taskId: Option<int>,
    startTime: int, billable: bool)

  /** The body of the PUT that stops a timer, sent to the active entry's id. */
  datatype StopRequest = StopRequest(
    entryId: int, endTime: int, duration: real, description: string,
    projectId: Option<int>, taskId: Option<int>, billable: bool)

  /** The first entry the resume effect takes up: no end time, and the current user's. */
  function OpenEntry(entries: seq<TimeEntry>, userId: Option<int>): (r: Option<TimeEntry>)
    ensures r.Some? ==> r.value in entries && r.value.endTime.None? && userId == Some(r.value.userId)
    ensures r.Some? ==>
      exists i :: 0 <= i < |entries| && entries[i] == r.value &&
        forall j :: 0 <= j < i ==> entries[j].endTime.Some? || userId != Some(entries[j].userId)
    ensures r.None? ==> forall e :: e in entries ==> e.endTime.Some? || userId != Some(e.userId)
  {
    Find(entries, (e: TimeEntry) => e.endTime.None? && userId == Some(e.userId))
  }

  /** `x || undefined` for an optional id. */
  function IdOrUndefined(id: Option<int>): (r: Option<int>)
    ensures r.Some? <==> TruthyId(id)
    ensures r.Some? ==> r == id
  {
    if TruthyId(id) then id else None
  }

  class Timer {
    var running: bool
    var elapsed: int
    var active: Option<TimeEntry>
    /** timerStartRef. */
    var startedAt: Option<int>
    /** Whether an interval is scheduled (timerIntervalRef is set). */
    var ticking: bool
    var description: string
    var project: Option<int>
    var task: Option<int>
    var billable: bool

    /**
     * The timer runs exactly while it has an active entry, and ticks
     * exactly while it runs.
     */
    predicate Valid()
      reads this
    {
      (running <==> active.Some?) && (ticking <==> running)
    }

    /** The page's initial timer state. */
    constructor ()
      ensures Valid()
      ensures !running && elapsed == 0 && active.None? && startedAt.None? && !ticking
      ensures description == "" && project.None? && task.None? && billable
    {
      running, elapsed, active, startedAt, ticking := false, 0, None, None, false;
      description, project, task, billable := "", None, None, true;
    }

    /**
     * startTimer: posts an open entry built from the timer fields; only on
     * success (created is the new entry) does the timer start, from zero.
     * A failed request changes nothing.
     */
    method StartTimer(userId: Option<int>, now: int, created: Option<TimeEntry>) returns (req: StartRequest)
      requires Valid()
      modifies this
      ensures Valid()
      ensures req == StartRequest(userId, description, project, task, now, billable)
      ensures created.None? ==> unchanged(this)
      ensures created.Some? ==>
        running && elapsed == 0 && active == created && startedAt == Some(now) && ticking &&
        description == old(description) && project == old(project) && task == old(task) && billable == old(billable)
    {
      req := StartRequest(userId, description, project, task, now, billable);
      if created.Some? {
        active := created;
        running := true;
        elapsed := 0;
        startedAt := Some(now);
        ticking := true;
      }
    }

    /** One second of the interval: the count goes up by exactly one while an interval is scheduled. */
    method Tick()
      requires Valid()
      modifies this
      ensures Valid()
      ensures elapsed == if old(ticking) then old(elapsed) + 1 else old(elapsed)
      ensures running == old(running) && active == old(active) && ticking == old(ticking)
      ensures startedAt == old(startedAt) && description == old(description)
      ensures project == old(project) && task == old(task) && billable == old(billable)
    {
      if ticking {
        elapsed := elapsed + 1;
      }
    }

    /**
     * stopTimer: without an active entry nothing is sent and nothing
     * changes. Otherwise the entry is closed now with the elapsed time in
     * hours; on success the timer is reset and the interval cleared, on
     * failure it keeps running as it was.
     */
    method StopTimer(now: int, ok: bool) returns (req: Option<StopRequest>)
      requires Valid()
      modifies this
      ensures Valid()
      ensures old(active).None? ==> req.None? && unchanged(this)
      ensures old(active).Some? ==>
        req == Some(StopRequest(old(active).value.id, now, old(elapsed) as real / 3600.0,
                                old(description), old(project), old(task), old(billable)))
      ensures old(active).Some? && !ok ==> unchanged(this)
      ensures old(active).Some? && ok ==>
        !running && elapsed == 0 && active.None? && !ticking &&
        startedAt == old(startedAt) && description == old(description) &&
        project == old(project) && task == old(task) && billable == old(billable)
    {
      if active.None? {
        return None;
      }
      req := Some(StopRequest(active.value.id, now, elapsed as real / 3600.0, description, project, task, billable));
      if ok {
        running := false;
        elapsed := 0;
        active := None;
        ticking := false;
      }
    }

    /**
     * The resume effect: when the fetched entries hold an open entry of
     * the current user, the first one becomes the active entry, the timer
     * fields take its values and the count restarts from the whole seconds
     * since it started.
     */
    method Resume(entries: Option<seq<TimeEntry>>, userId: Option<int>, now: int)
      requires Valid()
      modifies this
      ensures Valid()
      ensures entries.None? || OpenEntry(entries.value, userId).None? ==> unchanged(this)
      ensures entries.Some? && OpenEntry(entries.value, userId).Some? ==>
        var e := OpenEntry(entries.value, userId).value;
        active == Some(e) && running && ticking &&
        elapsed == DifferenceInSeconds(now, e.startTime) && startedAt == Some(e.startTime) &&
        description == (if e.description.Some? then e.description.value else "") &&
        project == IdOrUndefined(e.projectId) && task == IdOrUndefined(e.taskId) && billable == e.billable
    {
      if entries.None? {
        return;
      }
      var found := OpenEntry(entries.value, userId);
      if found.Some? {
        var e := found.value;
        active := found;
        running := true;
        description := if e.description.Some? then e.description.value else "";
        project := IdOrUndefined(e.projectId);
        task := IdOrUndefined(e.taskId);
        billable := e.billable;
        elapsed := DifferenceInSeconds(now, e.startTime);
        startedAt := Some(e.startTime);
        ticking := true;
      }
    }
  }

  /**
   * A successful start followed by n ticks and a successful stop sends a
   * duration of n/3600 hours and leaves the timer idle.
   */
  method StartTickStop(t: Timer, userId: Option<int>, created: TimeEntry, n: nat, start: int, end: int) returns (req: Option<StopRequest>)
    requires t.Valid()
    modifies t
    ensures t.Valid() && !t.running && t.elapsed == 0 && t.active.None?
    ensures req.Some? && req.value.entryId == created.id && req.value.duration * 3600.0 == n as real
  {
    var started := t.StartTimer(userId, start, Some(created));
    var i := 0;
    while i < n
      invariant 0 <= i <= n
      invariant t.Valid() && t.ticking && t.elapsed == i && t.active == Some(created)
    {
      t.Tick();
      i := i + 1;
    }
    req := t.StopTimer(end, true);
  }
}
