/**
 * The dashboard's task-list card: the optional limit, the due-date label,
 * the status a checkbox toggle sends, and the priority badge class.
 */
module TaskListCard {
  import opened Wrappers
  import opened Seqs
  import opened Calendar
  import Records
  import Routes

  /**
   * filteredTasks: a truthy limit slices, an absent or zero limit shows
   * every task. The priority filter the card's menu sets is taken as an
   * argument and never consulted.
   */
  function ShownTasks<T>(tasks: seq<T>, limit: Option<int>, priorityFilter: Option<string>): (r: seq<T>)
    ensures limit.None? || limit == Some(0) ==> r == tasks
    ensures limit.Some? && limit.value > 0 ==> r == tasks[..if limit.value < |tasks| then limit.value else |tasks|]
    ensures limit.Some? && limit.value < 0 ==> r == tasks[..SliceEnd(|tasks|, limit.value)]
  {
    if limit.Some? && limit.value != 0 then Slice(tasks, limit) else tasks
  }

  // ---------------------------------------------------------------------
  // Due dates

  /** The label formatDueDate produces; the "MMM d" text is left as the instant. */
  datatype DueLabel = NoDueDate | DueToday | DueTomorrow | Overdue(date: int) | DueOn(date: int)

  /** formatDueDate: no date, then today, then tomorrow, then past, else future. */
  function FormatDueDate(dueDate: Option<int>, now: int): DueLabel
  {
    match dueDate
    case None => NoDueDate
    case Some(d) =>
      if SameDay(d, now) then DueToday
      else if SameDay(d, now + DayMs) then DueTomorrow
      else if d < now then Overdue(d)
      else DueOn(d)
  }

  /** Instants on a later day are later. */
  lemma LaterDayLater(a: int, b: int)
    requires DayIndex(a) < DayIndex(b)
    ensures a < b
  {
    assert DayIndex(a) * DayMs <= a < (DayIndex(a) + 1) * DayMs;
    assert DayIndex(b) * DayMs <= b;
    assert (DayIndex(a) + 1) * DayMs <= DayIndex(b) * DayMs;
  }

  /**
   * Because "today" is checked first, the labels are decided by calendar
   * day alone: a time earlier today is due today, not overdue; only an
   * earlier day is overdue; only a day after tomorrow is "Due <date>".
   */
  lemma DueLabelByDay(dueDate: Option<int>, now: int)
    ensures var r := FormatDueDate(dueDate, now);
      (r == NoDueDate <==> dueDate.None?) &&
      (r == DueToday <==> dueDate.Some? && DayIndex(dueDate.value) == DayIndex(now)) &&
      (r == DueTomorrow <==> dueDate.Some? && DayIndex(dueDate.value) == DayIndex(now) + 1) &&
      (r.Overdue? <==> dueDate.Some? && DayIndex(dueDate.value) < DayIndex(now)) &&
      (r.DueOn? <==> dueDate.Some? && DayIndex(dueDate.value) > DayIndex(now) + 1)
  {
    assert DayIndex(now + DayMs) == DayIndex(now) + 1;
    if dueDate.Some? {
      var d := dueDate.value;
      if DayIndex(d) < DayIndex(now) {
        LaterDayLater(d, now);
      } else if DayIndex(d) > DayIndex(now) {
        LaterDayLater(now, d);
      }
    }
  }

  // ---------------------------------------------------------------------
  // Toggling and badges

  /** handleTaskToggle's request body: "completed" when checked, "todo" when unchecked. */
  function TogglePayload(completed: bool): (p: Records.Record)
    ensures p.Keys == {"status"}
    ensures completed <==> p["status"] == Records.Str("completed")
    ensures !completed <==> p["status"] == Records.Str("todo")
  {
    map["status" := Records.Str(if completed then "completed" else "todo")]
  }

  /**
   * On the server, ticking a task stamps completedAt exactly when the
   * stored task has none yet; unticking sends the status alone, so a
   * stored completion time is kept.
   */
  lemma ToggleOnServer(completed: bool, stored: Records.Record, now: int)
    ensures var r := Routes.PutTaskData(TogglePayload(completed), Some(stored), now);
      ("completedAt" in r <==> completed && !Records.Truthy(Records.Get(stored, "completedAt"))) &&
      (!completed ==> r == TogglePayload(false))
  {
    Routes.PutTaskCompletion(TogglePayload(completed), Some(stored), now);
  }

  /** getPriorityClass. */
  function PriorityClass(priority: string): (r: string)
    ensures priority != "high" && priority != "medium" && priority != "low" ==> r == "bg-gray-100 text-gray-800"
  {
    if priority == "high" then "bg-yellow-100 text-yellow-800"
    else if priority == "medium" then "bg-green-100 text-green-800"
    else if priority == "low" then "bg-blue-100 text-blue-800"
    else "bg-gray-100 text-gray-800"
  }

  /** The three known priorities get three different badges, none of them the default grey. */
  lemma PriorityClassesDistinct(p: string, q: string)
    requires p in {"high", "medium", "low"} && q in {"high", "medium", "low"}
    ensures PriorityClass(p) == PriorityClass(q) <==> p == q
    ensures PriorityClass(p) != "bg-gray-100 text-gray-800"
  {
  }
}
