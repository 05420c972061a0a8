/**
 * The calendar page: the month on display and its navigation, the events
 * of each day cell with the overflow count, the add dialog's default
 * times, the time shown for an event, the client and project names, and
 * the event form schema. Event times are instants (see module Calendar).
 */
module CalendarPage {
  import opened Wrappers
  import opened Seqs
  import opened Calendar
  import opened Schema

  // ---------------------------------------------------------------------
  // Day cells

  /** getEventsForDay: nothing before the events load, else the events starting on that day, in order. */
  function EventsForDay(events: Option<seq<Event>>, day: int): (r: seq<Event>)
    ensures events.None? ==> r == []
  {
    match events
    case None => []
    case Some(es) => Filter(es, (e: Event) => SameDay(e.startTime, day))
  }

  lemma EventsForDayMembers(es: seq<Event>, day: int, e: Event)
    ensures e in EventsForDay(Some(es), day) <==> e in es && SameDay(e.startTime, day)
  {
    FilterMembers(es, (e: Event) => SameDay(e.startTime, day));
  }

  /** An event shows in one day's cell only: cells of two different days share no event. */
  lemma EventInOneCell(es: seq<Event>, d1: int, d2: int, e: Event)
    requires e in EventsForDay(Some(es), d1) && e in EventsForDay(Some(es), d2)
    ensures SameDay(d1, d2)
  {
    EventsForDayMembers(es, d1, e);
    EventsForDayMembers(es, d2, e);
  }

  /** A day cell: the titles it lists and the "+ n more" it adds. */
  datatype Cell = Cell(listed: seq<Event>, more: Option<nat>)

  /** The first three events, then "+ n more" for the rest when there are more than three. */
  function DayCell(dayEvents: seq<Event>): (c: Cell)
    ensures c.listed <= dayEvents && |c.listed| <= 3
    ensures c.more.Some? <==> |dayEvents| > 3
    ensures |c.listed| + c.more.GetOr(0) == |dayEvents|
  {
    var listed := dayEvents[..if |dayEvents| < 3 then |dayEvents| else 3];
    Cell(listed, if |dayEvents| > 3 then Some(|dayEvents| - 3) else None)
  }

  // ---------------------------------------------------------------------
  // The add dialog

  /** The default start and end: 09:00 and 10:00 on the selected day, or today when none is selected. */
  function DefaultTimes(selectedDate: Option<int>, now: int): (r: (int, int))
    ensures var day := selectedDate.GetOr(now);
      SameDay(r.0, day) && SameDay(r.1, day) &&
      r.0 - StartOfDay(day) == 9 * HourMs && r.1 == r.0 + HourMs
  {
    var start := StartOfDay(selectedDate.GetOr(now));
    DayIndexOfDayStart(DayIndex(start), 9 * HourMs);
    DayIndexOfDayStart(DayIndex(start), 10 * HourMs);
    (start + 9 * HourMs, start + 10 * HourMs)
  }

  datatype EventFormValues = EventFormValues(
    title: string, description: Option<string>, startTime: string, endTime: string,
    allDay: Option<bool>, clientId: Option<int>, projectId: Option<int>, createdBy: Option<int>)

  /**
   * eventFormSchema: a non-empty title, start and end, and a creator id.
   * The times are only required to be non-empty text: nothing orders them.
   */
  predicate EventFormOk(v: EventFormValues)
  {
    |v.title| >= 1 && |v.startTime| >= 1 && |v.endTime| >= 1 && v.createdBy.Some?
  }

  /** An event ending an hour before it starts passes the schema. */
  lemma EndBeforeStartAccepted()
    ensures EventFormOk(EventFormValues("Meeting", None, "2024-05-02T10:00", "2024-05-02T09:00", None, None, None, Some(1)))
  {
  }

  /** handleAddEvent: the form's values with the creator replaced by the signed-in user. */
  function AddEventRequest(v: EventFormValues, userId: Option<int>): (r: EventFormValues)
    ensures r.createdBy == userId
    ensures r.(createdBy := v.createdBy) == v
  {
    v.(createdBy := userId)
  }

  // ---------------------------------------------------------------------
  // Showing an event

  datatype EventTime = AllDay | Range(start: int, end: int)

  /** formatEventTime: "All day" for an all-day event, else its start and end (the "h:mm a" text is not modelled). */
  function FormatEventTime(e: Event): (r: EventTime)
    ensures r == AllDay <==> e.allDay
    ensures r.Range? ==> r.start == e.startTime && r.end == e.endTime
  {
    if e.allDay then AllDay else Range(e.startTime, e.endTime)
  }

  /**
   * getClientName: no name for a missing (or zero) id; otherwise the
   * matching client's name, or "Unknown Client", also when the clients
   * have not loaded.
   */
  function GetClientName(clients: Option<seq<Client>>, clientId: Option<int>): (r: Option<string>)
    ensures !TruthyId(clientId) ==> r.None?
    ensures TruthyId(clientId) && clients.None? ==> r == Some("Unknown Client")
    ensures TruthyId(clientId) && clients.Some? ==>
      r == Some(ClientName(clients.value, clientId.value).GetOr("Unknown Client"))
  {
    if !TruthyId(clientId) then None
    else Some(ClientName(clients.GetOr([]), clientId.value).GetOr("Unknown Client"))
  }

  /** getProjectName: the same lookup over projects, with "Unknown Project". */
  function GetProjectName(projects: Option<seq<Project>>, projectId: Option<int>): (r: Option<string>)
    ensures !TruthyId(projectId) ==> r.None?
    ensures TruthyId(projectId) && (projects.None? || forall p :: p in projects.value ==> p.id != projectId.value) ==>
      r == Some("Unknown Project")
    ensures TruthyId(projectId) && r != Some("Unknown Project") ==>
      exists p :: p in projects.GetOr([]) && p.id == projectId.value && r == Some(p.name)
    ensures TruthyId(projectId) && projects.Some? && (exists p :: p in projects.value && p.id == projectId.value) ==>
      exists i :: 0 <= i < |projects.value| && projects.value[i].id == projectId.value &&
        r == Some(projects.value[i].name) && forall j :: 0 <= j < i ==> projects.value[j].id != projectId.value
  {
    if !TruthyId(projectId) then None
    else
      match Find(projects.GetOr([]), (p: Project) => p.id == projectId.value)
      case None => Some("Unknown Project")
      case Some(p) => Some(p.name)
  }

  // ---------------------------------------------------------------------
  // Month navigation

  /** The displayed month and the selected day. */
  class CalendarView {
    var currentMonth: int
    var selectedDate: Option<int>

    /** The page opens on the current month with no day selected. */
    constructor (now: int)
      ensures currentMonth == now && selectedDate.None?
    {
      currentMonth := now;
      selectedDate := None;
    }

    /** The month the grid shows. */
    function DisplayedMonth(): int
      reads this
    {
      MonthOf(currentMonth)
    }

    /** prevMonth: one month back. */
    method PrevMonth()
      modifies this
      ensures DisplayedMonth() == old(DisplayedMonth()) - 1
      ensures selectedDate == old(selectedDate)
    {
      currentMonth := SubMonths(currentMonth, 1);
    }

    /** nextMonth: one month forward. */
    method NextMonth()
      modifies this
      ensures DisplayedMonth() == old(DisplayedMonth()) + 1
      ensures selectedDate == old(selectedDate)
    {
      currentMonth := SubMonths(currentMonth, -1);
    }

    /** goToToday: back to the month of now. */
    method GoToToday(now: int)
      modifies this
      ensures DisplayedMonth() == MonthOf(now)
      ensures selectedDate == old(selectedDate)
    {
      currentMonth := now;
    }

    /** openAddEventDialog: selects the day, which moves the form's default times onto it. */
    method OpenAddEventDialog(day: int)
      modifies this
      ensures selectedDate == Some(day) && currentMonth == old(currentMonth)
    {
      selectedDate := Some(day);
    }
  }

  /** Going forward a month and back again shows the month shown before. */
  method NextThenPrev(view: CalendarView)
    modifies view
    ensures view.DisplayedMonth() == old(view.DisplayedMonth())
  {
    view.NextMonth();
    view.PrevMonth();
  }
}
