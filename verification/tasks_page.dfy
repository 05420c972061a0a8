/**
 * The tasks page: the priority filter over the "all" and "my" tabs, the
 * completed tab, the task form schema, its defaults and the request the
 * add dialog sends.
 */
module TasksPage {
  import opened Wrappers
  import opened Seqs
  import opened Schema

  function PriorityName(p: Priority): string
  {
    match p
    case Low => "low"
    case Medium => "medium"
    case High => "high"
  }

  /** The priority filter's test on one task. */
  predicate PriorityShown(t: Task, priorityFilter: string)
  {
    priorityFilter == "all" || PriorityName(t.priority) == priorityFilter
  }

  /** getFilteredTasks: nothing before the list is loaded, else the tasks passing the priority filter. */
  function GetFilteredTasks(taskList: Option<seq<Task>>, priorityFilter: string): (r: seq<Task>)
    ensures taskList.None? ==> r == []
  {
    match taskList
    case None => []
    case Some(ts) => Filter(ts, (t: Task) => PriorityShown(t, priorityFilter))
  }

  /** The "all" filter leaves the list as it is. */
  lemma AllPrioritiesKeepList(ts: seq<Task>)
    ensures GetFilteredTasks(Some(ts), "all") == ts
  {
    FilterAll(ts, (t: Task) => PriorityShown(t, "all"));
  }

  /** Any other filter keeps exactly the tasks of that priority; an unknown one keeps none. */
  lemma PriorityFilterMembers(ts: seq<Task>, priorityFilter: string, t: Task)
    requires priorityFilter != "all"
    ensures t in GetFilteredTasks(Some(ts), priorityFilter) <==> t in ts && PriorityName(t.priority) == priorityFilter
  {
    FilterMembers(ts, (t: Task) => PriorityShown(t, priorityFilter));
  }

  /** The completed tab: the loaded tasks whose status is completed, whatever the priority filter. */
  function CompletedTab(tasks: Option<seq<Task>>): seq<Task>
  {
    Filter(tasks.GetOr([]), (t: Task) => t.status == TaskStatus.Completed)
  }

  lemma CompletedTabMembers(tasks: Option<seq<Task>>, t: Task)
    ensures t in CompletedTab(tasks) <==> tasks.Some? && t in tasks.value && t.status == TaskStatus.Completed
  {
    FilterMembers(tasks.GetOr([]), (t: Task) => t.status == TaskStatus.Completed);
  }

  // ---------------------------------------------------------------------
  // The form

  /** The form's values; the due date stays the text of the date input. */
  datatype TaskFormValues = TaskFormValues(
    title: string, description: Option<string>, projectId: Option<int>, assignedTo: Option<int>,
    status: TaskStatus, priority: Priority, dueDate: Option<string>, estimatedHours: Option<real>,
    createdBy: Option<int>)

  /** taskFormSchema: a non-empty title, estimated hours not negative when given, and a creator id. */
  predicate TaskFormOk(v: TaskFormValues)
  {
    |v.title| >= 1 && (v.estimatedHours.Some? ==> v.estimatedHours.value >= 0.0) && v.createdBy.Some?
  }

  /** The add dialog's defaults: a to-do of medium priority assigned to and created by the signed-in user. */
  function AddFormDefaults(userId: Option<int>): (v: TaskFormValues)
    ensures v.status == TaskStatus.Todo && v.priority == Priority.Medium
    ensures v.assignedTo == userId && v.createdBy == userId
    ensures v.title == "" && v.projectId.None? && v.dueDate.None? && v.estimatedHours.None?
  {
    TaskFormValues("", Some(""), None, userId, TaskStatus.Todo, Priority.Medium, None, None, userId)
  }

  /** Starting from the defaults, giving a title makes the form valid exactly when a user is signed in. */
  lemma DefaultsNeedTitleAndUser(userId: Option<int>, title: string)
    ensures !TaskFormOk(AddFormDefaults(userId))
    ensures TaskFormOk(AddFormDefaults(userId).(title := title)) <==> |title| >= 1 && userId.Some?
  {
  }

  /** handleAddTask: the form's values with the creator replaced by the signed-in user. */
  function AddTaskRequest(v: TaskFormValues, userId: Option<int>): (r: TaskFormValues)
    ensures r.createdBy == userId
    ensures r.(createdBy := v.createdBy) == v
  {
    v.(createdBy := userId)
  }
}
