/**
 * The dashboard's recent-activity card: how many activities it shows, and
 * the icon, title and link it builds for each from the entity type and id.
 */
module RecentActivityCard {
  import opened Wrappers
  import opened Seqs
  import opened Text
  import opened Schema

  /** limitedActivities: the limit defaults to 3; a limit of 0 shows every activity. */
  function ShownActivities(activities: seq<Activity>, limit: Option<int>): (r: seq<Activity>)
    ensures limit.None? ==> r == activities[..if |activities| < 3 then |activities| else 3]
    ensures limit == Some(0) ==> r == activities
    ensures limit.Some? && limit.value > 0 ==> r == activities[..if limit.value < |activities| then limit.value else |activities|]
  {
    var n := limit.GetOr(3);
    if n != 0 then Slice(activities, Some(n)) else activities
  }

  /** The display label of the six known entity types. */
  function EntityLabel(entityType: string): Option<string>
  {
    if entityType == "invoice" then Some("Invoice")
    else if entityType == "task" then Some("Task")
    else if entityType == "client" then Some("Client")
    else if entityType == "project" then Some("Project")
    else if entityType == "contract" then Some("Contract")
    else if entityType == "event" then Some("Event")
    else None
  }

  predicate KnownType(entityType: string)
  {
    EntityLabel(entityType).Some?
  }

  /** getActivityTitle: "<Label> #<id>", or "<entityType> #<id>" for an unknown type. */
  function ActivityTitle(a: Activity): (r: string)
    ensures KnownType(a.entityType) ==> r == EntityLabel(a.entityType).value + " #" + IntToString(a.entityId)
    ensures !KnownType(a.entityType) ==> r == a.entityType + " #" + IntToString(a.entityId)
  {
    EntityLabel(a.entityType).GetOr(a.entityType) + " #" + IntToString(a.entityId)
  }

  /** Two activities on entities of the same type get the same title only when they name the same entity. */
  lemma TitleNamesEntity(a: Activity, b: Activity)
    requires a.entityType == b.entityType
    ensures ActivityTitle(a) == ActivityTitle(b) <==> a.entityId == b.entityId
  {
    var prefix := EntityLabel(a.entityType).GetOr(a.entityType) + " #";
    if ActivityTitle(a) == ActivityTitle(b) {
      assert ActivityTitle(a) == prefix + IntToString(a.entityId);
      assert IntToString(a.entityId) == ActivityTitle(a)[|prefix|..];
      assert IntToString(b.entityId) == ActivityTitle(b)[|prefix|..];
      IntToStringInjective(a.entityId, b.entityId);
    }
  }

  /** The route segment of a known type's pages. */
  function RouteOf(entityType: string): Option<string>
  {
    if entityType == "invoice" then Some("/invoices/")
    else if entityType == "task" then Some("/tasks/")
    else if entityType == "client" then Some("/clients/")
    else if entityType == "project" then Some("/projects/")
    else if entityType == "contract" then Some("/contracts/")
    else if entityType == "event" then Some("/calendar/")
    else None
  }

  /** getActivityLink: the entity's page, or "#" for an unknown type. */
  function ActivityLink(a: Activity): (r: string)
    ensures !KnownType(a.entityType) ==> r == "#"
    ensures KnownType(a.entityType) ==>
      |r| > |IntToString(a.entityId)| && r[0] == '/' && r[|r| - |IntToString(a.entityId)|..] == IntToString(a.entityId)
  {
    match RouteOf(a.entityType)
    case None => "#"
    case Some(route) => route + IntToString(a.entityId)
  }

  /** The second and third characters of a route tell the entity types apart. */
  lemma RouteKey(t: string, u: string)
    requires RouteOf(t).Some? && RouteOf(u).Some?
    requires RouteOf(t).value[1] == RouteOf(u).value[1] && RouteOf(t).value[2] == RouteOf(u).value[2]
    ensures t == u
  {
  }

  /** Activities on different known entities link to different pages. */
  lemma LinksIdentifyEntity(a: Activity, b: Activity)
    requires KnownType(a.entityType) && KnownType(b.entityType)
    requires ActivityLink(a) == ActivityLink(b)
    ensures a.entityType == b.entityType && a.entityId == b.entityId
  {
    var ra := RouteOf(a.entityType).value;
    var rb := RouteOf(b.entityType).value;
    var l := ActivityLink(a);
    assert l == ra + IntToString(a.entityId) && l == rb + IntToString(b.entityId);
    assert ra[1] == l[1] == rb[1] && ra[2] == l[2] == rb[2];
    RouteKey(a.entityType, b.entityType);
    assert IntToString(a.entityId) == l[|ra|..] == IntToString(b.entityId);
    IntToStringInjective(a.entityId, b.entityId);
  }

  datatype Glyph = Receipt | CheckSquare | Users | FolderKanban | FileText | CalendarDays

  /** The icon badge: a background colour and a glyph. */
  datatype Icon = Icon(background: string, glyph: Glyph)

  /** getActivityIcon: chosen by the entity type; the action it is passed is not looked at. */
  function ActivityIcon(entityType: string, action: string): (r: Icon)
    ensures !KnownType(entityType) ==> r == Icon("bg-gray-500", FileText)
    ensures KnownType(entityType) ==> r.background != "bg-gray-500"
  {
    if entityType == "invoice" then Icon("bg-primary-500", Receipt)
    else if entityType == "task" then Icon("bg-green-500", CheckSquare)
    else if entityType == "client" then Icon("bg-blue-500", Users)
    else if entityType == "project" then Icon("bg-yellow-500", FolderKanban)
    else if entityType == "contract" then Icon("bg-purple-500", FileText)
    else if entityType == "event" then Icon("bg-indigo-500", CalendarDays)
    else Icon("bg-gray-500", FileText)
  }

  /**
   * Two known activities get the same icon exactly when they have the same
   * entity type, whatever actions they record.
   */
  lemma IconsByTypeOnly(t: string, u: string, a: string, b: string)
    requires KnownType(t) && KnownType(u)
    ensures ActivityIcon(t, a) == ActivityIcon(u, b) <==> t == u
  {
  }
}
