/**
 * The business rules of the HTTP handlers in server/routes.ts. A handler
 * first validates the body (`body` is the validated data, None when the
 * schema rejects it), then may rewrite it before the write. The handlers are
 * modelled against the in-memory storage of module Storage; the extra patch
 * rewriting of the live database storage is modelled in module DbStorage and
 * composed with the route rules in lemmas below. Responses carry their
 * status as the variant and the JSON body as a record.
 */
module Routes {
  import opened Wrappers
  import opened Seqs
  import opened Calendar
  import opened Records
  import opened Storage
  import DbStorage

  datatype Response =
    | BadRequest(message: string)   // 400
    | NotFound(message: string)     // 404
    | Created(row: Record)          // 201
    | Done(row: Record)             // 200
    | Listed(rows: seq<Record>)     // 200

  // ---------------------------------------------------------------------
  // Payload rewriting

  /** `(end - start) / (1000 * 60 * 60)`: the hours between two instants. */
  function HoursBetween(start: Value, end: Value): real
  {
    (Instant(end) - Instant(start)) as real / (HourMs as real)
  }

  /** POST time entry: with an end time the duration is derived from the two instants. */
  function PostTimeEntryData(data: Record): Record
  {
    if Truthy(Get(data, "endTime")) then data["duration" := Num(HoursBetween(Get(data, "startTime"), Get(data, "endTime")))]
    else data
  }

  /**
   * With an end time the duration is the elapsed time in hours, whatever
   * duration the body carried, and nothing else changes; without one the
   * body is kept as sent.
   */
  lemma PostTimeEntryDuration(data: Record)
    ensures var r := PostTimeEntryData(data);
      (Truthy(Get(data, "endTime")) ==>
        Get(r, "duration").Num? &&
        Get(r, "duration").n * 3600000.0 == (Instant(Get(data, "endTime")) - Instant(Get(data, "startTime"))) as real &&
        forall f :: f != "duration" ==> Get(r, f) == Get(data, f)) &&
      (!Truthy(Get(data, "endTime")) ==> r == data)
  {
  }

  /**
   * PUT time entry: with an end time and a stored entry, the duration runs
   * from the patch's start time, or the stored one when the patch has none.
   */
  function PutTimeEntryData(data: Record, stored: Option<Record>): Record
  {
    if Truthy(Get(data, "endTime")) && stored.Some? then
      var start := Or(Get(data, "startTime"), Get(stored.value, "startTime"));
      data["duration" := Num(HoursBetween(start, Get(data, "endTime")))]
    else data
  }

  /** The start of the derived duration is the patch's when it has one, else the stored entry's. */
  lemma PutTimeEntryStart(data: Record, stored: Option<Record>)
    ensures stored.None? ==> PutTimeEntryData(data, stored) == data
    ensures stored.Some? && Truthy(Get(data, "endTime")) ==>
      var start := if Truthy(Get(data, "startTime")) then Get(data, "startTime") else Get(stored.value, "startTime");
      Get(PutTimeEntryData(data, stored), "duration") == Num(HoursBetween(start, Get(data, "endTime")))
  {
  }

  /** PUT task: completing a stored task that has no completion time stamps one. */
  function PutTaskData(data: Record, stored: Option<Record>, now: int): Record
  {
    if stored.Some? && !Truthy(Get(stored.value, "completedAt")) && Get(data, "status") == Str("completed") then
      data["completedAt" := Time(now)]
    else data
  }

  /**
   * completedAt is added exactly when a stored, not yet completed task is
   * completed; the rule never removes or clears it, so reopening a task
   * keeps its completion time.
   */
  lemma PutTaskCompletion(data: Record, stored: Option<Record>, now: int)
    requires "completedAt" !in data
    ensures var r := PutTaskData(data, stored, now);
      ("completedAt" in r <==>
         stored.Some? && !Truthy(Get(stored.value, "completedAt")) && Get(data, "status") == Str("completed")) &&
      (forall f :: f != "completedAt" ==> Get(r, f) == Get(data, f))
  {
  }

  /**
   * `insertInvoiceSchema.partial().safeParse(body).data`: the schema omits
   * id, createdAt and paidAt, so a parsed patch never carries them; every
   * other property passes through.
   */
  function InvoicePatch(body: Record): (r: Record)
    ensures "id" !in r && "createdAt" !in r && "paidAt" !in r
    ensures forall f :: f !in {"id", "createdAt", "paidAt"} ==> Get(r, f) == Get(body, f)
  {
    body - {"id", "createdAt", "paidAt"}
  }

  /** After parsing, a patch marking an invoice paid is always stamped with the server's time. */
  lemma ParsedPaidAtIsServerTime(body: Record, now: int)
    requires Get(body, "status") == Str("paid")
    ensures Get(PutInvoiceData(InvoicePatch(body), now), "paidAt") == Time(now)
  {
  }

  /** PUT invoice: a paid status without a payment date gets one. */
  function PutInvoiceData(data: Record, now: int): Record
  {
    if Get(data, "status") == Str("paid") && !Truthy(Get(data, "paidAt")) then data["paidAt" := Time(now)]
    else data
  }

  /** A patch marking an invoice paid always leaves with a payment date; any other patch is unchanged. */
  lemma PutInvoicePaidAt(data: Record, now: int)
    ensures Get(data, "status") == Str("paid") ==> Truthy(Get(PutInvoiceData(data, now), "paidAt"))
    ensures Get(data, "status") != Str("paid") ==> PutInvoiceData(data, now) == data
  {
  }

  /**
   * Through the live storage, marking an unpaid invoice paid records the
   * payment now and takes the amount paid from the stored total, whatever
   * amount the request carried.
   */
  lemma LiveMarkPaid(data: Record, stored: Record, now: int)
    requires Get(data, "status") == Str("paid") && !Truthy(Get(stored, "paidAt"))
    ensures var written := DbStorage.UpdateInvoicePatch(PutInvoiceData(data, now), Some(stored), now);
      Get(written, "paidAt") == Time(now) && Get(written, "paidAmount") == Get(stored, "total")
  {
  }

  /** The contract-signing condition: not signed yet, and a signature in the patch completes the pair. */
  predicate SignsNow(data: Record, stored: Record)
  {
    !Truthy(Get(stored, "signedAt")) &&
    ((Truthy(Get(data, "signedByClient")) && Truthy(Get(stored, "signedByMe"))) ||
     (Truthy(Get(data, "signedByMe")) && Truthy(Get(stored, "signedByClient"))) ||
     (Truthy(Get(data, "signedByClient")) && Truthy(Get(data, "signedByMe"))))
  }

  /** PUT contract: signing completes the contract: signedAt now and status "signed". */
  function PutContractData(data: Record, stored: Option<Record>, now: int): Record
  {
    if stored.Some? && SignsNow(data, stored.value) then data["signedAt" := Time(now)]["status" := Str("signed")]
    else data
  }

  /**
   * The signing condition, read another way: each party has signed, in the
   * patch or before, and the patch brings at least one of the signatures.
   */
  lemma SignsNowMeaning(data: Record, stored: Record)
    ensures var dc := Truthy(Get(data, "signedByClient"));
      var dm := Truthy(Get(data, "signedByMe"));
      var sc := Truthy(Get(stored, "signedByClient"));
      var sm := Truthy(Get(stored, "signedByMe"));
      SignsNow(data, stored) <==> !Truthy(Get(stored, "signedAt")) && (dc || sc) && (dm || sm) && (dc || dm)
  {
  }

  /** Signing overrides whatever status the patch asked for; otherwise the patch is kept. */
  lemma PutContractSigning(data: Record, stored: Option<Record>, now: int)
    ensures stored.Some? && SignsNow(data, stored.value) ==>
      Get(PutContractData(data, stored, now), "status") == Str("signed") &&
      Get(PutContractData(data, stored, now), "signedAt") == Time(now)
    ensures !(stored.Some? && SignsNow(data, stored.value)) ==> PutContractData(data, stored, now) == data
  {
  }

  /**
   * The route signs when the client's signature arrives for a contract the
   * owner signed earlier, where the live storage's own rule, which wants both
   * signatures in the same patch, would not.
   */
  lemma SigningRulesDiffer(stored: Record, now: int)
    requires Get(stored, "signedByMe") == Bool(true) && Get(stored, "signedAt") == Null
    ensures var data := map["signedByClient" := Bool(true), "status" := Str("signed")];
      "signedAt" in PutContractData(data, Some(stored), now) &&
      "signedAt" !in DbStorage.UpdateContractPatch(data, Some(stored), now)
  {
  }

  // ---------------------------------------------------------------------
  // Handlers

  /** The activity a handler records after a write (its description text is not modelled). */
  function ActivityData(actor: int, action: string, entityType: string, entityId: Value): Record
  {
    map["userId" := IdValue(actor), "action" := Str(action), "entityType" := Str(entityType), "entityId" := entityId]
  }

  /**
   * POST /api/users: an invalid body, then a taken username, then a taken
   * email are refused, in that order; only a new username and email create.
   */
  method PostUser(s: MemStorage, body: Option<Record>, now: int) returns (res: Response)
    requires s.Valid()
    modifies s
    ensures s.Valid()
    ensures body.None? ==> res == BadRequest("Invalid user data") && unchanged(s)
    ensures body.Some? && old(s.FindUser("username", Get(body.value, "username"))).Some? ==>
      res == BadRequest("Username already exists") && unchanged(s)
    ensures body.Some? && old(s.FindUser("username", Get(body.value, "username"))).None? &&
            old(s.FindUser("email", Get(body.value, "email"))).Some? ==>
              res == BadRequest("Email already exists") && unchanged(s)
    ensures res.Created? <==>
              body.Some? && old(s.FindUser("username", Get(body.value, "username"))).None? &&
              old(s.FindUser("email", Get(body.value, "email"))).None?
    ensures res.Created? ==>
      res.row == Spread(body.value, Stamp(Users, old(s.counters[Users]), now)) &&
      s.tables == old(s.tables)[Users := old(s.tables[Users])[old(s.counters[Users]) := res.row]] &&
      s.counters == old(s.counters)[Users := old(s.counters[Users]) + 1]
  {
    if body.None? {
      return BadRequest("Invalid user data");
    }
    var existingUser := s.FindUser("username", Get(body.value, "username"));
    if existingUser.Some? {
      return BadRequest("Username already exists");
    }
    var existingEmail := s.FindUser("email", Get(body.value, "email"));
    if existingEmail.Some? {
      return BadRequest("Email already exists");
    }
    var user := s.Create(Users, body.value, now);
    res := Created(user);
  }

  /**
   * The POST handlers for clients, time entries and invoices: an invalid
   * body is refused before any storage call; a valid one is stored and an
   * activity recorded. A time entry's duration is derived first.
   */
  method PostEntity(s: MemStorage, k: Table, actor: int, body: Option<Record>, now: int) returns (res: Response)
    requires s.Valid()
    requires k == Clients || k == TimeEntries || k == Invoices
    modifies s
    ensures s.Valid()
    ensures body.None? ==> res.BadRequest? && unchanged(s)
    ensures body.Some? ==>
      var data := if k == TimeEntries then PostTimeEntryData(body.value) else body.value;
      var id := old(s.counters[k]);
      var logged := Spread(ActivityData(actor, "create", EntityType(k), IdValue(id)), Stamp(Activities, old(s.counters[Activities]), now));
      res == Created(Spread(data, Stamp(k, id, now))) &&
      s.tables == old(s.tables)[k := old(s.tables[k])[id := res.row]][Activities := old(s.tables[Activities])[old(s.counters[Activities]) := logged]]
    ensures body.Some? ==> s.counters == old(s.counters)[k := old(s.counters[k]) + 1][Activities := old(s.counters[Activities]) + 1]
  {
    if body.None? {
      return BadRequest(InvalidMessage(k));
    }
    var data := body.value;
    if k == TimeEntries {
      data := PostTimeEntryData(data);
    }
    var row := CreateLogged(s, k, actor, data, now);
    res := Created(row);
  }

  /** Store data as a new row of k, then record its creation as an activity. */
  method CreateLogged(s: MemStorage, k: Table, actor: int, data: Record, now: int) returns (row: Record)
    requires s.Valid()
    requires k != Activities
    modifies s
    ensures s.Valid()
    ensures var id := old(s.counters[k]);
      var logged := Spread(ActivityData(actor, "create", EntityType(k), IdValue(id)), Stamp(Activities, old(s.counters[Activities]), now));
      row == Spread(data, Stamp(k, id, now)) &&
      s.tables == old(s.tables)[k := old(s.tables[k])[id := row]][Activities := old(s.tables[Activities])[old(s.counters[Activities]) := logged]]
    ensures s.counters == old(s.counters)[k := old(s.counters[k]) + 1][Activities := old(s.counters[Activities]) + 1]
  {
    row := s.Create(k, data, now);
    var activity := s.Create(Activities, ActivityData(actor, "create", EntityType(k), Get(row, "id")), now);
  }

  function EntityType(k: Table): string
  {
    match k
    case Clients => "client"
    case TimeEntries => "time_entry"
    case Invoices => "invoice"
    case Tasks => "task"
    case Contracts => "contract"
    case _ => ""
  }

  function InvalidMessage(k: Table): string
  {
    match k
    case Clients => "Invalid client data"
    case TimeEntries => "Invalid time entry data"
    case Invoices => "Invalid invoice data"
    case Tasks => "Invalid task data"
    case Contracts => "Invalid contract data"
    case _ => "Invalid data"
  }

  function MissingMessage(k: Table): string
  {
    match k
    case TimeEntries => "Time entry not found"
    case Invoices => "Invoice not found"
    case Tasks => "Task not found"
    case Contracts => "Contract not found"
    case _ => "Not found"
  }

  /** The rewrite each PUT handler applies to the validated patch, given the stored row. */
  function PutData(k: Table, data: Record, stored: Option<Record>, now: int): (r: Record)
    ensures r.Keys <= data.Keys + {"duration", "completedAt", "paidAt", "signedAt", "status"}
  {
    match k
    case TimeEntries => PutTimeEntryData(data, stored)
    case Tasks => PutTaskData(data, stored, now)
    case Invoices => PutInvoiceData(data, now)
    case Contracts => PutContractData(data, stored, now)
    case _ => data
  }

  /**
   * The PUT handlers for time entries, tasks, invoices and contracts: an
   * invalid patch is refused before any storage call; otherwise the patch is
   * rewritten from the stored row and merged into it. A missing row is a
   * 404 and changes nothing; a successful update of anything but a time
   * entry records an activity.
   */
  method PutEntity(s: MemStorage, k: Table, actor: int, id: int, body: Option<Record>, now: int) returns (res: Response)
    requires s.Valid()
    requires k == TimeEntries || k == Tasks || k == Invoices || k == Contracts
    requires body.Some? ==> "id" !in body.value
    modifies s
    ensures s.Valid()
    ensures body.None? ==> res.BadRequest? && unchanged(s)
    ensures body.Some? && id !in old(s.tables[k]) ==>
      res == NotFound(MissingMessage(k)) && s.tables == old(s.tables) && s.counters == old(s.counters)
    ensures body.Some? && id in old(s.tables[k]) ==>
      var before := old(s.tables[k][id]);
      var after := Spread(before, PutData(k, body.value, Some(before), now));
      var logged := Spread(ActivityData(actor, "update", EntityType(k), IdValue(id)), Stamp(Activities, old(s.counters[Activities]), now));
      res == Done(after) &&
      (k == TimeEntries ==> s.tables == old(s.tables)[k := old(s.tables[k])[id := after]]) &&
      (k != TimeEntries ==>
         s.tables == old(s.tables)[k := old(s.tables[k])[id := after]][Activities := old(s.tables[Activities])[old(s.counters[Activities]) := logged]])
    ensures body.Some? && id in old(s.tables[k]) && k == TimeEntries ==> s.counters == old(s.counters)
    ensures body.Some? && id in old(s.tables[k]) && k != TimeEntries ==>
      s.counters == old(s.counters)[Activities := old(s.counters[Activities]) + 1]
  {
    if body.None? {
      return BadRequest(InvalidMessage(k));
    }
    var stored := s.Lookup(k, id);
    var data := PutData(k, body.value, stored, now);
    var updated := UpdateLogged(s, k, actor, id, data, now);
    if updated.None? {
      return NotFound(MissingMessage(k));
    }
    res := Done(updated.value);
  }

  /**
   * Merge data into the stored row id of k; when it exists, record the
   * update as an activity unless k is the time entries.
   */
  method UpdateLogged(s: MemStorage, k: Table, actor: int, id: int, data: Record, now: int) returns (updated: Option<Record>)
    requires s.Valid()
    requires k != Activities
    requires "id" !in data
    modifies s
    ensures s.Valid()
    ensures id !in old(s.tables[k]) ==> updated.None? && s.tables == old(s.tables) && s.counters == old(s.counters)
    ensures id in old(s.tables[k]) ==>
      var after := Spread(old(s.tables[k][id]), data);
      var logged := Spread(ActivityData(actor, "update", EntityType(k), IdValue(id)), Stamp(Activities, old(s.counters[Activities]), now));
      updated == Some(after) &&
      (k == TimeEntries ==> s.tables == old(s.tables)[k := old(s.tables[k])[id := after]]) &&
      (k != TimeEntries ==>
         s.tables == old(s.tables)[k := old(s.tables[k])[id := after]][Activities := old(s.tables[Activities])[old(s.counters[Activities]) := logged]])
    ensures id in old(s.tables[k]) && k == TimeEntries ==> s.counters == old(s.counters)
    ensures id in old(s.tables[k]) && k != TimeEntries ==>
      s.counters == old(s.counters)[Activities := old(s.counters[Activities]) + 1]
  {
    updated := s.Update(k, id, data);
    if updated.Some? && k != TimeEntries {
      var activity := s.Create(Activities, ActivityData(actor, "update", EntityType(k), Get(updated.value, "id")), now);
    }
  }

  /** A query parameter after `x ? parseInt(x) : undefined` and the truthiness test: None, NaN and 0 are falsy. */
  predicate Given(q: Option<int>)
  {
    q.Some? && q.value != 0
  }

  /** GET /api/time-entries: by user, else by project, else by task, else all entries. */
  function GetTimeEntries(s: MemStorage, userId: Option<int>, projectId: Option<int>, taskId: Option<int>): (rows: seq<Record>)
    reads s
    requires s.Valid()
    ensures Given(userId) ==> forall x :: x in rows ==> Get(x, "userId") == IdValue(userId.value)
    ensures !Given(userId) && Given(projectId) ==> forall x :: x in rows ==> Get(x, "projectId") == IdValue(projectId.value)
    ensures !Given(userId) && !Given(projectId) && Given(taskId) ==> forall x :: x in rows ==> Get(x, "taskId") == IdValue(taskId.value)
    ensures !Given(userId) && !Given(projectId) && !Given(taskId) ==> rows == s.Values(TimeEntries)
    ensures Given(userId) ==> forall x :: x in rows <==> StoredWith(s, x, "userId", userId.value)
    ensures !Given(userId) && Given(projectId) ==> forall x :: x in rows <==> StoredWith(s, x, "projectId", projectId.value)
    ensures !Given(userId) && !Given(projectId) && Given(taskId) ==> forall x :: x in rows <==> StoredWith(s, x, "taskId", taskId.value)
  {
    if Given(userId) then
      EntriesWhere(s, "userId", userId.value)
    else if Given(projectId) then
      EntriesWhere(s, "projectId", projectId.value)
    else if Given(taskId) then
      EntriesWhere(s, "taskId", taskId.value)
    else s.Values(TimeEntries)
  }

  /** x is a stored time entry whose property `field` is the id v. */
  ghost predicate StoredWith(s: MemStorage, x: Record, field: string, v: int)
    reads s
  {
    TimeEntries in s.tables &&
    (exists j :: j in s.tables[TimeEntries] && s.tables[TimeEntries][j] == x) && Get(x, field) == IdValue(v)
  }

  /** listTimeEntriesBy*: exactly the stored time entries whose property `field` is the id v. */
  function EntriesWhere(s: MemStorage, field: string, v: int): (rows: seq<Record>)
    reads s
    requires s.Valid()
    ensures forall x :: x in rows <==> StoredWith(s, x, field, v)
  {
    forall x ensures x in s.ListWhere(TimeEntries, field, IdValue(v)) <==> StoredWith(s, x, field, v) {
      s.ListWhereMembers(TimeEntries, field, IdValue(v), x);
    }
    s.ListWhere(TimeEntries, field, IdValue(v))
  }

  /** A user filter wins over the others: the project and task parameters are then ignored. */
  lemma UserFilterWins(s: MemStorage, userId: int, p1: Option<int>, t1: Option<int>, p2: Option<int>, t2: Option<int>)
    requires s.Valid() && userId != 0
    ensures GetTimeEntries(s, Some(userId), p1, t1) == GetTimeEntries(s, Some(userId), p2, t2)
  {
  }
}
