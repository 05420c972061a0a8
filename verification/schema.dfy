/**
 * The shared data model as the client pages see it: the enumerations of
 * shared/schema.ts as datatypes, and one record per table holding the
 * columns the modelled logic reads. Instants are milliseconds (see module
 * Calendar); a nullable column is an `Option`.
 */
module Schema {
  import opened Wrappers
  import opened Seqs

  datatype Priority = Low | Medium | High
  datatype InvoiceStatus = Draft | Sent | Paid | Overdue | Canceled
  datatype ContractStatus = Draft | Sent | Signed | Expired | Canceled
  datatype TaskStatus = Todo | InProgress | Review | Completed
  datatype ProjectStatus = NotStarted | InProgress | OnHold | Completed | Canceled
  datatype Language = En | Ro

  datatype User = User(
    id: int, username: string, firstName: string, lastName: string,
    email: string, phone: Option<string>, role: string, language: Language)

  datatype Client = Client(
    id: int, name: string, email: string, phone: Option<string>,
    address: Option<string>, city: Option<string>, country: Option<string>,
    contactPerson: Option<string>, notes: Option<string>, createdBy: int)

  datatype Project = Project(id: int, name: string, clientId: int, status: ProjectStatus)

  datatype Task = Task(
    id: int, title: string, projectId: Option<int>, assignedTo: Option<int>,
    status: TaskStatus, priority: Priority, dueDate: Option<int>)

  datatype TimeEntry = TimeEntry(
    id: int, userId: int, projectId: Option<int>, taskId: Option<int>,
    description: Option<string>, startTime: int, endTime: Option<int>,
    duration: Option<real>, billable: bool)

  datatype Invoice = Invoice(
    id: int, invoiceNumber: string, clientId: int, issueDate: int, dueDate: int,
    status: InvoiceStatus, total: real)

  /** The two signature flags are nullable columns; null reads as not signed. */
  datatype Contract = Contract(
    id: int, title: string, clientId: int, projectId: Option<int>,
    status: ContractStatus, value: Option<real>, terms: Option<string>,
    signedByClient: bool, signedByMe: bool, createdBy: int)

  datatype Event = Event(
    id: int, title: string, startTime: int, endTime: int, allDay: bool,
    clientId: Option<int>, projectId: Option<int>)

  datatype Activity = Activity(
    id: int, userId: int, action: string, entityType: string, entityId: int)

  /** JavaScript truthiness of a nullable id: null and 0 are false. */
  predicate TruthyId(id: Option<int>)
  {
    id.Some? && id.value != 0
  }

  /** JavaScript truthiness of a nullable number: null and 0 are false. */
  predicate TruthyReal(x: Option<real>)
  {
    x.Some? && x.value != 0.0
  }

  /** JavaScript truthiness of a nullable string: null and "" are false. */
  predicate TruthyString(s: Option<string>)
  {
    s.Some? && s.value != ""
  }

  /**
   * `clients.find(c => c.id === id)?.name`: the name of the first client
   * with that id, or nothing when no client has it.
   */
  function ClientName(clients: seq<Client>, id: int): (r: Option<string>)
    ensures r.None? <==> forall i :: 0 <= i < |clients| ==> clients[i].id != id
    ensures r.Some? ==>
      exists i :: 0 <= i < |clients| && clients[i].id == id && r.value == clients[i].name &&
        (forall j :: 0 <= j < i ==> clients[j].id != id)
  {
    match FindIndex(clients, (c: Client) => c.id == id)
    case None => None
    case Some(i) => Some(clients[i].name)
  }
}
