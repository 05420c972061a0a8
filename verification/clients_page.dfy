/**
 * The clients page: the search box's filter, the client form schema and
 * the values the edit dialog starts from. Whether a string is a
 * well-formed e-mail address is left to the predicate `isEmail`.
 */
module ClientsPage {
  import opened Wrappers
  import opened Seqs
  import opened Text
  import opened Schema

  /** The search test: name, e-mail, or (when there is one) contact person contains the query, ignoring case. */
  predicate ClientMatches(c: Client, query: string)
  {
    ContainsIgnoringCase(c.name, query) || ContainsIgnoringCase(c.email, query) ||
    (TruthyString(c.contactPerson) && ContainsIgnoringCase(c.contactPerson.value, query))
  }

  /** filteredClients: undefined until the clients are loaded. */
  function FilteredClients(clients: Option<seq<Client>>, query: string): (r: Option<seq<Client>>)
    ensures r.Some? <==> clients.Some?
  {
    match clients
    case None => None
    case Some(cs) => Some(Filter(cs, (c: Client) => ClientMatches(c, query)))
  }

  /** A loaded client is listed exactly when one of its three searchable fields contains the query. */
  lemma ClientsListed(cs: seq<Client>, query: string, c: Client)
    ensures c in FilteredClients(Some(cs), query).value <==>
      c in cs &&
      (Contains(ToLower(c.name), ToLower(query)) || Contains(ToLower(c.email), ToLower(query)) ||
       (c.contactPerson.Some? && Contains(ToLower(c.contactPerson.value), ToLower(query))))
  {
    FilterMembers(cs, (c: Client) => ClientMatches(c, query));
    if c.contactPerson == Some("") {
      assert ToLower("") == "";
      if Contains(ToLower(c.contactPerson.value), ToLower(query)) {
        ContainsOnlyEmpty(ToLower(query));
        assert ToLower(query) == "";
        ContainsEmpty(ToLower(c.name));
      }
    }
  }

  /** Only the empty string occurs in the empty string. */
  lemma ContainsOnlyEmpty(needle: string)
    requires Contains("", needle)
    ensures needle == ""
  {
  }

  /** An empty search lists every client, in order. */
  lemma EmptySearchKeepsAll(cs: seq<Client>)
    ensures FilteredClients(Some(cs), "").value == cs
  {
    forall c | c in cs
      ensures ClientMatches(c, "")
    {
      assert ToLower("") == "";
      ContainsEmpty(ToLower(c.name));
    }
    FilterAll(cs, (c: Client) => ClientMatches(c, ""));
  }

  // ---------------------------------------------------------------------
  // The form

  datatype ClientFormValues = ClientFormValues(
    name: string, email: string, phone: Option<string>, address: Option<string>,
    city: Option<string>, country: Option<string>, contactPerson: Option<string>,
    notes: Option<string>, createdBy: Option<int>)

  /**
   * clientFormSchema: a well-formed e-mail and a creator id; the name
   * only has to be a string (the insert schema sets no minimum length),
   * and the six other fields are optional.
   */
  predicate ClientFormOk(v: ClientFormValues, isEmail: string -> bool)
  {
    isEmail(v.email) && v.createdBy.Some?
  }

  /** `x || ""`. */
  function OrEmpty(x: Option<string>): (s: string)
    ensures TruthyString(x) ==> s == x.value
    ensures !TruthyString(x) ==> s == ""
  {
    if x.Some? then x.value else ""
  }

  /** openEditDialog: each nullable column becomes "" when null, and the creator is carried over. */
  function EditFormValues(c: Client): (v: ClientFormValues)
    ensures v.name == c.name && v.email == c.email && v.createdBy == Some(c.createdBy)
    ensures v.phone == Some(OrEmpty(c.phone)) && v.address == Some(OrEmpty(c.address))
    ensures v.city == Some(OrEmpty(c.city)) && v.country == Some(OrEmpty(c.country))
    ensures v.contactPerson == Some(OrEmpty(c.contactPerson)) && v.notes == Some(OrEmpty(c.notes))
  {
    ClientFormValues(
      c.name, c.email, Some(OrEmpty(c.phone)), Some(OrEmpty(c.address)), Some(OrEmpty(c.city)),
      Some(OrEmpty(c.country)), Some(OrEmpty(c.contactPerson)), Some(OrEmpty(c.notes)), Some(c.createdBy))
  }

  /** A stored client reopened for editing passes the schema exactly when its e-mail is well formed. */
  lemma EditFormOfStored(c: Client, isEmail: string -> bool)
    ensures ClientFormOk(EditFormValues(c), isEmail) <==> isEmail(c.email)
  {
  }

  /** The add dialog starts empty, with the signed-in user as creator. */
  function AddFormDefaults(userId: Option<int>): (v: ClientFormValues)
    ensures v.name == "" && v.email == "" && v.createdBy == userId
    ensures v.phone == Some("") && v.contactPerson == Some("") && v.notes == Some("")
  {
    ClientFormValues("", "", Some(""), Some(""), Some(""), Some(""), Some(""), Some(""), userId)
  }
}
