/**
 * The contracts page: the searchable tab filter, which actions a row
 * offers, the requests they send, the form schema and the values the edit
 * dialog starts from.
 */
module ContractsPage {
  import opened Wrappers
  import opened Seqs
  import opened Text
  import opened Schema
  import Records
  import Routes

  // ---------------------------------------------------------------------
  // The list

  function StatusName(s: ContractStatus): string
  {
    match s
    case Draft => "draft"
    case Sent => "sent"
    case Signed => "signed"
    case Expired => "expired"
    case Canceled => "canceled"
  }

  /** One contract against the tab and the search. */
  predicate ContractShown(c: Contract, tab: string, query: string)
  {
    var matches := ContainsIgnoringCase(c.title, query);
    if tab == "all" then matches
    else if tab == "draft" then matches && c.status == ContractStatus.Draft
    else if tab == "sent" then matches && c.status == ContractStatus.Sent
    else if tab == "signed" then matches && c.status == ContractStatus.Signed
    else if tab == "expired" then matches && c.status == ContractStatus.Expired
    else matches
  }

  /** filteredContracts: undefined until the contracts are loaded. */
  function FilteredContracts(contracts: Option<seq<Contract>>, tab: string, query: string): Option<seq<Contract>>
  {
    match contracts
    case None => None
    case Some(cs) => Some(Filter(cs, (c: Contract) => ContractShown(c, tab, query)))
  }

  predicate IsStatusTab(tab: string)
  {
    tab == "draft" || tab == "sent" || tab == "signed" || tab == "expired"
  }

  /**
   * A contract is listed exactly when its title contains the search,
   * ignoring case, and, on a status tab, it has that status.
   */
  lemma ContractsListed(cs: seq<Contract>, tab: string, query: string, c: Contract)
    ensures c in FilteredContracts(Some(cs), tab, query).value <==>
      c in cs && ContainsIgnoringCase(c.title, query) && (IsStatusTab(tab) ==> StatusName(c.status) == tab)
  {
    FilterMembers(cs, (c: Contract) => ContractShown(c, tab, query));
  }

  /** A canceled contract shows under no status tab: only under "all" (or an unknown tab). */
  lemma CanceledOnlyUnderAll(cs: seq<Contract>, tab: string, query: string, c: Contract)
    requires c.status == ContractStatus.Canceled && IsStatusTab(tab)
    ensures c !in FilteredContracts(Some(cs), tab, query).value
  {
    ContractsListed(cs, tab, query, c);
  }

  // ---------------------------------------------------------------------
  // Row actions

  /** "Send to Client": drafts only. */
  predicate CanSend(c: Contract) { c.status == ContractStatus.Draft }

  /** "Sign Contract": not yet signed by me, and still a draft or sent. */
  predicate CanSign(c: Contract)
  {
    !c.signedByMe && (c.status == ContractStatus.Draft || c.status == ContractStatus.Sent)
  }

  /** "Delete": every status but signed. */
  predicate CanDelete(c: Contract) { c.status != ContractStatus.Signed }

  /** Signing sends my signature and nothing else. */
  function SignPayload(): (p: Records.Record)
    ensures p.Keys == {"signedByMe"} && Records.Truthy(p["signedByMe"])
  {
    map["signedByMe" := Records.Bool(true)]
  }

  /** Sending changes the status to sent and nothing else. */
  function SendPayload(): (p: Records.Record)
    ensures p.Keys == {"status"} && p["status"] == Records.Str("sent")
  {
    map["status" := Records.Str("sent")]
  }

  /** A signed contract can only be viewed or edited; a canceled or expired one can only be deleted. */
  lemma ContractActions(c: Contract)
    ensures c.status == ContractStatus.Signed ==> !CanSend(c) && !CanSign(c) && !CanDelete(c)
    ensures c.status == ContractStatus.Canceled || c.status == ContractStatus.Expired ==>
      !CanSend(c) && !CanSign(c) && CanDelete(c)
    ensures CanSend(c) ==> CanDelete(c)
  {
  }

  /**
   * Signing from the page completes the contract on the server exactly
   * when the client had already signed it (and it has no signing date);
   * then the route stamps the date and forces the status to signed.
   */
  lemma SignFromPage(stored: Records.Record, now: int)
    ensures Routes.SignsNow(SignPayload(), stored) <==>
      !Records.Truthy(Records.Get(stored, "signedAt")) && Records.Truthy(Records.Get(stored, "signedByClient"))
    ensures Routes.SignsNow(SignPayload(), stored) ==>
      Records.Get(Routes.PutContractData(SignPayload(), Some(stored), now), "status") == Records.Str("signed")
  {
  }

  // ---------------------------------------------------------------------
  // The form

  /** The form's values (dates are not modelled). */
  datatype ContractFormValues = ContractFormValues(
    title: string, clientId: Option<int>, projectId: Option<int>, status: ContractStatus,
    value: Option<real>, terms: string, signedByMe: Option<bool>, signedByClient: Option<bool>,
    createdBy: Option<int>)

  /**
   * contractFormSchema: a title, a client and a creator (the column is not
   * null in the insert schema) are required; a value given must not be negative.
   */
  predicate ContractFormOk(v: ContractFormValues)
  {
    |v.title| >= 1 && v.clientId.Some? && v.createdBy.Some? && (v.value.Some? ==> v.value.value >= 0.0)
  }

  /** The schema's `.default(false)` for an absent signature flag. */
  function FlagOrFalse(x: Option<bool>): (b: bool)
    ensures b <==> x == Some(true)
  {
    x.GetOr(false)
  }

  /** The add dialog's starting values: an empty draft, neither party signed, created by the signed-in user. */
  function AddFormDefaults(userId: Option<int>): (v: ContractFormValues)
    ensures !ContractFormOk(v)
    ensures v.status == ContractStatus.Draft && !FlagOrFalse(v.signedByMe) && !FlagOrFalse(v.signedByClient)
    ensures v.createdBy == userId && v.title == "" && v.clientId.None? && v.value.None?
  {
    ContractFormValues("", None, None, ContractStatus.Draft, None, "", Some(false), Some(false), userId)
  }

  /** Starting from the defaults, a title and a client make the form valid exactly when a user is signed in. */
  lemma DefaultsNeedTitleClientAndUser(userId: Option<int>, title: string, clientId: int)
    ensures ContractFormOk(AddFormDefaults(userId).(title := title, clientId := Some(clientId))) <==>
      |title| >= 1 && userId.Some?
  {
  }

  /**
   * openEditDialog: `|| undefined` for the project and the value (so 0
   * becomes undefined too), `|| ""` for the terms.
   */
  function EditFormValues(c: Contract): (v: ContractFormValues)
    ensures v.projectId.Some? <==> TruthyId(c.projectId)
    ensures v.value.Some? <==> TruthyReal(c.value)
    ensures v.terms == if c.terms.Some? then c.terms.value else ""
    ensures v.title == c.title && v.status == c.status
    ensures FlagOrFalse(v.signedByMe) == c.signedByMe && FlagOrFalse(v.signedByClient) == c.signedByClient
    ensures v.clientId == Some(c.clientId) && v.createdBy == Some(c.createdBy)
  {
    ContractFormValues(
      c.title, Some(c.clientId),
      if TruthyId(c.projectId) then c.projectId else None,
      c.status,
      if TruthyReal(c.value) then c.value else None,
      if TruthyString(c.terms) then c.terms.value else "",
      Some(c.signedByMe), Some(c.signedByClient), Some(c.createdBy))
  }

  /** Reopening a stored contract in the edit dialog passes the schema exactly when its title is non-empty and its value not negative. */
  lemma EditFormOfStored(c: Contract)
    ensures ContractFormOk(EditFormValues(c)) <==> |c.title| >= 1 && (TruthyReal(c.value) ==> c.value.value >= 0.0)
  {
  }
}
