/**
 * Translation: an English and a Romanian table looked up by key, with the
 * key itself as the fallback, and the current language that setLanguage
 * and initializeLanguage choose. Each table is the list of its entries in
 * source order, in the sections the source groups them into; a later entry
 * for the same key would win, as in an object literal.
 */
module I18n {
  import opened Wrappers

  datatype Lang = En | Ro

  function LangName(l: Lang): string
  {
    match l
    case En => "en"
    case Ro => "ro"
  }

  /** The object a list of entries denotes. */
  function TableOf(entries: seq<(string, string)>): map<string, string>
  {
    if entries == [] then map[]
    else TableOf(entries[..|entries| - 1])[entries[|entries| - 1].0 := entries[|entries| - 1].1]
  }

  function KeysOf(entries: seq<(string, string)>): (keys: seq<string>)
    ensures |keys| == |entries| && forall i :: 0 <= i < |entries| ==> keys[i] == entries[i].0
  {
    seq(|entries|, i requires 0 <= i < |entries| => entries[i].0)
  }

  /** The table's keys are the listed keys, and each value is one listed for its key. */
  lemma {:induction false} TableOfKeys(entries: seq<(string, string)>)
    ensures TableOf(entries).Keys == set k | k in KeysOf(entries)
    ensures forall k :: k in TableOf(entries) ==> (k, TableOf(entries)[k]) in entries
  {
    if entries != [] {
      var init := entries[..|entries| - 1];
      TableOfKeys(init);
      assert KeysOf(entries) == KeysOf(init) + [entries[|entries| - 1].0];
      forall k | k in TableOf(entries)
        ensures (k, TableOf(entries)[k]) in entries
      {
        if k != entries[|entries| - 1].0 {
          assert (k, TableOf(init)[k]) in init;
        }
      }
    }
  }

  /** Entry lists with the same keys, appended, still have the same keys. */
  lemma KeysOfBoth(a1: seq<(string, string)>, a2: seq<(string, string)>, b1: seq<(string, string)>, b2: seq<(string, string)>)
    requires KeysOf(a1) == KeysOf(b1) && KeysOf(a2) == KeysOf(b2)
    ensures KeysOf(a1 + a2) == KeysOf(b1 + b2)
  {
    assert KeysOf(a1 + a2) == KeysOf(a1) + KeysOf(a2);
    assert KeysOf(b1 + b2) == KeysOf(b1) + KeysOf(b2);
  }

  predicate NoEmptyText(entries: seq<(string, string)>)
  {
    forall i :: 0 <= i < |entries| ==> entries[i].1 != ""
  }

  lemma NoEmptyTextAppend(a: seq<(string, string)>, b: seq<(string, string)>)
    requires NoEmptyText(a) && NoEmptyText(b)
    ensures NoEmptyText(a + b)
  {
    forall i | 0 <= i < |a + b|
      ensures (a + b)[i].1 != ""
    {
      if i >= |a| {
        assert (a + b)[i] == b[i - |a|];
      }
    }
  }

  /** `translations[lang]`: a table for "en" and "ro" only. */
  function Translations(lang: string): (r: Option<map<string, string>>)
    ensures r.Some? <==> lang == "en" || lang == "ro"
  {
    if lang == "en" then Some(TableOf(EnEntries))
    else if lang == "ro" then Some(TableOf(RoEntries))
    else None
  }

  /** t for a given current language: the translation when there is a non-empty one, else the key. */
  function Translate(lang: string, key: string): (r: string)
    ensures Translations(lang).None? ==> r == key
    ensures Translations(lang).Some? && key !in Translations(lang).value ==> r == key
    ensures Translations(lang).Some? && key in Translations(lang).value && Translations(lang).value[key] != "" ==>
      r == Translations(lang).value[key]
  {
    match Translations(lang)
    case None => key
    case Some(table) => if key in table && table[key] != "" then table[key] else key
  }

  /** t falls back to the key: no table, no entry, or an empty text. */
  predicate FallsBack(lang: string, key: string)
  {
    Translations(lang).None? || key !in Translations(lang).value || Translations(lang).value[key] == ""
  }

  /** Both tables list the same keys, in the same order. */
  lemma SameKeyLists()
    ensures KeysOf(EnEntries) == KeysOf(RoEntries)
  {
    assert KeysOf(EnDashboard) == KeysOf(RoDashboard);
    assert KeysOf(EnClients) == KeysOf(RoClients);
    assert KeysOf(EnProjects) == KeysOf(RoProjects);
    assert KeysOf(EnTasks) == KeysOf(RoTasks);
    assert KeysOf(EnInvoices) == KeysOf(RoInvoices);
    assert KeysOf(EnContracts) == KeysOf(RoContracts);
    assert KeysOf(EnCalendar) == KeysOf(RoCalendar);
    assert KeysOf(EnTimeTracker) == KeysOf(RoTimeTracker);
    assert KeysOf(EnReports) == KeysOf(RoReports);
    assert KeysOf(EnSettings) == KeysOf(RoSettings);
    assert KeysOf(EnAuth) == KeysOf(RoAuth);
    assert KeysOf(EnGeneral) == KeysOf(RoGeneral);
    KeysOfBoth(EnDashboard, EnClients, RoDashboard, RoClients);
    KeysOfBoth(EnDashboard + EnClients, EnProjects, RoDashboard + RoClients, RoProjects);
    KeysOfBoth(EnDashboard + EnClients + EnProjects, EnTasks, RoDashboard + RoClients + RoProjects, RoTasks);
    KeysOfBoth(EnDashboard + EnClients + EnProjects + EnTasks, EnInvoices, RoDashboard + RoClients + RoProjects + RoTasks, RoInvoices);
    KeysOfBoth(EnDashboard + EnClients + EnProjects + EnTasks + EnInvoices, EnContracts, RoDashboard + RoClients + RoProjects + RoTasks + RoInvoices, RoContracts);
    KeysOfBoth(EnDashboard + EnClients + EnProjects + EnTasks + EnInvoices + EnContracts, EnCalendar, RoDashboard + RoClients + RoProjects + RoTasks + RoInvoices + RoContracts, RoCalendar);
    KeysOfBoth(EnDashboard + EnClients + EnProjects + EnTasks + EnInvoices + EnContracts + EnCalendar, EnTimeTracker, RoDashboard + RoClients + RoProjects + RoTasks + RoInvoices + RoContracts + RoCalendar, RoTimeTracker);
    KeysOfBoth(EnDashboard + EnClients + EnProjects + EnTasks + EnInvoices + EnContracts + EnCalendar + EnTimeTracker, EnReports, RoDashboard + RoClients + RoProjects + RoTasks + RoInvoices + RoContracts + RoCalendar + RoTimeTracker, RoReports);
    KeysOfBoth(EnDashboard + EnClients + EnProjects + EnTasks + EnInvoices + EnContracts + EnCalendar + EnTimeTracker + EnReports, EnSettings, RoDashboard + RoClients + RoProjects + RoTasks + RoInvoices + RoContracts + RoCalendar + RoTimeTracker + RoReports, RoSettings);
    KeysOfBoth(EnDashboard + EnClients + EnProjects + EnTasks + EnInvoices + EnContracts + EnCalendar + EnTimeTracker + EnReports + EnSettings, EnAuth, RoDashboard + RoClients + RoProjects + RoTasks + RoInvoices + RoContracts + RoCalendar + RoTimeTracker + RoReports + RoSettings, RoAuth);
    KeysOfBoth(EnDashboard + EnClients + EnProjects + EnTasks + EnInvoices + EnContracts + EnCalendar + EnTimeTracker + EnReports + EnSettings + EnAuth, EnGeneral, RoDashboard + RoClients + RoProjects + RoTasks + RoInvoices + RoContracts + RoCalendar + RoTimeTracker + RoReports + RoSettings + RoAuth, RoGeneral);
  }

  /** No English text is empty. */
  lemma NoEmptyEnglish()
    ensures NoEmptyText(EnEntries)
  {
    assert NoEmptyText(EnDashboard);
    assert NoEmptyText(EnClients);
    assert NoEmptyText(EnProjects);
    assert NoEmptyText(EnTasks);
    assert NoEmptyText(EnInvoices);
    assert NoEmptyText(EnContracts);
    assert NoEmptyText(EnCalendar);
    assert NoEmptyText(EnTimeTracker);
    assert NoEmptyText(EnReports);
    assert NoEmptyText(EnSettings);
    assert NoEmptyText(EnAuth);
    assert NoEmptyText(EnGeneral);
    NoEmptyTextAppend(EnDashboard, EnClients);
    NoEmptyTextAppend(EnDashboard + EnClients, EnProjects);
    NoEmptyTextAppend(EnDashboard + EnClients + EnProjects, EnTasks);
    NoEmptyTextAppend(EnDashboard + EnClients + EnProjects + EnTasks, EnInvoices);
    NoEmptyTextAppend(EnDashboard + EnClients + EnProjects + EnTasks + EnInvoices, EnContracts);
    NoEmptyTextAppend(EnDashboard + EnClients + EnProjects + EnTasks + EnInvoices + EnContracts, EnCalendar);
    NoEmptyTextAppend(EnDashboard + EnClients + EnProjects + EnTasks + EnInvoices + EnContracts + EnCalendar, EnTimeTracker);
    NoEmptyTextAppend(EnDashboard + EnClients + EnProjects + EnTasks + EnInvoices + EnContracts + EnCalendar + EnTimeTracker, EnReports);
    NoEmptyTextAppend(EnDashboard + EnClients + EnProjects + EnTasks + EnInvoices + EnContracts + EnCalendar + EnTimeTracker + EnReports, EnSettings);
    NoEmptyTextAppend(EnDashboard + EnClients + EnProjects + EnTasks + EnInvoices + EnContracts + EnCalendar + EnTimeTracker + EnReports + EnSettings, EnAuth);
    NoEmptyTextAppend(EnDashboard + EnClients + EnProjects + EnTasks + EnInvoices + EnContracts + EnCalendar + EnTimeTracker + EnReports + EnSettings + EnAuth, EnGeneral);
  }

  /** No Romanian text is empty. */
  lemma NoEmptyRomanian()
    ensures NoEmptyText(RoEntries)
  {
    assert NoEmptyText(RoDashboard);
    assert NoEmptyText(RoClients);
    assert NoEmptyText(RoProjects);
    assert NoEmptyText(RoTasks);
    assert NoEmptyText(RoInvoices);
    assert NoEmptyText(RoContracts);
    assert NoEmptyText(RoCalendar);
    assert NoEmptyText(RoTimeTracker);
    assert NoEmptyText(RoReports);
    assert NoEmptyText(RoSettings);
    assert NoEmptyText(RoAuth);
    assert NoEmptyText(RoGeneral);
    NoEmptyTextAppend(RoDashboard, RoClients);
    NoEmptyTextAppend(RoDashboard + RoClients, RoProjects);
    NoEmptyTextAppend(RoDashboard + RoClients + RoProjects, RoTasks);
    NoEmptyTextAppend(RoDashboard + RoClients + RoProjects + RoTasks, RoInvoices);
    NoEmptyTextAppend(RoDashboard + RoClients + RoProjects + RoTasks + RoInvoices, RoContracts);
    NoEmptyTextAppend(RoDashboard + RoClients + RoProjects + RoTasks + RoInvoices + RoContracts, RoCalendar);
    NoEmptyTextAppend(RoDashboard + RoClients + RoProjects + RoTasks + RoInvoices + RoContracts + RoCalendar, RoTimeTracker);
    NoEmptyTextAppend(RoDashboard + RoClients + RoProjects + RoTasks + RoInvoices + RoContracts + RoCalendar + RoTimeTracker, RoReports);
    NoEmptyTextAppend(RoDashboard + RoClients + RoProjects + RoTasks + RoInvoices + RoContracts + RoCalendar + RoTimeTracker + RoReports, RoSettings);
    NoEmptyTextAppend(RoDashboard + RoClients + RoProjects + RoTasks + RoInvoices + RoContracts + RoCalendar + RoTimeTracker + RoReports + RoSettings, RoAuth);
    NoEmptyTextAppend(RoDashboard + RoClients + RoProjects + RoTasks + RoInvoices + RoContracts + RoCalendar + RoTimeTracker + RoReports + RoSettings + RoAuth, RoGeneral);
  }

  /**
   * The two languages know the same keys and no known key has an empty
   * text, so whether t falls back to the key depends only on the key:
   * exactly the keys missing from the English table fall back, in either
   * language.
   */
  lemma FallbackDependsOnKey(key: string)
    ensures FallsBack("en", key) <==> key !in TableOf(EnEntries)
    ensures FallsBack("ro", key) <==> key !in TableOf(EnEntries)
  {
    TableOfKeys(EnEntries);
    TableOfKeys(RoEntries);
    SameKeyLists();
    NoEmptyEnglish();
    NoEmptyRomanian();
  }

  /** The module's current language. */
  class Translator {
    var currentLanguage: string

    /** The language starts as English. */
    constructor ()
      ensures currentLanguage == "en"
    {
      currentLanguage := "en";
    }

    /** t. */
    function T(key: string): (r: string)
      reads this
      ensures FallsBack(currentLanguage, key) ==> r == key
      ensures !FallsBack(currentLanguage, key) ==> r == Translations(currentLanguage).value[key]
    {
      Translate(currentLanguage, key)
    }

    /** setLanguage changes the current language and nothing else. */
    method SetLanguage(lang: Lang)
      modifies this
      ensures currentLanguage == LangName(lang)
    {
      currentLanguage := LangName(lang);
    }

    /**
     * initializeLanguage: the user's language when it is "en" or "ro";
     * otherwise Romanian when the browser language starts with "ro",
     * English for anything else.
     */
    method InitializeLanguage(userLanguage: Option<string>, browserLanguage: string)
      modifies this
      ensures currentLanguage == ChosenLanguage(userLanguage, browserLanguage)
    {
      if userLanguage.Some? && userLanguage.value != "" && (userLanguage.value == "en" || userLanguage.value == "ro") {
        currentLanguage := userLanguage.value;
        return;
      }
      var browserLang := if |browserLanguage| >= 2 then browserLanguage[..2] else browserLanguage;
      if browserLang == "ro" {
        SetLanguage(Ro);
      } else {
        SetLanguage(En);
      }
    }
  }

  /** The language initializeLanguage settles on. */
  function ChosenLanguage(userLanguage: Option<string>, browserLanguage: string): (r: string)
    ensures r == "en" || r == "ro"
    ensures userLanguage == Some("en") || userLanguage == Some("ro") ==> r == userLanguage.value
    ensures userLanguage != Some("en") && userLanguage != Some("ro") ==>
      (r == "ro" <==> |browserLanguage| >= 2 && browserLanguage[..2] == "ro")
  {
    if userLanguage == Some("en") || userLanguage == Some("ro") then userLanguage.value
    else if |browserLanguage| >= 2 && browserLanguage[..2] == "ro" then "ro"
    else "en"
  }

  // ---------------------------------------------------------------------
  // The tables

  /** English: the Dashboard entries (i18n.ts lines 9-23). */
  const EnDashboard: seq<(string, string)> := [
    ("dashboard", "Dashboard"),
    ("welcomeBack", "Welcome back, check your business overview."),
    ("totalClients", "Total Clients"),
    ("activeProjects", "Active Projects"),
    ("pendingInvoices", "Pending Invoices"),
    ("revenue", "Revenue (MTD)"),
    ("viewAll", "View all"),
    ("viewReport", "View report"),
    ("upcomingTasks", "Upcoming Tasks"),
    ("recentActivity", "Recent Activity"),
    ("upcomingEvents", "Upcoming Events"),
    ("projectStatus", "Project Status"),
    ("financialSummary", "Financial Summary"),
    ("viewDetailedReports", "View detailed reports")
  ]

  /** English: the Clients entries (i18n.ts lines 25-35). */
  const EnClients: seq<(string, string)> := [
    ("clients", "Clients"),
    ("addClient", "Add Client"),
    ("clientName", "Client Name"),
    ("email", "Email"),
    ("phone", "Phone"),
    ("address", "Address"),
    ("actions", "Actions"),
    ("edit", "Edit"),
    ("delete", "Delete"),
    ("viewDetails", "View Details")
  ]

  /** English: the Projects entries (i18n.ts lines 37-45). */
  const EnProjects: seq<(string, string)> := [
    ("projects", "Projects"),
    ("addProject", "Add Project"),
    ("projectName", "Project Name"),
    ("client", "Client"),
    ("status", "Status"),
    ("progress", "Progress"),
    ("deadline", "Deadline"),
    ("budget", "Budget")
  ]

  /** English: the Tasks entries (i18n.ts lines 47-58). */
  const EnTasks: seq<(string, string)> := [
    ("tasks", "Tasks"),
    ("addTask", "Add Task"),
    ("taskTitle", "Task Title"),
    ("project", "Project"),
    ("assignedTo", "Assigned To"),
    ("priority", "Priority"),
    ("taskDueDate", "Due Date"),
    ("description", "Description"),
    ("highPriority", "High Priority"),
    ("mediumPriority", "Medium Priority"),
    ("lowPriority", "Low Priority")
  ]

  /** English: the Invoices entries (i18n.ts lines 60-70). */
  const EnInvoices: seq<(string, string)> := [
    ("invoices", "Invoices"),
    ("createInvoice", "Create Invoice"),
    ("invoiceNumber", "Invoice Number"),
    ("issueDate", "Issue Date"),
    ("dueDate", "Due Date"),
    ("amount", "Amount"),
    ("paid", "Paid"),
    ("unpaid", "Unpaid"),
    ("overdue", "Overdue"),
    ("draft", "Draft")
  ]

  /** English: the Contracts entries (i18n.ts lines 72-80). */
  const EnContracts: seq<(string, string)> := [
    ("contracts", "Contracts"),
    ("createContract", "Create Contract"),
    ("contractTitle", "Contract Title"),
    ("value", "Value"),
    ("startDate", "Start Date"),
    ("endDate", "End Date"),
    ("signed", "Signed"),
    ("unsigned", "Unsigned")
  ]

  /** English: the Calendar entries (i18n.ts lines 82-88). */
  const EnCalendar: seq<(string, string)> := [
    ("calendar", "Calendar"),
    ("addEvent", "Add Event"),
    ("today", "Today"),
    ("month", "Month"),
    ("week", "Week"),
    ("day", "Day")
  ]

  /** English: the Time Tracker entries (i18n.ts lines 90-95). */
  const EnTimeTracker: seq<(string, string)> := [
    ("timeTracker", "Time Tracker"),
    ("startTimer", "Start Timer"),
    ("stopTimer", "Stop Timer"),
    ("duration", "Duration"),
    ("date", "Date")
  ]

  /** English: the Reports entries (i18n.ts lines 97-102). */
  const EnReports: seq<(string, string)> := [
    ("reports", "Reports"),
    ("generateReport", "Generate Report"),
    ("reportType", "Report Type"),
    ("dateRange", "Date Range"),
    ("download", "Download")
  ]

  /** English: the Settings entries (i18n.ts lines 104-112). */
  const EnSettings: seq<(string, string)> := [
    ("settings", "Settings"),
    ("profile", "Profile"),
    ("notifications", "Notifications"),
    ("security", "Security"),
    ("language", "Language"),
    ("theme", "Theme"),
    ("save", "Save"),
    ("cancel", "Cancel")
  ]

  /** English: the Auth entries (i18n.ts lines 114-120). */
  const EnAuth: seq<(string, string)> := [
    ("login", "Login"),
    ("logout", "Logout"),
    ("username", "Username"),
    ("password", "Password"),
    ("forgotPassword", "Forgot Password?"),
    ("signIn", "Sign In")
  ]

  /** English: the General entries (i18n.ts lines 122-134). */
  const EnGeneral: seq<(string, string)> := [
    ("filter", "Filter"),
    ("search", "Search"),
    ("allProjects", "All Projects"),
    ("activeProjectsOnly", "Active Projects"),
    ("completedProjects", "Completed Projects"),
    ("noDataFound", "No data found"),
    ("loading", "Loading..."),
    ("success", "Success!"),
    ("error", "Error!"),
    ("confirm", "Confirm"),
    ("viewAllActivity", "View all activity"),
    ("viewCalendar", "View calendar")
  ]

  /** Romanian: the Dashboard entries (i18n.ts lines 137-151). */
  const RoDashboard: seq<(string, string)> := [
    ("dashboard", "Tablou de bord"),
    ("welcomeBack", "Bine ai revenit, verific\U{0103}-\U{021B}i activitatea."),
    ("totalClients", "Total Clien\U{021B}i"),
    ("activeProjects", "Proiecte Active"),
    ("pendingInvoices", "Facturi \U{00EE}n a\U{0219}teptare"),
    ("revenue", "Venituri (Luna curent\U{0103})"),
    ("viewAll", "Vezi tot"),
    ("viewReport", "Vezi raportul"),
    ("upcomingTasks", "Sarcini viitoare"),
    ("recentActivity", "Activitate recent\U{0103}"),
    ("upcomingEvents", "Evenimente viitoare"),
    ("projectStatus", "Status proiecte"),
    ("financialSummary", "Sumar financiar"),
    ("viewDetailedReports", "Vezi rapoarte detaliate")
  ]

  /** Romanian: the Clients entries (i18n.ts lines 153-163). */
  const RoClients: seq<(string, string)> := [
    ("clients", "Clien\U{021B}i"),
    ("addClient", "Adaug\U{0103} Client"),
    ("clientName", "Nume Client"),
    ("email", "Email"),
    ("phone", "Telefon"),
    ("address", "Adres\U{0103}"),
    ("actions", "Ac\U{021B}iuni"),
    ("edit", "Editeaz\U{0103}"),
    ("delete", "\U{0218}terge"),
    ("viewDetails", "Vezi detalii")
  ]

  /** Romanian: the Projects entries (i18n.ts lines 165-173). */
  const RoProjects: seq<(string, string)> := [
    ("projects", "Proiecte"),
    ("addProject", "Adaug\U{0103} Proiect"),
    ("projectName", "Nume Proiect"),
    ("client", "Client"),
    ("status", "Status"),
    ("progress", "Progres"),
    ("deadline", "Termen limit\U{0103}"),
    ("budget", "Buget")
  ]

  /** Romanian: the Tasks entries (i18n.ts lines 175-186). */
  const RoTasks: seq<(string, string)> := [
    ("tasks", "Sarcini"),
    ("addTask", "Adaug\U{0103} Sarcin\U{0103}"),
    ("taskTitle", "Titlu Sarcin\U{0103}"),
    ("project", "Proiect"),
    ("assignedTo", "Asignat lui"),
    ("priority", "Prioritate"),
    ("taskDueDate", "Data scadent\U{0103}"),
    ("description", "Descriere"),
    ("highPriority", "Prioritate \U{00EE}nalt\U{0103}"),
    ("mediumPriority", "Prioritate medie"),
    ("lowPriority", "Prioritate sc\U{0103}zut\U{0103}")
  ]

  /** Romanian: the Invoices entries (i18n.ts lines 188-198). */
  const RoInvoices: seq<(string, string)> := [
    ("invoices", "Facturi"),
    ("createInvoice", "Creeaz\U{0103} Factur\U{0103}"),
    ("invoiceNumber", "Num\U{0103}r Factur\U{0103}"),
    ("issueDate", "Data emiterii"),
    ("dueDate", "Data scadent\U{0103}"),
    ("amount", "Sum\U{0103}"),
    ("paid", "Pl\U{0103}tit\U{0103}"),
    ("unpaid", "Nepl\U{0103}tit\U{0103}"),
    ("overdue", "\U{00CE}nt\U{00E2}rziat\U{0103}"),
    ("draft", "Schi\U{021B}\U{0103}")
  ]

  /** Romanian: the Contracts entries (i18n.ts lines 200-208). */
  const RoContracts: seq<(string, string)> := [
    ("contracts", "Contracte"),
    ("createContract", "Creeaz\U{0103} Contract"),
    ("contractTitle", "Titlu Contract"),
    ("value", "Valoare"),
    ("startDate", "Data \U{00EE}nceperii"),
    ("endDate", "Data \U{00EE}ncheierii"),
    ("signed", "Semnat"),
    ("unsigned", "Nesemnat")
  ]

  /** Romanian: the Calendar entries (i18n.ts lines 210-216). */
  const RoCalendar: seq<(string, string)> := [
    ("calendar", "Calendar"),
    ("addEvent", "Adaug\U{0103} Eveniment"),
    ("today", "Azi"),
    ("month", "Lun\U{0103}"),
    ("week", "S\U{0103}pt\U{0103}m\U{00E2}n\U{0103}"),
    ("day", "Zi")
  ]

  /** Romanian: the Time Tracker entries (i18n.ts lines 218-223). */
  const RoTimeTracker: seq<(string, string)> := [
    ("timeTracker", "Cronometru"),
    ("startTimer", "Porne\U{0219}te cronometrul"),
    ("stopTimer", "Opre\U{0219}te cronometrul"),
    ("duration", "Durat\U{0103}"),
    ("date", "Dat\U{0103}")
  ]

  /** Romanian: the Reports entries (i18n.ts lines 225-230). */
  const RoReports: seq<(string, string)> := [
    ("reports", "Rapoarte"),
    ("generateReport", "Genereaz\U{0103} Raport"),
    ("reportType", "Tip Raport"),
    ("dateRange", "Interval de timp"),
    ("download", "Descarc\U{0103}")
  ]

  /** Romanian: the Settings entries (i18n.ts lines 232-240). */
  const RoSettings: seq<(string, string)> := [
    ("settings", "Set\U{0103}ri"),
    ("profile", "Profil"),
    ("notifications", "Notific\U{0103}ri"),
    ("security", "Securitate"),
    ("language", "Limb\U{0103}"),
    ("theme", "Tem\U{0103}"),
    ("save", "Salveaz\U{0103}"),
    ("cancel", "Anuleaz\U{0103}")
  ]

  /** Romanian: the Auth entries (i18n.ts lines 242-248). */
  const RoAuth: seq<(string, string)> := [
    ("login", "Autentificare"),
    ("logout", "Deconectare"),
    ("username", "Nume utilizator"),
    ("password", "Parol\U{0103}"),
    ("forgotPassword", "Ai uitat parola?"),
    ("signIn", "Conectare")
  ]

  /** Romanian: the General entries (i18n.ts lines 250-262). */
  const RoGeneral: seq<(string, string)> := [
    ("filter", "Filtreaz\U{0103}"),
    ("search", "Caut\U{0103}"),
    ("allProjects", "Toate Proiectele"),
    ("activeProjectsOnly", "Doar Proiecte Active"),
    ("completedProjects", "Proiecte Finalizate"),
    ("noDataFound", "Nu s-au g\U{0103}sit date"),
    ("loading", "Se \U{00EE}ncarc\U{0103}..."),
    ("success", "Succes!"),
    ("error", "Eroare!"),
    ("confirm", "Confirm\U{0103}"),
    ("viewAllActivity", "Vezi toat\U{0103} activitatea"),
    ("viewCalendar", "Vezi calendarul")
  ]

  const EnEntries: seq<(string, string)> :=
    EnDashboard + EnClients + EnProjects + EnTasks +
    EnInvoices + EnContracts + EnCalendar + EnTimeTracker +
    EnReports + EnSettings + EnAuth + EnGeneral

  const RoEntries: seq<(string, string)> :=
    RoDashboard + RoClients + RoProjects + RoTasks +
    RoInvoices + RoContracts + RoCalendar + RoTimeTracker +
    RoReports + RoSettings + RoAuth + RoGeneral
}
