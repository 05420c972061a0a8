/**
 * The dashboard's project-status card: the status filter and the optional
 * limit, the client-name lookup, and the initials and colour of a
 * project's avatar.
 */
module ProjectStatusCard {
  import opened Wrappers
  import opened Seqs
  import opened Text
  import opened Schema

  /** The status filter's test on one project; an unknown filter keeps everything. */
  predicate ProjectShown(p: Project, statusFilter: string)
  {
    if statusFilter == "all" then true
    else if statusFilter == "active" then p.status == ProjectStatus.InProgress
    else if statusFilter == "completed" then p.status == ProjectStatus.Completed
    else true
  }

  /** filteredProjects: the filter, then `slice(0, limit)`. */
  function FilteredProjects(projects: seq<Project>, statusFilter: string, limit: Option<int>): seq<Project>
  {
    Slice(Filter(projects, (p: Project) => ProjectShown(p, statusFilter)), limit)
  }

  /**
   * Without a limit a project is listed exactly when it has the filter's
   * status: in progress for "active", completed for "completed", any status
   * otherwise.
   */
  lemma ProjectsListed(projects: seq<Project>, statusFilter: string, p: Project)
    ensures p in FilteredProjects(projects, statusFilter, None) <==>
      p in projects &&
      (statusFilter == "active" ==> p.status == ProjectStatus.InProgress) &&
      (statusFilter == "completed" ==> p.status == ProjectStatus.Completed)
  {
    FilterMembers(projects, (p: Project) => ProjectShown(p, statusFilter));
  }

  /** "all", or any filter other than "active" and "completed", lists the projects as given, in order. */
  lemma OtherFiltersKeepAll(projects: seq<Project>, statusFilter: string, limit: Option<int>)
    requires statusFilter != "active" && statusFilter != "completed"
    ensures FilteredProjects(projects, statusFilter, limit) == Slice(projects, limit)
  {
    FilterAll(projects, (p: Project) => ProjectShown(p, statusFilter));
  }

  /**
   * A limit n >= 0 keeps the first n of the filtered projects, or all of
   * them when there are fewer.
   */
  lemma LimitKeepsPrefix(projects: seq<Project>, statusFilter: string, n: int)
    requires n >= 0
    ensures var all := FilteredProjects(projects, statusFilter, None);
      var shown := FilteredProjects(projects, statusFilter, Some(n));
      shown <= all && |shown| == if n < |all| then n else |all|
  {
  }

  /** getClientName: the first matching client's name, or "Unknown Client". */
  function GetClientName(clients: seq<Client>, clientId: int): (r: string)
    ensures (forall i :: 0 <= i < |clients| ==> clients[i].id != clientId) ==> r == "Unknown Client"
    ensures forall i :: 0 <= i < |clients| && clients[i].id == clientId ==>
      (forall j :: 0 <= j < i ==> clients[j].id != clientId) ==> r == clients[i].name
  {
    match ClientName(clients, clientId)
    case None => "Unknown Client"
    case Some(name) => name
  }

  // ---------------------------------------------------------------------
  // The avatar

  /** `word[0]` joined: the first character of each word, nothing for an empty word. */
  function FirstLetters(words: seq<string>): string
  {
    if words == [] then ""
    else (if words[0] == "" then "" else [words[0][0]]) + FirstLetters(words[1..])
  }

  /** Empty words (from repeated spaces) contribute nothing: one letter per non-empty word, in order. */
  lemma {:induction false} FirstLettersOfWords(words: seq<string>)
    ensures var ws := Filter(words, (w: string) => w != "");
      |FirstLetters(words)| == |ws| && forall i :: 0 <= i < |ws| ==> ws[i] != "" && FirstLetters(words)[i] == ws[i][0]
  {
    FilterMembers(words, (w: string) => w != "");
    if words != [] {
      FirstLettersOfWords(words[1..]);
    }
  }

  /** getInitials: split on spaces, first letters, upper-cased, at most two. */
  function GetInitials(name: string): string
  {
    var letters := ToUpper(FirstLetters(Split(name, ' ')));
    letters[..SliceEnd(|letters|, 2)]
  }

  /**
   * The initials are the upper-cased first letters of the first two
   * non-empty space-separated words of the name, in order, so there are
   * at most two of them.
   */
  lemma InitialsOfWords(name: string)
    ensures var ws := Filter(Split(name, ' '), (w: string) => w != "");
      var r := GetInitials(name);
      |r| == (if |ws| < 2 then |ws| else 2) &&
      forall i :: 0 <= i < |r| ==> ws[i] != "" && r[i] == ToUpperChar(ws[i][0])
  {
    FirstLettersOfWords(Split(name, ' '));
  }

  const Colors: seq<string> := [
    "bg-primary-100 text-primary-700",
    "bg-green-100 text-green-700",
    "bg-blue-100 text-blue-700",
    "bg-yellow-100 text-yellow-700",
    "bg-indigo-100 text-indigo-700",
    "bg-purple-100 text-purple-700",
    "bg-pink-100 text-pink-700"
  ]

  /**
   * getInitialBackgroundColor: `colors[projectId % 7]` with JavaScript's
   * remainder; a negative remainder indexes nothing (`undefined`).
   */
  function InitialBackgroundColor(projectId: int): (r: Option<string>)
    ensures projectId >= 0 ==> r == Some(Colors[projectId % 7])
    ensures projectId < 0 ==> (r.Some? <==> projectId % 7 == 0)
  {
    var k := JsRem(projectId, |Colors|);
    if 0 <= k then Some(Colors[k]) else None
  }

  /** Two projects with non-negative ids share a colour exactly when their ids agree modulo 7. */
  lemma SameColor(a: int, b: int)
    requires a >= 0 && b >= 0
    ensures InitialBackgroundColor(a) == InitialBackgroundColor(b) <==> a % 7 == b % 7
  {
    if a % 7 != b % 7 {
      assert Colors[a % 7] != Colors[b % 7];
    }
  }
}
