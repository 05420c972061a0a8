/**
 * The per-project and per-client rollups of the reports page
 * (generateProjectData and generateClientData in
 * client/src/pages/reports/index.tsx). Each builds an object keyed by id,
 * accumulates into it, lists it with `Object.values` (integer keys come out
 * ascending), drops the empty rows and sorts the rest, largest first, with
 * a stable sort.
 */
module ReportRollups {
  import opened Wrappers
  import opened Seqs
  import opened Schema
  import opened Reports

  // ---------------------------------------------------------------------
  // Totals of a keyed rollup

  /** The items accepted by p whose key is one of ids. */
  function Among<T>(p: T -> bool, key: T -> int, ids: seq<int>): T -> bool
  {
    x => p(x) && key(x) in ids
  }

  /**
   * One row per distinct id, each holding the sum over the items of that
   * id: together the rows sum to the total over the items of any of them.
   */
  lemma {:induction false} KeyedGroupTotal<T, U>(s: seq<T>, p: T -> bool, key: T -> int, f: T -> real,
                                                 ids: seq<int>, rows: seq<U>, g: U -> real)
    requires |rows| == |ids|
    requires forall i, j :: 0 <= i < j < |ids| ==> ids[i] != ids[j]
    requires forall t :: 0 <= t < |rows| ==> g(rows[t]) == SumOf(Filter(s, During(p, key, ids[t])), f)
    ensures SumOf(rows, g) == SumOf(Filter(s, Among(p, key, ids)), f)
    decreases |ids|
  {
    if ids == [] {
      FilterNone(s, Among(p, key, ids));
    } else {
      var rest := ids[1..];
      KeyedGroupTotal(s, p, key, f, rest, rows[1..], g);
      forall x | x in s
        ensures (Among(p, key, ids)(x) <==> During(p, key, ids[0])(x) || Among(p, key, rest)(x)) &&
                !(During(p, key, ids[0])(x) && Among(p, key, rest)(x))
      {
        assert key(x) in ids <==> key(x) == ids[0] || key(x) in rest by {
          assert ids == [ids[0]] + rest;
        }
      }
      SumOfFilterSplit(s, Among(p, key, ids), During(p, key, ids[0]), Among(p, key, rest), f);
    }
  }

  /** Dropping the zero rows of non-negative rows and sorting the rest keeps their sum. */
  lemma DropZeroRowsKeepsSum<U>(rows: seq<U>, keep: U -> bool, key: U -> real, g: U -> real)
    requires forall x :: x in rows ==> g(x) >= 0.0 && (keep(x) <==> g(x) > 0.0)
    ensures SumOf(SortBy(Filter(rows, keep), key), g) == SumOf(rows, g)
  {
    SumOfPermutation(SortBy(Filter(rows, keep), key), Filter(rows, keep), g);
    SumOfFilter(rows, keep, g);
  }

  // ---------------------------------------------------------------------
  // Projects

  datatype ProjectRow = ProjectRow(name: string, hours: real, value: real)

  function ProjectId(p: Project): int
  {
    p.id
  }

  /** The name stored under id k: that of the last project with that id, whose write survives. */
  function ProjectName(ps: seq<Project>, k: int): string
  {
    match FindLastIndex(ps, WithKey(ProjectId, k))
    case Some(i) => ps[i].name
    case None => ""
  }

  /** The project an entry is logged against, 0 when it has none. */
  function EntryProject(e: TimeEntry): int
  {
    e.projectId.GetOr(0)
  }

  /** The entries that count toward some project: started in r, with a project and a non-zero duration. */
  function Logged(r: DateRange): TimeEntry -> bool
  {
    (e: TimeEntry) => InRange(e.startTime, r) && TruthyId(e.projectId) && TruthyReal(e.duration)
  }

  /** What an entry adds to its project's value: 50 per hour when billable, nothing otherwise. */
  function BillableValue(e: TimeEntry): real
  {
    if e.billable then Hours(e) * 50.0 else 0.0
  }

  /** The hours of an entry when it is billable, 0 otherwise. */
  function BillableHours(e: TimeEntry): real
  {
    if e.billable then Hours(e) else 0.0
  }

  function ProjectHours(es: seq<TimeEntry>, r: DateRange, k: int): real
  {
    SumOf(Filter(es, During(Logged(r), EntryProject, k)), Hours)
  }

  function ProjectValue(es: seq<TimeEntry>, r: DateRange, k: int): real
  {
    SumOf(Filter(es, During(Logged(r), EntryProject, k)), BillableValue)
  }

  /** The project ids in `Object.values` order: each distinct id once, ascending. */
  function ProjectIds(ps: seq<Project>): seq<int>
  {
    SortedDistinct(KeysOf(ps, ProjectId))
  }

  /** `Object.values(projectStats)` after the accumulation. */
  function ProjectStats(ps: seq<Project>, es: seq<TimeEntry>, r: DateRange): seq<ProjectRow>
  {
    var ids := ProjectIds(ps);
    seq(|ids|, t requires 0 <= t < |ids| =>
      ProjectRow(ProjectName(ps, ids[t]), ProjectHours(es, r, ids[t]), ProjectValue(es, r, ids[t])))
  }

  function HasHours(row: ProjectRow): bool
  {
    row.hours > 0.0
  }

  /** The sort key of `(a, b) => b.hours - a.hours`: ascending in minus the hours. */
  function LessHours(row: ProjectRow): real
  {
    -row.hours
  }

  function HoursAre(h: real): ProjectRow -> bool
  {
    (row: ProjectRow) => row.hours == h
  }

  /** generateProjectData as a value. */
  function ProjectData(projects: Option<seq<Project>>, entries: Option<seq<TimeEntry>>, r: DateRange): seq<ProjectRow>
  {
    if projects.None? || entries.None? then []
    else SortBy(Filter(ProjectStats(projects.value, entries.value, r), HasHours), LessHours)
  }

  /** After storing the first j projects: one zero row per id seen, named after the last project with it. */
  ghost predicate ProjectsSoFar(ps: seq<Project>, j: nat, stats: map<int, ProjectRow>)
    requires j <= |ps|
  {
    forall k ::
      (k in stats <==> FindLastIndex(ps[..j], WithKey(ProjectId, k)).Some?) &&
      (k in stats ==> stats[k] == ProjectRow(ProjectName(ps[..j], k), 0.0, 0.0))
  }

  lemma ProjectStep(ps: seq<Project>, j: nat, stats: map<int, ProjectRow>)
    requires j < |ps| && ProjectsSoFar(ps, j, stats)
    ensures ProjectsSoFar(ps, j + 1, stats[ps[j].id := ProjectRow(ps[j].name, 0.0, 0.0)])
  {
    forall k
      ensures FindLastIndex(ps[..j + 1], WithKey(ProjectId, k)) ==
        if ps[j].id == k then Some(j) else FindLastIndex(ps[..j], WithKey(ProjectId, k))
    {
      FindLastIndexSnoc(ps, j, WithKey(ProjectId, k));
      assert WithKey(ProjectId, k)(ps[j]) <==> ps[j].id == k;
    }
  }

  /** `projects.forEach`: each project stores a zero row under its id. */
  method InitProjectStats(ps: seq<Project>) returns (stats: map<int, ProjectRow>)
    ensures forall k :: k in stats <==> k in KeysOf(ps, ProjectId)
    ensures forall k :: k in stats ==> stats[k] == ProjectRow(ProjectName(ps, k), 0.0, 0.0)
  {
    stats := map[];
    var j := 0;
    while j < |ps|
      invariant 0 <= j <= |ps|
      invariant ProjectsSoFar(ps, j, stats)
    {
      ProjectStep(ps, j, stats);
      stats := stats[ps[j].id := ProjectRow(ps[j].name, 0.0, 0.0)];
      j := j + 1;
    }
    assert ps[..|ps|] == ps;
    forall k
      ensures FindLastIndex(ps, WithKey(ProjectId, k)).Some? <==> k in KeysOf(ps, ProjectId)
    {
      FindLastKey(ps, ProjectId, k);
    }
  }

  /** After the first i entries: each project's hours and value are those of these entries. */
  ghost predicate HoursSoFar(es: seq<TimeEntry>, i: nat, r: DateRange, m0: map<int, ProjectRow>, m: map<int, ProjectRow>)
    requires i <= |es|
  {
    m.Keys == m0.Keys &&
    forall k :: k in m ==> m[k] == m0[k].(hours := ProjectHours(es[..i], r, k), value := ProjectValue(es[..i], r, k))
  }

  /** How one entry changes a project's hours and value. */
  lemma ProjectEntryStep(es: seq<TimeEntry>, i: nat, r: DateRange, k: int)
    requires i < |es|
    ensures var hit := Logged(r)(es[i]) && EntryProject(es[i]) == k;
      ProjectHours(es[..i + 1], r, k) == ProjectHours(es[..i], r, k) + (if hit then Hours(es[i]) else 0.0) &&
      ProjectValue(es[..i + 1], r, k) == ProjectValue(es[..i], r, k) + (if hit then BillableValue(es[i]) else 0.0)
  {
    SumOfFilterSnoc(es, i, During(Logged(r), EntryProject, k), Hours);
    SumOfFilterSnoc(es, i, During(Logged(r), EntryProject, k), BillableValue);
  }

  /** A billable entry credits hours and value to its project. */
  lemma BillableCredit(es: seq<TimeEntry>, i: nat, r: DateRange, m0: map<int, ProjectRow>, m: map<int, ProjectRow>)
    requires i < |es| && Logged(r)(es[i]) && es[i].billable && EntryProject(es[i]) in m
    requires HoursSoFar(es, i, r, m0, m)
    ensures var k0 := EntryProject(es[i]);
      var d := es[i].duration.value;
      var m1 := m[k0 := m[k0].(hours := m[k0].hours + d)];
      HoursSoFar(es, i + 1, r, m0, m1[k0 := m1[k0].(value := m1[k0].value + d * 50.0)])
  {
    forall k | k in m
    {
      ProjectEntryStep(es, i, r, k);
    }
  }

  /** A non-billable entry credits hours only. */
  lemma PlainCredit(es: seq<TimeEntry>, i: nat, r: DateRange, m0: map<int, ProjectRow>, m: map<int, ProjectRow>)
    requires i < |es| && Logged(r)(es[i]) && !es[i].billable && EntryProject(es[i]) in m
    requires HoursSoFar(es, i, r, m0, m)
    ensures var k0 := EntryProject(es[i]);
      HoursSoFar(es, i + 1, r, m0, m[k0 := m[k0].(hours := m[k0].hours + es[i].duration.value)])
  {
    forall k | k in m
    {
      ProjectEntryStep(es, i, r, k);
    }
  }

  /** An entry that is out of range, has no project or duration, or names an unknown project changes nothing. */
  lemma EntrySkip(es: seq<TimeEntry>, i: nat, r: DateRange, m0: map<int, ProjectRow>, m: map<int, ProjectRow>)
    requires i < |es| && !(Logged(r)(es[i]) && EntryProject(es[i]) in m)
    requires HoursSoFar(es, i, r, m0, m)
    ensures HoursSoFar(es, i + 1, r, m0, m)
  {
    forall k | k in m
    {
      ProjectEntryStep(es, i, r, k);
    }
  }

  /** `timeEntries.forEach`: hours, and 50 per billable hour, added to the entry's project when it is known. */
  method AddProjectHours(es: seq<TimeEntry>, r: DateRange, stats0: map<int, ProjectRow>) returns (stats: map<int, ProjectRow>)
    requires forall k :: k in stats0 ==> stats0[k].hours == 0.0 && stats0[k].value == 0.0
    ensures stats.Keys == stats0.Keys
    ensures forall k :: k in stats ==>
      stats[k] == stats0[k].(hours := ProjectHours(es, r, k), value := ProjectValue(es, r, k))
  {
    stats := stats0;
    var i := 0;
    while i < |es|
      invariant 0 <= i <= |es|
      invariant HoursSoFar(es, i, r, stats0, stats)
    {
      var e := es[i];
      if e.startTime >= r.start && e.startTime <= r.end && TruthyId(e.projectId) && TruthyReal(e.duration) {
        var pid := e.projectId.value;
        if pid in stats {
          if e.billable {
            BillableCredit(es, i, r, stats0, stats);
          } else {
            PlainCredit(es, i, r, stats0, stats);
          }
          stats := stats[pid := stats[pid].(hours := stats[pid].hours + e.duration.value)];
          if e.billable {
            stats := stats[pid := stats[pid].(value := stats[pid].value + e.duration.value * 50.0)];
          }
        } else {
          EntrySkip(es, i, r, stats0, stats);
        }
      } else {
        EntrySkip(es, i, r, stats0, stats);
      }
      i := i + 1;
    }
    assert es[..|es|] == es;
  }

  /** generateProjectData: rows per project, empty ones dropped, sorted by hours, largest first. */
  method GenerateProjectData(projects: Option<seq<Project>>, entries: Option<seq<TimeEntry>>, r: DateRange)
    returns (rows: seq<ProjectRow>)
    ensures rows == ProjectData(projects, entries, r)
  {
    if projects.None? || entries.None? {
      return [];
    }
    var ps := projects.value;
    var stats := InitProjectStats(ps);
    stats := AddProjectHours(entries.value, r, stats);
    var ids := ProjectIds(ps);
    var values := seq(|ids|, t requires 0 <= t < |ids| => stats[ids[t]]);
    assert values == ProjectStats(ps, entries.value, r);
    rows := SortBy(Filter(values, HasHours), LessHours);
  }

  /** The rows come out by hours, largest first. */
  lemma ProjectDataDescending(projects: Option<seq<Project>>, entries: Option<seq<TimeEntry>>, r: DateRange)
    ensures var rows := ProjectData(projects, entries, r);
      forall i, j :: 0 <= i < j < |rows| ==> rows[i].hours >= rows[j].hours
  {
    if projects.Some? && entries.Some? {
      var rows := ProjectData(projects, entries, r);
      SortBySorted(Filter(ProjectStats(projects.value, entries.value, r), HasHours), LessHours);
      forall i, j | 0 <= i < j < |rows|
        ensures rows[i].hours >= rows[j].hours
      {
        assert LessHours(rows[i]) <= LessHours(rows[j]);
      }
    }
  }

  /** The rows are exactly the project rows with positive hours. */
  lemma ProjectDataRows(projects: Option<seq<Project>>, entries: Option<seq<TimeEntry>>, r: DateRange, row: ProjectRow)
    requires projects.Some? && entries.Some?
    ensures row in ProjectData(projects, entries, r) <==>
      row in ProjectStats(projects.value, entries.value, r) && row.hours > 0.0
  {
    SortFilterMembers(ProjectStats(projects.value, entries.value, r), HasHours, LessHours, row);
  }

  /** Rows with equal hours keep the ascending-id order of `Object.values`. */
  lemma ProjectDataTies(projects: Option<seq<Project>>, entries: Option<seq<TimeEntry>>, r: DateRange, h: real)
    requires projects.Some? && entries.Some? && h > 0.0
    ensures Filter(ProjectData(projects, entries, r), HoursAre(h)) ==
      Filter(ProjectStats(projects.value, entries.value, r), HoursAre(h))
  {
    var stats := ProjectStats(projects.value, entries.value, r);
    SortByStable(Filter(stats, HasHours), LessHours, HoursAre(h), -h);
    FilterNarrow(stats, HasHours, HoursAre(h));
  }

  /** A project's value is 50 times its billable hours. */
  lemma ProjectValueRate(es: seq<TimeEntry>, r: DateRange, k: int)
    ensures ProjectValue(es, r, k) == 50.0 * SumOf(Filter(es, During(Logged(r), EntryProject, k)), BillableHours)
  {
    SumOfScale(Filter(es, During(Logged(r), EntryProject, k)), BillableHours, BillableValue, 50.0);
  }

  function HoursOf(row: ProjectRow): real
  {
    row.hours
  }

  /** The entries logged in r against the id of one of the projects. */
  function LoggedToKnown(ps: seq<Project>, r: DateRange): TimeEntry -> bool
  {
    (e: TimeEntry) => Logged(r)(e) && EntryProject(e) in KeysOf(ps, ProjectId)
  }

  /**
   * The project rollup conserves hours: its rows sum to the hours of the
   * entries logged in r against a listed project. An entry on an id no
   * project has is dropped, and so is any project whose total is 0.
   */
  lemma ProjectDataConserves(ps: seq<Project>, es: seq<TimeEntry>, r: DateRange)
    requires forall e :: e in es && Logged(r)(e) ==> Hours(e) >= 0.0
    ensures SumOf(ProjectData(Some(ps), Some(es), r), HoursOf) == SumOf(Filter(es, LoggedToKnown(ps, r)), Hours)
  {
    var ids := ProjectIds(ps);
    var stats := ProjectStats(ps, es, r);
    forall t | 0 <= t < |stats|
      ensures HoursOf(stats[t]) == SumOf(Filter(es, During(Logged(r), EntryProject, ids[t])), Hours)
      ensures HoursOf(stats[t]) >= 0.0
    {
      FilterMembers(es, During(Logged(r), EntryProject, ids[t]));
      SumOfNonNegative(Filter(es, During(Logged(r), EntryProject, ids[t])), Hours);
    }
    DropZeroRowsKeepsSum(stats, HasHours, LessHours, HoursOf);
    KeyedGroupTotal(es, Logged(r), EntryProject, Hours, ids, stats, HoursOf);
    FilterCongruent(es, Among(Logged(r), EntryProject, ids), LoggedToKnown(ps, r));
  }

  // ---------------------------------------------------------------------
  // Clients

  datatype ClientRow = ClientRow(name: string, revenue: real, value: real)

  function ClientId(c: Client): int
  {
    c.id
  }

  /** The name stored under id k: that of the last client with that id. */
  function ClientName(cs: seq<Client>, k: int): string
  {
    match FindLastIndex(cs, WithKey(ClientId, k))
    case Some(i) => cs[i].name
    case None => ""
  }

  function InvoiceClient(inv: Invoice): int
  {
    inv.clientId
  }

  /** The paid invoices of r billed to client k, summed. */
  function ClientRevenue(invs: seq<Invoice>, r: DateRange, k: int): real
  {
    SumOf(Filter(invs, During(PaidIn(r), InvoiceClient, k)), InvoiceTotal)
  }

  function ClientIds(cs: seq<Client>): seq<int>
  {
    SortedDistinct(KeysOf(cs, ClientId))
  }

  /** `Object.values(clientStats)` after the accumulation. */
  function ClientStats(cs: seq<Client>, invs: seq<Invoice>, r: DateRange): seq<ClientRow>
  {
    var ids := ClientIds(cs);
    seq(|ids|, t requires 0 <= t < |ids| =>
      ClientRow(ClientName(cs, ids[t]), ClientRevenue(invs, r, ids[t]), ClientRevenue(invs, r, ids[t])))
  }

  function HasRevenue(row: ClientRow): bool
  {
    row.revenue > 0.0
  }

  function LessRevenue(row: ClientRow): real
  {
    -row.revenue
  }

  function RevenueIs(v: real): ClientRow -> bool
  {
    (row: ClientRow) => row.revenue == v
  }

  /** generateClientData as a value. */
  function ClientData(clients: Option<seq<Client>>, invoices: Option<seq<Invoice>>, r: DateRange): seq<ClientRow>
  {
    if clients.None? || invoices.None? then []
    else SortBy(Filter(ClientStats(clients.value, invoices.value, r), HasRevenue), LessRevenue)
  }

  ghost predicate ClientsSoFar(cs: seq<Client>, j: nat, stats: map<int, ClientRow>)
    requires j <= |cs|
  {
    forall k ::
      (k in stats <==> FindLastIndex(cs[..j], WithKey(ClientId, k)).Some?) &&
      (k in stats ==> stats[k] == ClientRow(ClientName(cs[..j], k), 0.0, 0.0))
  }

  lemma ClientStep(cs: seq<Client>, j: nat, stats: map<int, ClientRow>)
    requires j < |cs| && ClientsSoFar(cs, j, stats)
    ensures ClientsSoFar(cs, j + 1, stats[cs[j].id := ClientRow(cs[j].name, 0.0, 0.0)])
  {
    forall k
      ensures FindLastIndex(cs[..j + 1], WithKey(ClientId, k)) ==
        if cs[j].id == k then Some(j) else FindLastIndex(cs[..j], WithKey(ClientId, k))
    {
      FindLastIndexSnoc(cs, j, WithKey(ClientId, k));
      assert WithKey(ClientId, k)(cs[j]) <==> cs[j].id == k;
    }
  }

  /** `clients.forEach`: each client stores a zero row under its id. */
  method InitClientStats(cs: seq<Client>) returns (stats: map<int, ClientRow>)
    ensures forall k :: k in stats <==> k in KeysOf(cs, ClientId)
    ensures forall k :: k in stats ==> stats[k] == ClientRow(ClientName(cs, k), 0.0, 0.0)
  {
    stats := map[];
    var j := 0;
    while j < |cs|
      invariant 0 <= j <= |cs|
      invariant ClientsSoFar(cs, j, stats)
    {
      ClientStep(cs, j, stats);
      stats := stats[cs[j].id := ClientRow(cs[j].name, 0.0, 0.0)];
      j := j + 1;
    }
    assert cs[..|cs|] == cs;
    forall k
      ensures FindLastIndex(cs, WithKey(ClientId, k)).Some? <==> k in KeysOf(cs, ClientId)
    {
      FindLastKey(cs, ClientId, k);
    }
  }

  /** After the first i invoices: each client's revenue, and its value, are those of these invoices. */
  ghost predicate RevenueSoFar(invs: seq<Invoice>, i: nat, r: DateRange, m0: map<int, ClientRow>, m: map<int, ClientRow>)
    requires i <= |invs|
  {
    m.Keys == m0.Keys &&
    forall k :: k in m ==> m[k] == m0[k].(revenue := ClientRevenue(invs[..i], r, k), value := ClientRevenue(invs[..i], r, k))
  }

  lemma ClientInvoiceStep(invs: seq<Invoice>, i: nat, r: DateRange, k: int)
    requires i < |invs|
    ensures ClientRevenue(invs[..i + 1], r, k) == ClientRevenue(invs[..i], r, k) +
      (if PaidIn(r)(invs[i]) && invs[i].clientId == k then invs[i].total else 0.0)
  {
    SumOfFilterSnoc(invs, i, During(PaidIn(r), InvoiceClient, k), InvoiceTotal);
  }

  lemma RevenueCredit(invs: seq<Invoice>, i: nat, r: DateRange, m0: map<int, ClientRow>, m: map<int, ClientRow>)
    requires i < |invs| && PaidIn(r)(invs[i]) && invs[i].clientId in m
    requires RevenueSoFar(invs, i, r, m0, m)
    ensures var k0 := invs[i].clientId;
      var m1 := m[k0 := m[k0].(revenue := m[k0].revenue + invs[i].total)];
      RevenueSoFar(invs, i + 1, r, m0, m1[k0 := m1[k0].(value := m1[k0].revenue)])
  {
    forall k | k in m
    {
      ClientInvoiceStep(invs, i, r, k);
    }
  }

  lemma RevenueSkip(invs: seq<Invoice>, i: nat, r: DateRange, m0: map<int, ClientRow>, m: map<int, ClientRow>)
    requires i < |invs| && !(PaidIn(r)(invs[i]) && invs[i].clientId in m)
    requires RevenueSoFar(invs, i, r, m0, m)
    ensures RevenueSoFar(invs, i + 1, r, m0, m)
  {
    forall k | k in m
    {
      ClientInvoiceStep(invs, i, r, k);
    }
  }

  /** `invoices.forEach`: each paid invoice of r adds its total to its client's revenue; value follows revenue. */
  method AddClientRevenue(invs: seq<Invoice>, r: DateRange, stats0: map<int, ClientRow>) returns (stats: map<int, ClientRow>)
    requires forall k :: k in stats0 ==> stats0[k].revenue == 0.0 && stats0[k].value == 0.0
    ensures stats.Keys == stats0.Keys
    ensures forall k :: k in stats ==>
      stats[k] == stats0[k].(revenue := ClientRevenue(invs, r, k), value := ClientRevenue(invs, r, k))
  {
    stats := stats0;
    var i := 0;
    while i < |invs|
      invariant 0 <= i <= |invs|
      invariant RevenueSoFar(invs, i, r, stats0, stats)
    {
      var inv := invs[i];
      if inv.issueDate >= r.start && inv.issueDate <= r.end && inv.status == InvoiceStatus.Paid {
        if inv.clientId in stats {
          RevenueCredit(invs, i, r, stats0, stats);
          stats := stats[inv.clientId := stats[inv.clientId].(revenue := stats[inv.clientId].revenue + inv.total)];
          stats := stats[inv.clientId := stats[inv.clientId].(value := stats[inv.clientId].revenue)];
        } else {
          RevenueSkip(invs, i, r, stats0, stats);
        }
      } else {
        RevenueSkip(invs, i, r, stats0, stats);
      }
      i := i + 1;
    }
    assert invs[..|invs|] == invs;
  }

  /** generateClientData: rows per client, those without revenue dropped, sorted by revenue, largest first. */
  method GenerateClientData(clients: Option<seq<Client>>, invoices: Option<seq<Invoice>>, r: DateRange)
    returns (rows: seq<ClientRow>)
    ensures rows == ClientData(clients, invoices, r)
  {
    if clients.None? || invoices.None? {
      return [];
    }
    var cs := clients.value;
    var stats := InitClientStats(cs);
    stats := AddClientRevenue(invoices.value, r, stats);
    var ids := ClientIds(cs);
    assert forall t :: 0 <= t < |ids| ==> ids[t] in stats by {
      forall t | 0 <= t < |ids|
        ensures ids[t] in stats
      {
        assert ids[t] in ids;
        assert ids[t] in KeysOf(cs, ClientId);
      }
    }
    var values := seq(|ids|, t requires 0 <= t < |ids| => stats[ids[t]]);
    assert values == ClientStats(cs, invoices.value, r);
    rows := SortBy(Filter(values, HasRevenue), LessRevenue);
  }

  /** The rows come out by revenue, largest first. */
  lemma ClientDataDescending(clients: Option<seq<Client>>, invoices: Option<seq<Invoice>>, r: DateRange)
    ensures var rows := ClientData(clients, invoices, r);
      forall i, j :: 0 <= i < j < |rows| ==> rows[i].revenue >= rows[j].revenue
  {
    if clients.Some? && invoices.Some? {
      var rows := ClientData(clients, invoices, r);
      SortBySorted(Filter(ClientStats(clients.value, invoices.value, r), HasRevenue), LessRevenue);
      forall i, j | 0 <= i < j < |rows|
        ensures rows[i].revenue >= rows[j].revenue
      {
        assert LessRevenue(rows[i]) <= LessRevenue(rows[j]);
      }
    }
  }

  /** The rows are the client rows with positive revenue, and each row's value is its revenue. */
  lemma ClientDataRows(clients: Option<seq<Client>>, invoices: Option<seq<Invoice>>, r: DateRange, row: ClientRow)
    requires clients.Some? && invoices.Some?
    ensures row in ClientData(clients, invoices, r) <==>
      row in ClientStats(clients.value, invoices.value, r) && row.revenue > 0.0
    ensures row in ClientData(clients, invoices, r) ==> row.value == row.revenue
  {
    var stats := ClientStats(clients.value, invoices.value, r);
    SortFilterMembers(stats, HasRevenue, LessRevenue, row);
    if row in stats {
      var t :| 0 <= t < |stats| && stats[t] == row;
    }
  }

  /** Clients with equal revenue keep the ascending-id order of `Object.values`. */
  lemma ClientDataTies(clients: Option<seq<Client>>, invoices: Option<seq<Invoice>>, r: DateRange, v: real)
    requires clients.Some? && invoices.Some? && v > 0.0
    ensures Filter(ClientData(clients, invoices, r), RevenueIs(v)) ==
      Filter(ClientStats(clients.value, invoices.value, r), RevenueIs(v))
  {
    var stats := ClientStats(clients.value, invoices.value, r);
    SortByStable(Filter(stats, HasRevenue), LessRevenue, RevenueIs(v), -v);
    FilterNarrow(stats, HasRevenue, RevenueIs(v));
  }

  function RevenueOf(row: ClientRow): real
  {
    row.revenue
  }

  /** The invoices paid in r and billed to the id of one of the clients. */
  function PaidToKnown(cs: seq<Client>, r: DateRange): Invoice -> bool
  {
    (inv: Invoice) => PaidIn(r)(inv) && InvoiceClient(inv) in KeysOf(cs, ClientId)
  }

  /**
   * The client rollup conserves revenue: its rows sum to the totals of the
   * invoices paid in r and billed to a listed client. An invoice of an id
   * no client has is dropped, and so is any client whose revenue is 0.
   */
  lemma ClientDataConserves(cs: seq<Client>, invs: seq<Invoice>, r: DateRange)
    requires forall inv :: inv in invs && PaidIn(r)(inv) ==> inv.total >= 0.0
    ensures SumOf(ClientData(Some(cs), Some(invs), r), RevenueOf) == SumOf(Filter(invs, PaidToKnown(cs, r)), InvoiceTotal)
  {
    var ids := ClientIds(cs);
    var stats := ClientStats(cs, invs, r);
    forall t | 0 <= t < |stats|
      ensures RevenueOf(stats[t]) == SumOf(Filter(invs, During(PaidIn(r), InvoiceClient, ids[t])), InvoiceTotal)
      ensures RevenueOf(stats[t]) >= 0.0
    {
      FilterMembers(invs, During(PaidIn(r), InvoiceClient, ids[t]));
      SumOfNonNegative(Filter(invs, During(PaidIn(r), InvoiceClient, ids[t])), InvoiceTotal);
    }
    DropZeroRowsKeepsSum(stats, HasRevenue, LessRevenue, RevenueOf);
    KeyedGroupTotal(invs, PaidIn(r), InvoiceClient, InvoiceTotal, ids, stats, RevenueOf);
    FilterCongruent(invs, Among(PaidIn(r), InvoiceClient, ids), PaidToKnown(cs, r));
  }

  // ---------------------------------------------------------------------
  // Dispatch

  /** The series a chart draws: one shape per report type, or nothing. */
  datatype ReportData =
    | RevenueReport(revenue: seq<RevenueRow>)
    | ProjectReport(projects: seq<ProjectRow>)
    | ClientReport(clients: seq<ClientRow>)
    | TimeReport(time: seq<TimeRow>)
    | NoReport

  /** getReportData: the report type selects one generator; an unknown type draws nothing. */
  method GetReportData(reportType: string, invoices: Option<seq<Invoice>>, projects: Option<seq<Project>>,
                       clients: Option<seq<Client>>, entries: Option<seq<TimeEntry>>, r: DateRange)
    returns (d: ReportData)
    ensures reportType == "revenue" ==> d == RevenueReport(RevenueData(invoices, r))
    ensures reportType == "projects" ==> d == ProjectReport(ProjectData(projects, entries, r))
    ensures reportType == "clients" ==> d == ClientReport(ClientData(clients, invoices, r))
    ensures reportType == "time" ==> d == TimeReport(TimeData(entries, r))
    ensures d.NoReport? <==> reportType !in ["revenue", "projects", "clients", "time"]
  {
    if reportType == "revenue" {
      var rows := GenerateRevenueData(invoices, r);
      d := RevenueReport(rows);
    } else if reportType == "projects" {
      var rows := GenerateProjectData(projects, entries, r);
      d := ProjectReport(rows);
    } else if reportType == "clients" {
      var rows := GenerateClientData(clients, invoices, r);
      d := ClientReport(rows);
    } else if reportType == "time" {
      var rows := GenerateTimeData(entries, r);
      d := TimeReport(rows);
    } else {
      d := NoReport;
    }
  }
}
