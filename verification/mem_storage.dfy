/**
 * The in-memory storage engine (class MemStorage of server/storage.ts):
 * ten tables keyed by numeric id, each with its own auto-increment counter.
 * The ten `Map` fields and the ten `*CurrentId` counters are held here as
 * one map of tables and one map of counters, both indexed by `Table`.
 *
 * A JavaScript `Map` lists its values in insertion order, an update keeps a
 * key's place, and ids are handed out in increasing order, so a table lists
 * its rows by ascending id; `ValuesBelow` is that listing.
 */
module Storage {
  import opened Wrappers
  import opened Seqs
  import opened Calendar
  import opened Records

  datatype Table =
    | Users | Clients | Projects | Tasks | TimeEntries
    | Invoices | InvoiceItems | Contracts | Events | Activities

  /** One table: rows keyed by id. */
  type Rows = map<int, Record>

  /** The rows of t with ids 0 .. n-1, by ascending id. */
  function ValuesBelow(t: Rows, n: int): (s: seq<Record>)
    decreases n
  {
    if n <= 0 then [] else ValuesBelow(t, n - 1) + (if n - 1 in t then [t[n - 1]] else [])
  }

  /** The listing holds exactly the rows stored under ids 0 .. n-1. */
  lemma {:induction false} ValuesBelowMembers(t: Rows, n: int, x: Record)
    ensures x in ValuesBelow(t, n) <==> exists j :: 0 <= j < n && j in t && t[j] == x
    decreases n
  {
    if n > 0 {
      ValuesBelowMembers(t, n - 1, x);
    }
  }

  /** The listing has one row per stored id below n. */
  lemma {:induction false} ValuesBelowCount(t: Rows, n: int)
    ensures |ValuesBelow(t, n)| == |set j | j in t && 0 <= j < n|
    decreases n
  {
    if n > 0 {
      ValuesBelowCount(t, n - 1);
      var a := set j | j in t && 0 <= j < n - 1;
      var b := set j | j in t && 0 <= j < n;
      if n - 1 in t {
        assert b == a + {n - 1};
      } else {
        assert b == a;
      }
    }
  }

  /** The listing has one row satisfying p per stored id below n whose row satisfies p. */
  lemma {:induction false} ValuesBelowFilterCount(t: Rows, n: int, p: Record -> bool)
    ensures |Filter(ValuesBelow(t, n), p)| == |set j | j in t && 0 <= j < n && p(t[j])|
    decreases n
  {
    if n > 0 {
      ValuesBelowFilterCount(t, n - 1, p);
      ValuesBelowFilterStep(t, n, p);
      var before := set j | j in t && 0 <= j < n - 1 && p(t[j]);
      var upTo := set j | j in t && 0 <= j < n && p(t[j]);
      if n - 1 in t && p(t[n - 1]) {
        assert upTo == before + {n - 1};
        assert n - 1 !in before;
      } else {
        assert upTo == before;
      }
    }
  }

  /** Listing one more id adds its row to the filtered listing when it is stored and satisfies p. */
  lemma ValuesBelowFilterStep(t: Rows, n: int, p: Record -> bool)
    requires n > 0
    ensures |Filter(ValuesBelow(t, n), p)| == |Filter(ValuesBelow(t, n - 1), p)| + (if n - 1 in t && p(t[n - 1]) then 1 else 0)
  {
    var b := if n - 1 in t then [t[n - 1]] else [];
    FilterAppend(ValuesBelow(t, n - 1), b, p);
    if n - 1 in t && p(t[n - 1]) {
      assert Filter(b, p) == [t[n - 1]];
    } else {
      assert Filter(b, p) == [];
    }
  }

  /** Rows stored under ids at or above n are not listed. */
  lemma {:induction false} ValuesBelowFrame(t: Rows, u: Rows, n: int)
    requires forall j :: 0 <= j < n ==> (j in t <==> j in u)
    requires forall j :: 0 <= j < n && j in t ==> t[j] == u[j]
    ensures ValuesBelow(t, n) == ValuesBelow(u, n)
    decreases n
  {
    if n > 0 {
      ValuesBelowFrame(t, u, n - 1);
    }
  }

  /** The first listed row satisfying p is stored under the smallest id whose row satisfies p. */
  lemma {:induction false} ValuesBelowFirst(t: Rows, n: int, p: Record -> bool, i: int)
    requires 0 <= i < |ValuesBelow(t, n)| && p(ValuesBelow(t, n)[i])
    requires forall k :: 0 <= k < i ==> !p(ValuesBelow(t, n)[k])
    ensures
      exists id :: 0 <= id < n && id in t && t[id] == ValuesBelow(t, n)[i] &&
        forall j :: 0 <= j < id && j in t ==> !p(t[j])
    decreases n
  {
    var a := ValuesBelow(t, n - 1);
    var b := if n - 1 in t then [t[n - 1]] else [];
    assert ValuesBelow(t, n) == a + b;
    if i < |a| {
      assert forall k :: 0 <= k <= i ==> ValuesBelow(t, n)[k] == a[k];
      ValuesBelowFirst(t, n - 1, p, i);
    } else {
      assert ValuesBelow(t, n)[i] == t[n - 1];
      forall j | 0 <= j < n - 1 && j in t
        ensures !p(t[j])
      {
        ValuesBelowMembers(t, n - 1, t[j]);
        var k :| 0 <= k < |a| && a[k] == t[j];
        assert ValuesBelow(t, n)[k] == a[k];
      }
    }
  }

  /** Every stored row's `id` property is its key. */
  ghost predicate IdsMatch(t: Rows)
  {
    forall j :: j in t ==> Get(t[j], "id") == IdValue(j)
  }

  /** `rows.map(r => r.id)`. */
  function IdsOf(rows: seq<Record>): (ids: seq<Value>)
    ensures |ids| == |rows|
  {
    seq(|rows|, i requires 0 <= i < |rows| => Get(rows[i], "id"))
  }

  lemma IdsOfAppend(a: seq<Record>, b: seq<Record>)
    ensures IdsOf(a + b) == IdsOf(a) + IdsOf(b)
  {
    assert forall i :: 0 <= i < |a + b| ==> IdsOf(a + b)[i] == (IdsOf(a) + IdsOf(b))[i];
  }

  /** The ids of the listed rows that satisfy p are the keys of the stored rows that satisfy p. */
  lemma {:induction false} ListedIds(t: Rows, n: int, p: Record -> bool, j: int)
    requires IdsMatch(t)
    ensures IdValue(j) in IdsOf(Filter(ValuesBelow(t, n), p)) <==> 0 <= j < n && j in t && p(t[j])
    decreases n
  {
    if n > 0 {
      ListedIds(t, n - 1, p, j);
      var a := ValuesBelow(t, n - 1);
      var b := if n - 1 in t then [t[n - 1]] else [];
      FilterAppend(a, b, p);
      IdsOfAppend(Filter(a, p), Filter(b, p));
      var head := IdsOf(Filter(a, p));
      var tail := IdsOf(Filter(b, p));
      assert IdsOf(Filter(ValuesBelow(t, n), p)) == head + tail;
      if n - 1 in t && p(t[n - 1]) {
        assert Filter(b, p) == [t[n - 1]];
        assert tail == [IdValue(n - 1)];
      } else {
        assert Filter(b, p) == [];
        assert tail == [];
      }
      assert IdValue(j) in tail <==> j == n - 1 && n - 1 in t && p(t[n - 1]);
      assert IdValue(j) in head + tail <==> IdValue(j) in head || IdValue(j) in tail;
    }
  }

  /** `Map.delete(key)` with a numeric key: only an integral key can name a row. */
  function RemoveId(t: Rows, v: Value): (r: Rows)
    ensures forall j :: j in r <==> j in t && v != IdValue(j)
    ensures forall j :: j in r ==> r[j] == t[j]
  {
    if v.Num? && v.n.Floor as real == v.n then t - {v.n.Floor} else t
  }

  /** `ids.forEach(id => table.delete(id))`. */
  method DeleteEach(t: Rows, ids: seq<Value>) returns (u: Rows)
    ensures forall j :: j in u <==> j in t && IdValue(j) !in ids
    ensures forall j :: j in u ==> u[j] == t[j]
  {
    u := t;
    var i := 0;
    while i < |ids|
      invariant 0 <= i <= |ids|
      invariant forall j :: j in u <==> j in t && IdValue(j) !in ids[..i]
      invariant forall j :: j in u ==> u[j] == t[j]
    {
      assert ids[..i + 1] == ids[..i] + [ids[i]];
      u := RemoveId(u, ids[i]);
      i := i + 1;
    }
    assert ids[..|ids|] == ids;
  }

  /**
   * Deleting the ids of the listed rows that satisfy p removes exactly the
   * stored rows that satisfy p, and the table stays valid.
   */
  lemma CascadeKeeps(t: Rows, counter: int, p: Record -> bool, ids: seq<Value>, u: Rows)
    requires TableValid(t, counter)
    requires ids == IdsOf(Filter(ValuesBelow(t, counter), p))
    requires forall j :: j in u <==> j in t && IdValue(j) !in ids
    requires forall j :: j in u ==> u[j] == t[j]
    ensures forall j :: j in u <==> j in t && !p(t[j])
    ensures TableValid(u, counter)
  {
    forall j | j in t
      ensures IdValue(j) in ids <==> p(t[j])
    {
      ListedIds(t, counter, p, j);
    }
  }

  /** A table's invariant: its ids lie between 1 and its counter, and each row's `id` is its key. */
  ghost predicate TableValid(t: Rows, counter: int)
  {
    counter >= 1 && (forall j :: j in t ==> 1 <= j < counter) && IdsMatch(t)
  }

  /** Storing a row under an id above every stored id lists it last. */
  lemma ValuesBelowSnoc(t: Rows, id: int, row: Record)
    requires id >= 0
    requires forall j :: j in t ==> j < id
    ensures ValuesBelow(t[id := row], id + 1) == ValuesBelow(t, id) + [row]
  {
    ValuesBelowFrame(t, t[id := row], id);
  }

  /** The properties create* adds to the caller's data; invoice items carry no creation time. */
  function Stamp(k: Table, id: int, now: int): (r: Record)
    ensures Get(r, "id") == IdValue(id)
    ensures "createdAt" in r <==> k != InvoiceItems
  {
    var base := map["id" := IdValue(id)];
    match k
    case InvoiceItems => base
    case Projects => base["createdAt" := Time(now)]["completedAt" := Null]
    case Tasks => base["createdAt" := Time(now)]["completedAt" := Null]
    case Invoices => base["createdAt" := Time(now)]["paidAt" := Null]["paidAmount" := Null]
    case Contracts => base["createdAt" := Time(now)]["signedAt" := Null]
    case _ => base["createdAt" := Time(now)]
  }

  /** A map holding the ten tables as keys holds every table. */
  lemma AllTables<V>(m: map<Table, V>)
    requires Users in m && Clients in m && Projects in m && Tasks in m && TimeEntries in m
    requires Invoices in m && InvoiceItems in m && Contracts in m && Events in m && Activities in m
    ensures forall k: Table :: k in m
  {
    forall k: Table
      ensures k in m
    {
      match k
      case Users =>
      case Clients =>
      case Projects =>
      case Tasks =>
      case TimeEntries =>
      case Invoices =>
      case InvoiceItems =>
      case Contracts =>
      case Events =>
      case Activities =>
    }
  }

  /** Ten empty tables. */
  function EmptyTables(): (m: map<Table, Rows>)
    ensures forall k: Table :: k in m && m[k] == map[]
  {
    var m := map[Users := map[], Clients := map[], Projects := map[], Tasks := map[],
                 TimeEntries := map[], Invoices := map[], InvoiceItems := map[],
                 Contracts := map[], Events := map[], Activities := map[]];
    AllTables(m);
    m
  }

  /** Ten counters at 1. */
  function FirstIds(): (m: map<Table, int>)
    ensures forall k: Table :: k in m && m[k] == 1
  {
    var m := map[Users := 1, Clients := 1, Projects := 1, Tasks := 1, TimeEntries := 1,
                 Invoices := 1, InvoiceItems := 1, Contracts := 1, Events := 1, Activities := 1];
    AllTables(m);
    m
  }

  /** The user the constructor seeds. */
  function AdminUser(): Record
  {
    map["username" := Str("admin"), "password" := Str("password123"), "firstName" := Str("Alex"),
        "lastName" := Str("Moldovan"), "email" := Str("admin@bizflow.com"),
        "phone" := Str("+40 123 456 789"), "role" := Str("admin"), "language" := Str("en")]
  }

  /** `x => x[field] === v`. */
  function FieldIs(field: string, v: Value): Record -> bool
  {
    (x: Record) => Get(x, field) == v
  }

  /** Tasks listUpcomingTasks keeps: assigned to the user and not completed. */
  function OpenFor(userId: int): Record -> bool
  {
    (x: Record) => Get(x, "assignedTo") == IdValue(userId) && Get(x, "status") != Str("completed")
  }

  predicate Dated(x: Record)
  {
    Truthy(Get(x, "dueDate"))
  }

  predicate Undated(x: Record)
  {
    !Dated(x)
  }

  function DueKey(x: Record): real
  {
    Instant(Get(x, "dueDate")) as real
  }

  /**
   * The order listUpcomingTasks sorts into: dated tasks by due date, then
   * the undated ones in their listed order.
   */
  function DueOrder(s: seq<Record>): (r: seq<Record>)
  {
    SortBy(Filter(s, Dated), DueKey) + Filter(s, Undated)
  }

  /** Dated tasks come before undated ones and ascend by due date. */
  ghost predicate DueSorted(o: seq<Record>)
  {
    forall i, j :: 0 <= i < j < |o| && Dated(o[j]) ==> Dated(o[i]) && DueKey(o[i]) <= DueKey(o[j])
  }

  /** In a due-sorted sequence, the elements before a dated one are dated and due no later. */
  lemma DueSortedPrefix(o: seq<Record>, n: nat, p: nat)
    requires DueSorted(o) && n <= p < |o| && Dated(o[p])
    ensures forall y :: y in o[..n] ==> Dated(y) && DueKey(y) <= DueKey(o[p])
  {
    forall y | y in o[..n]
      ensures Dated(y) && DueKey(y) <= DueKey(o[p])
    {
      var q :| 0 <= q < n && o[..n][q] == y;
      assert o[q] == y;
    }
  }

  /** A dated element cut off by the limit is due no earlier than every element kept. */
  lemma DueOrderTop(s: seq<Record>, limit: int, x: Record)
    requires x in s && Dated(x) && x !in Slice(DueOrder(s), Some(limit))
    ensures forall y :: y in Slice(DueOrder(s), Some(limit)) ==> Dated(y) && DueKey(y) <= DueKey(x)
  {
    var o := DueOrder(s);
    var r := Slice(o, Some(limit));
    DueOrderPermutes(s);
    DueOrderSorted(s);
    assert x in multiset(o);
    var p :| 0 <= p < |o| && o[p] == x;
    assert r == o[..|r|];
    DueSortedPrefix(o, |r|, p);
  }

  /** Sorting by due date loses and adds nothing. */
  lemma DueOrderPermutes(s: seq<Record>)
    ensures multiset(DueOrder(s)) == multiset(s)
  {
    FilterPartition(s, Dated, Undated);
  }

  /** The dated tasks come first, ascending by due date, and the undated ones follow. */
  lemma DueOrderSorted(s: seq<Record>)
    ensures DueSorted(DueOrder(s))
  {
    var a := SortBy(Filter(s, Dated), DueKey);
    var b := Filter(s, Undated);
    var o := a + b;
    SortBySorted(Filter(s, Dated), DueKey);
    FilterMembers(s, Dated);
    FilterMembers(s, Undated);
    forall k | 0 <= k < |a|
      ensures Dated(a[k])
    {
      assert a[k] in multiset(a);
    }
    forall k | 0 <= k < |b|
      ensures Undated(b[k])
    {
      assert b[k] in b;
    }
    DatedThenUndated(a, b);
  }

  /** Ascending dated tasks followed by undated ones are due-sorted. */
  lemma DatedThenUndated(a: seq<Record>, b: seq<Record>)
    requires SortedBy(a, DueKey)
    requires forall k :: 0 <= k < |a| ==> Dated(a[k])
    requires forall k :: 0 <= k < |b| ==> Undated(b[k])
    ensures DueSorted(a + b)
  {
    var o := a + b;
    forall i, j | 0 <= i < j < |o| && Dated(o[j])
      ensures Dated(o[i]) && DueKey(o[i]) <= DueKey(o[j])
    {
      if j < |a| {
        assert o[i] == a[i] && o[j] == a[j];
      }
    }
  }

  /** Events listUpcomingEvents keeps: those starting after now. */
  function StartsAfter(now: int): Record -> bool
  {
    (x: Record) => Get(x, "startTime").Time? && Get(x, "startTime").ms > now
  }

  function StartKey(x: Record): real
  {
    Instant(Get(x, "startTime")) as real
  }

  /** Sorting by this key puts the latest createdAt first. */
  function NewestFirst(x: Record): real
  {
    -(Instant(Get(x, "createdAt")) as real)
  }

  /** Invoices the dashboard revenue counts: paid, with a paidAt on or after `since`. */
  function PaidSince(since: int): Record -> bool
  {
    (x: Record) => Get(x, "status") == Str("paid") && Truthy(Get(x, "paidAt")) && Instant(Get(x, "paidAt")) >= since
  }

  function PaidAmount(x: Record): real
  {
    OrZero(Get(x, "paidAmount"))
  }

  /** A freshly created invoice is unpaid, so it never adds to the dashboard revenue. */
  lemma {:induction false} NewInvoiceNoRevenue(rows: seq<Record>, data: Record, id: int, now: int, since: int)
    ensures var row := Spread(data, Stamp(Invoices, id, now));
      SumOf(Filter(rows + [row], PaidSince(since)), PaidAmount) == SumOf(Filter(rows, PaidSince(since)), PaidAmount)
  {
    var row := Spread(data, Stamp(Invoices, id, now));
    assert Get(row, "paidAt") == Null;
    FilterAppend(rows, [row], PaidSince(since));
    assert Filter([row], PaidSince(since)) == [] by {
      assert !PaidSince(since)(row);
      assert [row][1..] == [];
    }
    assert Filter(rows, PaidSince(since)) + [] == Filter(rows, PaidSince(since));
  }

  /** The figures MemStorage.getDashboardStats returns. */
  datatype DashboardCounts = DashboardCounts(
    clientCount: nat, activeProjectCount: nat, pendingInvoiceCount: nat, revenue: real)

  class MemStorage {
    var tables: map<Table, Rows>
    var counters: map<Table, int>

    /** Every table and counter exists, and each table keeps its own invariant. */
    ghost predicate Valid()
      reads this
    {
      forall k: Table :: k in tables && k in counters && TableValid(tables[k], counters[k])
    }

    /** Counters start at 1 and the admin user is created with id 1. */
    constructor (now: int)
      ensures Valid()
      ensures forall k: Table :: counters[k] == if k == Users then 2 else 1
      ensures tables[Users] == map[1 := Spread(AdminUser(), Stamp(Users, 1, now))]
      ensures forall k: Table :: k != Users ==> tables[k] == map[]
    {
      tables := EmptyTables();
      counters := FirstIds();
      new;
      var admin := Create(Users, AdminUser(), now);
    }

    /** `Array.from(map.values())`: the table's rows by ascending id. */
    function Values(k: Table): seq<Record>
      reads this
      requires Valid()
    {
      ValuesBelow(tables[k], counters[k])
    }

    /** The listing holds every stored row and nothing else. */
    lemma ValuesMembers(k: Table, x: Record)
      requires Valid()
      ensures x in Values(k) <==> exists j :: j in tables[k] && tables[k][j] == x
    {
      ValuesBelowMembers(tables[k], counters[k], x);
    }

    /** The listing has one row per stored id. */
    lemma ValuesCount(k: Table)
      requires Valid()
      ensures |Values(k)| == |tables[k]|
    {
      var t := tables[k];
      ValuesBelowCount(t, counters[k]);
      assert (set j | j in t && 0 <= j < counters[k]) == t.Keys;
    }

    /** `getX(id)`. */
    function Lookup(k: Table, id: int): (r: Option<Record>)
      reads this
      requires Valid()
      ensures r.Some? <==> id in tables[k]
      ensures r.Some? ==> Get(r.value, "id") == IdValue(id)
    {
      if id in tables[k] then Some(tables[k][id]) else None
    }

    /**
     * create*: the row is the caller's data with the stamp on top, stored under
     * the counter's value, which then moves on by one. The new id is above every
     * id already in the table and the new row is listed last.
     */
    method Create(k: Table, data: Record, now: int) returns (row: Record)
      requires Valid()
      modifies this
      ensures Valid()
      ensures row == Spread(data, Stamp(k, old(counters[k]), now))
      ensures forall j :: j in old(tables[k]) ==> j < old(counters[k])
      ensures tables == old(tables)[k := old(tables[k])[old(counters[k]) := row]]
      ensures counters == old(counters)[k := old(counters[k]) + 1]
      ensures Values(k) == old(Values(k)) + [row]
    {
      var id := counters[k];
      row := Spread(data, Stamp(k, id, now));
      var t := tables[k][id := row];
      ValuesBelowSnoc(tables[k], id, row);
      assert TableValid(t, id + 1);
      tables := tables[k := t];
      counters := counters[k := id + 1];
    }

    /**
     * update*: an absent id gives undefined and changes nothing; otherwise the
     * patch's properties override the stored ones and the merged row is stored.
     * Activities have no update. A patch never carries an id: the routes pass a
     * partial insert schema, which has none.
     */
    method Update(k: Table, id: int, patch: Record) returns (r: Option<Record>)
      requires Valid()
      requires k != Activities
      requires "id" !in patch
      modifies this
      ensures Valid()
      ensures counters == old(counters)
      ensures id !in old(tables[k]) ==> r.None? && tables == old(tables)
      ensures id in old(tables[k]) ==>
        r == Some(Spread(old(tables[k][id]), patch)) && tables == old(tables)[k := old(tables[k])[id := r.value]]
    {
      if id !in tables[k] {
        return None;
      }
      var merged := Spread(tables[k][id], patch);
      tables := tables[k := tables[k][id := merged]];
      r := Some(merged);
    }

    /**
     * The plain delete* methods (clients, projects, tasks, time entries, invoice
     * items, contracts, events): true iff the id was stored; afterwards it is not.
     * Users and activities have no delete; invoices go through DeleteInvoice.
     */
    method Delete(k: Table, id: int) returns (b: bool)
      requires Valid()
      requires k != Users && k != Activities && k != Invoices
      modifies this
      ensures Valid()
      ensures b == (id in old(tables[k]))
      ensures tables == old(tables)[k := old(tables[k]) - {id}]
      ensures counters == old(counters)
    {
      b := id in tables[k];
      tables := tables[k := tables[k] - {id}];
    }

    /**
     * deleteInvoice: first every invoice item of the invoice, whether or not the
     * invoice exists, then the invoice itself. Other items are kept as they were.
     */
    method DeleteInvoice(id: int) returns (b: bool)
      requires Valid()
      modifies this
      ensures Valid()
      ensures b == (id in old(tables[Invoices]))
      ensures tables[Invoices] == old(tables[Invoices]) - {id}
      ensures forall j :: j in tables[InvoiceItems] <==>
        j in old(tables[InvoiceItems]) && !FieldIs("invoiceId", IdValue(id))(old(tables[InvoiceItems][j]))
      ensures forall j :: j in tables[InvoiceItems] ==> tables[InvoiceItems][j] == old(tables[InvoiceItems][j])
      ensures forall k: Table :: k != Invoices && k != InvoiceItems ==> tables[k] == old(tables[k])
      ensures counters == old(counters)
    {
      var p := FieldIs("invoiceId", IdValue(id));
      var items0 := tables[InvoiceItems];
      var doomed := IdsOf(Filter(Values(InvoiceItems), p));
      var items := DeleteEach(items0, doomed);
      CascadeKeeps(items0, counters[InvoiceItems], p, doomed, items);
      var invoices := tables[Invoices] - {id};
      assert TableValid(invoices, counters[Invoices]);
      b := id in tables[Invoices];
      tables := tables[InvoiceItems := items][Invoices := invoices];
    }

    /** getUserByUsername / getUserByEmail: the first user, by id, whose property equals v. */
    function FindUser(field: string, v: Value): (r: Option<Record>)
      reads this
      requires Valid()
      ensures r.Some? ==> r.value in Values(Users) && Get(r.value, field) == v
      ensures r.None? ==> forall j :: j in tables[Users] ==> Get(tables[Users][j], field) != v
      ensures r.Some? ==>
        exists id :: id in tables[Users] && tables[Users][id] == r.value &&
          forall j :: j in tables[Users] && j < id ==> Get(tables[Users][j], field) != v
    {
      var r := Find(Values(Users), FieldIs(field, v));
      assert r.Some? ==>
        exists id :: id in tables[Users] && tables[Users][id] == r.value &&
          forall j :: j in tables[Users] && j < id ==> Get(tables[Users][j], field) != v by {
        if r.Some? {
          var i :| 0 <= i < |Values(Users)| && Values(Users)[i] == r.value &&
            forall j :: 0 <= j < i ==> !FieldIs(field, v)(Values(Users)[j]);
          ValuesBelowFirst(tables[Users], counters[Users], FieldIs(field, v), i);
        }
      }
      assert r.None? ==> forall x :: x in Values(Users) ==> Get(x, field) != v;
      forall j | j in tables[Users] ensures tables[Users][j] in Values(Users) {
        ValuesMembers(Users, tables[Users][j]);
      }
      r
    }

    /** The list*By* queries: the rows whose property equals v, by ascending id. */
    function ListWhere(k: Table, field: string, v: Value): seq<Record>
      reads this
      requires Valid()
    {
      Filter(Values(k), FieldIs(field, v))
    }

    /** A listed row is a stored row with that property, and every such row is listed. */
    lemma ListWhereMembers(k: Table, field: string, v: Value, x: Record)
      requires Valid()
      ensures x in ListWhere(k, field, v) <==> (exists j :: j in tables[k] && tables[k][j] == x) && Get(x, field) == v
    {
      FilterMembers(Values(k), FieldIs(field, v));
      ValuesMembers(k, x);
    }

    /** The listing has one row per stored row with that property. */
    lemma CountWhere(k: Table, field: string, v: Value)
      requires Valid()
      ensures |ListWhere(k, field, v)| == |set j | j in tables[k] && Get(tables[k][j], field) == v|
    {
      var t := tables[k];
      ValuesBelowFilterCount(t, counters[k], FieldIs(field, v));
      assert (set j | j in t && 0 <= j < counters[k] && FieldIs(field, v)(t[j])) ==
        (set j | j in t && Get(t[j], field) == v);
    }

    function ListActiveProjects(): (r: seq<Record>)
      reads this
      requires Valid()
      ensures forall x :: x in r ==> x in Values(Projects) && Get(x, "status") == Str("in_progress")
    {
      FilterMembers(Values(Projects), FieldIs("status", Str("in_progress")));
      ListWhere(Projects, "status", Str("in_progress"))
    }

    /** Exactly the stored projects whose status is in_progress are active. */
    lemma ActiveProjectsExactly(x: Record)
      requires Valid()
      ensures x in ListActiveProjects() <==>
        (exists j :: j in tables[Projects] && tables[Projects][j] == x) && Get(x, "status") == Str("in_progress")
    {
      ListWhereMembers(Projects, "status", Str("in_progress"), x);
    }

    /** getInvoiceWithItems: the invoice and its items, or nothing for an absent invoice. */
    function InvoiceWithItems(id: int): (r: Option<(Record, seq<Record>)>)
      reads this
      requires Valid()
      ensures r.Some? <==> id in tables[Invoices]
      ensures r.Some? ==> r.value.0 == tables[Invoices][id]
      ensures r.Some? ==> forall x :: x in r.value.1 ==> Get(x, "invoiceId") == IdValue(id)
      ensures r.Some? ==> forall x :: x in r.value.1 <==>
        (exists j :: j in tables[InvoiceItems] && tables[InvoiceItems][j] == x) && Get(x, "invoiceId") == IdValue(id)
      ensures r.Some? ==> |r.value.1| == |set j | j in tables[InvoiceItems] && Get(tables[InvoiceItems][j], "invoiceId") == IdValue(id)|
    {
      if id !in tables[Invoices] then None
      else
        FilterMembers(Values(InvoiceItems), FieldIs("invoiceId", IdValue(id)));
        forall x ensures x in ListWhere(InvoiceItems, "invoiceId", IdValue(id)) <==>
            (exists j :: j in tables[InvoiceItems] && tables[InvoiceItems][j] == x) && Get(x, "invoiceId") == IdValue(id) {
          ListWhereMembers(InvoiceItems, "invoiceId", IdValue(id), x);
        }
        CountWhere(InvoiceItems, "invoiceId", IdValue(id));
        Some((tables[Invoices][id], ListWhere(InvoiceItems, "invoiceId", IdValue(id))))
    }

    /** listUpcomingTasks(userId, limit = 5). */
    function ListUpcomingTasks(userId: int, limit: int): seq<Record>
      reads this
      requires Valid()
    {
      Slice(DueOrder(Filter(Values(Tasks), OpenFor(userId))), Some(limit))
    }

    /** listUpcomingEvents(limit = 3), with the clock reading as a parameter. */
    function ListUpcomingEvents(now: int, limit: int): seq<Record>
      reads this
      requires Valid()
    {
      Slice(SortBy(Filter(Values(Events), StartsAfter(now)), StartKey), Some(limit))
    }

    /** listActivities(limit = 10): newest first. */
    function ListActivities(limit: int): seq<Record>
      reads this
      requires Valid()
    {
      Slice(SortBy(Values(Activities), NewestFirst), Some(limit))
    }

    /** listActivitiesByUser(userId, limit = 10). */
    function ListActivitiesByUser(userId: int, limit: int): seq<Record>
      reads this
      requires Valid()
    {
      Slice(SortBy(ListWhere(Activities, "userId", IdValue(userId)), NewestFirst), Some(limit))
    }

    /**
     * At most `limit` tasks, each stored, assigned to the user and not
     * completed; dated tasks come first, ascending by due date.
     */
    lemma UpcomingTasksShape(userId: int, limit: int)
      requires Valid()
      ensures var open := Filter(Values(Tasks), OpenFor(userId));
        var r := ListUpcomingTasks(userId, limit);
        (limit >= 0 ==> |r| == if limit < |open| then limit else |open|) &&
        (forall x :: x in r ==> x in Values(Tasks) && OpenFor(userId)(x)) &&
        DueSorted(r)
    {
      var open := Filter(Values(Tasks), OpenFor(userId));
      var o := DueOrder(open);
      var r := ListUpcomingTasks(userId, limit);
      DueOrderPermutes(open);
      DueOrderSorted(open);
      FilterMembers(Values(Tasks), OpenFor(userId));
      forall x | x in r
        ensures x in Values(Tasks) && OpenFor(userId)(x)
      {
        assert x in o && x in multiset(o);
      }
      assert r == o[..|r|];
    }

    /** A dated open task left out is due no earlier than every listed task, all of which are dated. */
    lemma UpcomingTasksEarliest(userId: int, limit: int, x: Record)
      requires Valid()
      requires x in Filter(Values(Tasks), OpenFor(userId)) && Dated(x)
      requires x !in ListUpcomingTasks(userId, limit)
      ensures forall y :: y in ListUpcomingTasks(userId, limit) ==> Dated(y) && DueKey(y) <= DueKey(x)
    {
      DueOrderTop(Filter(Values(Tasks), OpenFor(userId)), limit, x);
    }

    /** At most `limit` events, each stored and starting after now, ascending by start. */
    lemma UpcomingEventsShape(now: int, limit: int)
      requires Valid()
      ensures var later := Filter(Values(Events), StartsAfter(now));
        var r := ListUpcomingEvents(now, limit);
        (limit >= 0 ==> |r| == if limit < |later| then limit else |later|) &&
        (forall x :: x in r ==> x in Values(Events) && StartsAfter(now)(x)) &&
        (forall i, j :: 0 <= i < j < |r| ==> StartKey(r[i]) <= StartKey(r[j]))
    {
      var later := Filter(Values(Events), StartsAfter(now));
      var o := SortBy(later, StartKey);
      var r := ListUpcomingEvents(now, limit);
      SortBySorted(later, StartKey);
      FilterMembers(Values(Events), StartsAfter(now));
      forall x | x in r
        ensures x in Values(Events) && StartsAfter(now)(x)
      {
        assert x in o && x in multiset(o);
      }
      forall i, j | 0 <= i < j < |r|
        ensures StartKey(r[i]) <= StartKey(r[j])
      {
        assert r[i] == o[i] && r[j] == o[j];
      }
    }

    /** An upcoming event left out starts no earlier than every listed one. */
    lemma UpcomingEventsEarliest(now: int, limit: int, x: Record)
      requires Valid()
      requires x in Filter(Values(Events), StartsAfter(now)) && x !in ListUpcomingEvents(now, limit)
      ensures forall y :: y in ListUpcomingEvents(now, limit) ==> StartKey(y) <= StartKey(x)
    {
      SliceSortedTop(Filter(Values(Events), StartsAfter(now)), StartKey, limit, x);
    }

    /** At most `limit` activities, newest first. */
    lemma ActivitiesNewestFirst(limit: int)
      requires Valid()
      ensures var r := ListActivities(limit);
        (limit >= 0 ==> |r| == if limit < |Values(Activities)| then limit else |Values(Activities)|) &&
        (forall x :: x in r ==> x in Values(Activities)) &&
        (forall i, j :: 0 <= i < j < |r| ==> Instant(Get(r[i], "createdAt")) >= Instant(Get(r[j], "createdAt")))
    {
      var o := SortBy(Values(Activities), NewestFirst);
      var r := ListActivities(limit);
      SortBySorted(Values(Activities), NewestFirst);
      forall x | x in r
        ensures x in Values(Activities)
      {
        assert x in o && x in multiset(o);
      }
      forall i, j | 0 <= i < j < |r|
        ensures Instant(Get(r[i], "createdAt")) >= Instant(Get(r[j], "createdAt"))
      {
        assert r[i] == o[i] && r[j] == o[j];
      }
    }

    /** An activity left out is no newer than every listed one. */
    lemma ActivitiesLatest(limit: int, x: Record)
      requires Valid()
      requires x in Values(Activities) && x !in ListActivities(limit)
      ensures forall y :: y in ListActivities(limit) ==> Instant(Get(y, "createdAt")) >= Instant(Get(x, "createdAt"))
    {
      SliceSortedTop(Values(Activities), NewestFirst, limit, x);
    }

    /** At most `limit` of a user's activities, each theirs, newest first. */
    lemma ActivitiesByUserShape(userId: int, limit: int)
      requires Valid()
      ensures var mine := ListWhere(Activities, "userId", IdValue(userId));
        var r := ListActivitiesByUser(userId, limit);
        (limit >= 0 ==> |r| == if limit < |mine| then limit else |mine|) &&
        (forall x :: x in r ==> x in Values(Activities) && Get(x, "userId") == IdValue(userId)) &&
        (forall i, j :: 0 <= i < j < |r| ==> Instant(Get(r[i], "createdAt")) >= Instant(Get(r[j], "createdAt")))
    {
      var mine := ListWhere(Activities, "userId", IdValue(userId));
      var o := SortBy(mine, NewestFirst);
      var r := ListActivitiesByUser(userId, limit);
      SortBySorted(mine, NewestFirst);
      FilterMembers(Values(Activities), FieldIs("userId", IdValue(userId)));
      forall x | x in r
        ensures x in Values(Activities) && Get(x, "userId") == IdValue(userId)
      {
        assert x in o && x in multiset(o);
      }
      forall i, j | 0 <= i < j < |r|
        ensures Instant(Get(r[i], "createdAt")) >= Instant(Get(r[j], "createdAt"))
      {
        assert r[i] == o[i] && r[j] == o[j];
      }
    }

    /** An activity of the user left out is no newer than every listed one. */
    lemma ActivitiesByUserLatest(userId: int, limit: int, x: Record)
      requires Valid()
      requires x in Values(Activities) && Get(x, "userId") == IdValue(userId)
      requires x !in ListActivitiesByUser(userId, limit)
      ensures forall y :: y in ListActivitiesByUser(userId, limit) ==> Instant(Get(y, "createdAt")) >= Instant(Get(x, "createdAt"))
    {
      var mine := ListWhere(Activities, "userId", IdValue(userId));
      FilterMembers(Values(Activities), FieldIs("userId", IdValue(userId)));
      assert x in mine;
      SliceSortedTop(mine, NewestFirst, limit, x);
    }

    /**
     * getDashboardStats, with the clock reading as a parameter: the number of
     * clients, of projects in progress and of sent invoices, and the amount
     * paid on paid invoices since the start of the current month.
     */
    function GetDashboardStats(now: int): (d: DashboardCounts)
      reads this
      requires Valid()
      ensures d.clientCount == |tables[Clients]|
      ensures d.activeProjectCount == |set j | j in tables[Projects] && Get(tables[Projects][j], "status") == Str("in_progress")|
      ensures d.pendingInvoiceCount == |set j | j in tables[Invoices] && Get(tables[Invoices][j], "status") == Str("sent")|
    {
      ValuesCount(Clients);
      CountWhere(Projects, "status", Str("in_progress"));
      CountWhere(Invoices, "status", Str("sent"));
      DashboardCounts(
        |Values(Clients)|,
        |ListActiveProjects()|,
        |ListWhere(Invoices, "status", Str("sent"))|,
        SumOf(Filter(Values(Invoices), PaidSince(StartOfMonth(now))), PaidAmount))
    }

    /**
     * The dashboard revenue adds the paid amount (missing counts 0) of every
     * stored invoice paid since the start of now's month, and nothing else.
     */
    lemma RevenuePaidThisMonth(now: int)
      requires Valid()
      ensures GetDashboardStats(now).revenue ==
        SumOf(Values(Invoices), (x: Record) => if PaidSince(StartOfMonth(now))(x) then PaidAmount(x) else 0.0)
    {
      var p := PaidSince(StartOfMonth(now));
      var g := (x: Record) => if p(x) then PaidAmount(x) else 0.0;
      SumOfFilter(Values(Invoices), p, g);
      FilterMembers(Values(Invoices), p);
      SumOfCongruent(Filter(Values(Invoices), p), PaidAmount, g);
    }
  }
}
