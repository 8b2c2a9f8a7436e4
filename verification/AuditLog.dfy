/** The audit log: a page of the merged history of six tables, built from only the newest rows of each. */
module AuditLogs {
  import opened Tables

  /** A row of a history table; only transfers have a completion date. */
  datatype Row = Row(id: string, date: int, completed: Option<int>)

  datatype Event = Event(id: string, date: int)

  function EventsOf(row: Row): seq<Event> {
    [Event(row.id, row.date)] + match row.completed { case None => [] case Some(date) =>
                                                     [Event("comp_" + row.id, date)] }
  }

  function TableEvents(table: seq<Row>): seq<Event> {
    if table == [] then [] else TableEvents(table[..|table| - 1]) + EventsOf(table[|table| - 1])
  }

  /** The events of all tables, table by table. */
  function Gather(tables: seq<seq<Row>>): seq<Event> {
    if tables == [] then [] else Gather(tables[..|tables| - 1]) + TableEvents(tables[|tables| - 1])
  }

  /** `findMany({ take, orderBy: { date: 'desc' } })` on a table kept newest first. */
  function Newest(table: seq<Row>, take: nat): seq<Row> {
    if |table| <= take then table else table[..take]
  }

  function Fetched(tables: seq<seq<Row>>, take: nat): seq<seq<Row>> {
    seq(|tables|, i requires 0 <= i < |tables| => Newest(tables[i], take))
  }

  predicate NewestFirst(table: seq<Row>) {
    forall i, j :: 0 <= i < j < |table| ==> table[i].date >= table[j].date
  }

  function Place(e: Event, sorted: seq<Event>): seq<Event> {
    if sorted == [] || sorted[0].date < e.date then [e] + sorted else [sorted[0]] + Place(e, sorted[1..])
  }

  /** The stable sort by falling date. */
  function SortByDate(events: seq<Event>): seq<Event> {
    if events == [] then [] else Place(events[|events| - 1], SortByDate(events[..|events| - 1]))
  }

  /** `slice` with bounds past the end. */
  function Slice(events: seq<Event>, start: nat, end: nat): seq<Event> {
    if start >= |events| || start >= end then [] else events[start..if end <= |events| then end else |events|]
  }

  function PageOf(events: seq<Event>, limit: nat, page: nat): seq<Event>
    requires page > 0
  {
    Slice(SortByDate(events), (page - 1) * limit, (page - 1) * limit + limit)
  }

  method GetGlobalAuditLogs(tables: seq<seq<Row>>, limit: nat, page: nat) returns (total: nat, data: seq<Event>)
    requires page > 0
    ensures data == Shown(tables, limit, page)
    ensures total == |Gather(Fetched(tables, limit * page))|
  {
    hide SortByDate, EventsOf, Gather, TableEvents, Fetched;
    var maxTake := limit * page;
    var rows := Fetched(tables, maxTake);
    var events := [];
    GatherNothing();
    for t := 0 to |rows|
      invariant events == Gather(rows[..t])
    {
      events := PushTable(events, rows[t]);
      GatherOneMore(rows, t);
    }
    assert rows[..|rows|] == rows;
    events := SortEvents(events);
    SortLength(Gather(rows));
    total := |events|;
    var startIndex := (page - 1) * limit;
    data := Slice(events, startIndex, startIndex + limit);
  }

  method PushTable(before: seq<Event>, table: seq<Row>) returns (events: seq<Event>)
    ensures events == before + TableEvents(table)
  {
    events := before;
    for k := 0 to |table|
      invariant events == before + TableEvents(table[..k])
    {
      var row := table[k];
      events := events + [Event(row.id, row.date)];
      if row.completed.Some? {
        events := events + [Event("comp_" + row.id, row.completed.value)];
      }
      assert table[..k + 1][..k] == table[..k];
      assert events == before + TableEvents(table[..k]) + EventsOf(row);
    }
    assert table[..|table|] == table;
  }

  lemma GatherNothing()
    ensures Gather([]) == []
  {
  }

  lemma GatherOneMore(tables: seq<seq<Row>>, t: nat)
    requires t < |tables|
    ensures Gather(tables[..t + 1]) == Gather(tables[..t]) + TableEvents(tables[t])
  {
    assert tables[..t + 1][..t] == tables[..t];
  }

  method SortEvents(events: seq<Event>) returns (sorted: seq<Event>)
    ensures sorted == SortByDate(events)
  {
    sorted := [];
    for i := 0 to |events|
      invariant sorted == SortByDate(events[..i])
    {
      sorted := Place(events[i], sorted);
      assert events[..i + 1][..i] == events[..i];
    }
    assert events[..|events|] == events;
  }

  lemma {:induction false} PlaceLength(e: Event, sorted: seq<Event>)
    ensures |Place(e, sorted)| == |sorted| + 1
  {
    if sorted != [] && sorted[0].date >= e.date { PlaceLength(e, sorted[1..]); }
  }

  lemma {:induction false} SortLength(events: seq<Event>)
    ensures |SortByDate(events)| == |events|
  {
    if events != [] {
      SortLength(events[..|events| - 1]);
      PlaceLength(events[|events| - 1], SortByDate(events[..|events| - 1]));
    }
  }

  lemma {:induction false} PlacePermutes(e: Event, sorted: seq<Event>)
    ensures multiset(Place(e, sorted)) == multiset(sorted) + multiset{e}
  {
    if sorted != [] && sorted[0].date >= e.date {
      PlacePermutes(e, sorted[1..]);
      assert sorted == [sorted[0]] + sorted[1..];
    }
  }

  /** The sort loses and invents no event. */
  lemma {:induction false} SortPermutes(events: seq<Event>)
    ensures multiset(SortByDate(events)) == multiset(events)
  {
    if events != [] {
      var p, last := events[..|events| - 1], events[|events| - 1];
      SortPermutes(p);
      PlacePermutes(last, SortByDate(p));
      assert events == p + [last];
    }
  }

  /** Every row is an event, and a completed transfer is another one. */
  predicate EventOf(e: Event, row: Row) {
    e == Event(row.id, row.date) || (row.completed.Some? && e == Event("comp_" + row.id, row.completed.value))
  }

  predicate InTable(e: Event, table: seq<Row>) {
    exists i :: 0 <= i < |table| && EventOf(e, table[i])
  }

  lemma {:induction false} TableEventsExactly(table: seq<Row>, e: Event)
    ensures e in TableEvents(table) <==> InTable(e, table)
  {
    if table != [] {
      var p, last := table[..|table| - 1], table[|table| - 1];
      TableEventsExactly(p, e);
      assert InTable(e, p) ==> InTable(e, table) by {
        if i :| 0 <= i < |p| && EventOf(e, p[i]) { assert table[i] == p[i]; }
      }
      if i :| 0 <= i < |table| && EventOf(e, table[i]) { assert i < |p| ==> p[i] == table[i]; }
      assert EventOf(e, table[|table| - 1]) <==> e in EventsOf(last);
    }
  }

  /** The history has the events of its rows and no other. */
  lemma {:induction false} HistoryExactly(tables: seq<seq<Row>>, e: Event)
    ensures e in Gather(tables) <==> exists t :: 0 <= t < |tables| && InTable(e, tables[t])
  {
    if tables != [] {
      hide InTable, TableEvents;
      var p, last := tables[..|tables| - 1], tables[|tables| - 1];
      HistoryExactly(p, e);
      TableEventsExactly(last, e);
      if t :| 0 <= t < |p| && InTable(e, p[t]) { assert InTable(e, tables[t]); }
      if t :| 0 <= t < |tables| && InTable(e, tables[t]) { assert t < |p| ==> InTable(e, p[t]); }
    }
  }

  // ── Counting ──

  /** How many events are not older than `v`. */
  function CountFrom(events: seq<Event>, v: int): nat {
    if events == [] then 0 else CountFrom(events[..|events| - 1], v) + if events[|events| - 1].date >= v then 1 else 0
  }

  lemma {:induction false} CountConcat(a: seq<Event>, b: seq<Event>, v: int)
    ensures CountFrom(a + b, v) == CountFrom(a, v) + CountFrom(b, v)
  {
    if b == [] {
      assert a + b == a;
    } else {
      CountConcat(a, b[..|b| - 1], v);
      assert (a + b)[..|a + b| - 1] == a + b[..|b| - 1];
    }
  }

  lemma {:induction false} PlaceCount(e: Event, sorted: seq<Event>, v: int)
    ensures CountFrom(Place(e, sorted), v) == CountFrom(sorted, v) + if e.date >= v then 1 else 0
  {
    if sorted == [] || sorted[0].date < e.date {
      CountConcat([e], sorted, v);
      assert CountFrom([e], v) == if e.date >= v then 1 else 0;
    } else {
      PlaceCount(e, sorted[1..], v);
      CountConcat([sorted[0]], Place(e, sorted[1..]), v);
      CountConcat([sorted[0]], sorted[1..], v);
      assert sorted == [sorted[0]] + sorted[1..];
    }
  }

  lemma {:induction false} SortCount(events: seq<Event>, v: int)
    ensures CountFrom(SortByDate(events), v) == CountFrom(events, v)
  {
    if events != [] {
      SortCount(events[..|events| - 1], v);
      PlaceCount(events[|events| - 1], SortByDate(events[..|events| - 1]), v);
    }
  }

  predicate Falling(events: seq<Event>) {
    forall i, j :: 0 <= i < j < |events| ==> events[i].date >= events[j].date
  }

  lemma {:induction false} PlaceMembers(e: Event, sorted: seq<Event>)
    ensures forall x :: x in Place(e, sorted) <==> x == e || x in sorted
  {
    if sorted != [] && sorted[0].date >= e.date {
      PlaceMembers(e, sorted[1..]);
      assert sorted == [sorted[0]] + sorted[1..];
    }
  }

  lemma {:induction false} PlaceFalls(e: Event, sorted: seq<Event>)
    requires Falling(sorted)
    ensures Falling(Place(e, sorted))
  {
    if sorted != [] && sorted[0].date >= e.date {
      var rest := Place(e, sorted[1..]);
      PlaceFalls(e, sorted[1..]);
      PlaceMembers(e, sorted[1..]);
      forall j | 0 <= j < |rest| ensures sorted[0].date >= rest[j].date {
        assert rest[j] in rest;
      }
    }
  }

  lemma {:induction false} SortFalls(events: seq<Event>)
    ensures Falling(SortByDate(events)) && forall x :: x in SortByDate(events) <==> x in events
  {
    if events != [] {
      var p := events[..|events| - 1];
      SortFalls(p);
      PlaceFalls(events[|events| - 1], SortByDate(p));
      PlaceMembers(events[|events| - 1], SortByDate(p));
    }
  }

  /** In a falling sequence the place of a date is a count. */
  lemma {:induction false} PlaceIsCount(events: seq<Event>, i: nat, v: int)
    requires Falling(events) && i < |events|
    ensures events[i].date >= v <==> CountFrom(events, v) > i
  {
    var p, last := events[..|events| - 1], events[|events| - 1];
    CountBound(p, v);
    if i < |p| {
      PlaceIsCount(p, i, v);
      if last.date >= v { assert events[i].date >= last.date; }
    } else if last.date >= v {
      AllCount(p, v);
    }
  }

  lemma {:induction false} CountBound(events: seq<Event>, v: int)
    ensures CountFrom(events, v) <= |events|
  {
    if events != [] { CountBound(events[..|events| - 1], v); }
  }

  lemma {:induction false} AllCount(events: seq<Event>, v: int)
    requires forall i :: 0 <= i < |events| ==> events[i].date >= v
    ensures CountFrom(events, v) == |events|
  {
    if events != [] { AllCount(events[..|events| - 1], v); }
  }

  // ── What is left out ──

  predicate Agrees(full: nat, part: nat, n: nat) {
    part == full || (part < full && part >= n)
  }

  /** A completed transfer that is not fetched, and that was completed at `v` or later. */
  predicate LateIn(table: seq<Row>, take: nat, v: int) {
    exists i :: take <= i < |table| && table[i].completed.Some? && table[i].completed.value >= v
  }

  /** `part` of `full` events are fetched: fewer than all only if there are `n` of them or some are `late`, and fewer
      than all whenever some are. */
  predicate Short(full: nat, part: nat, n: nat, late: bool) {
    part <= full && (part < full ==> part >= n || late) && (late ==> part < full)
  }

  /** A row beyond the first `take` that is not older than `v` has `take` events before it that are not either; its
      completion need not. */
  lemma {:induction false} NewestCount(table: seq<Row>, take: nat, v: int)
    requires NewestFirst(table)
    ensures Short(CountFrom(TableEvents(table), v), CountFrom(TableEvents(Newest(table, take)), v), take,
                  LateIn(table, take, v))
  {
    if |table| > take {
      hide CountFrom, TableEvents, EventsOf;
      var p, last := table[..|table| - 1], table[|table| - 1];
      NewestCount(p, take, v);
      assert Newest(p, take) == Newest(table, take);
      LastEvents(table, v);
      LateGrows(table, take, v);
      if last.date >= v {
        assert forall i :: 0 <= i < take ==> table[..take][i].date >= last.date;
        ManyEvents(table[..take], v);
      }
    }
  }

  /** What the last row adds to the count. */
  lemma LastEvents(table: seq<Row>, v: int)
    requires table != []
    ensures var last := table[|table| - 1];
            CountFrom(TableEvents(table), v) == CountFrom(TableEvents(table[..|table| - 1]), v)
              + (if last.date >= v then 1 else 0)
              + (if last.completed.Some? && last.completed.value >= v then 1 else 0)
  {
    var p, last := table[..|table| - 1], table[|table| - 1];
    CountConcat(TableEvents(p), EventsOf(last), v);
    CountConcat([Event(last.id, last.date)], EventsOf(last)[1..], v);
    assert EventsOf(last) == [Event(last.id, last.date)] + EventsOf(last)[1..];
    assert CountFrom([Event(last.id, last.date)], v) == if last.date >= v then 1 else 0;
    if last.completed.Some? {
      var done := Event("comp_" + last.id, last.completed.value);
      assert EventsOf(last)[1..] == [done];
      assert CountFrom([done], v) == if done.date >= v then 1 else 0;
    }
  }

  lemma LateGrows(table: seq<Row>, take: nat, v: int)
    requires |table| > take
    ensures var last := table[|table| - 1];
            LateIn(table, take, v) <==>
              LateIn(table[..|table| - 1], take, v) || (last.completed.Some? && last.completed.value >= v)
  {
    var p := table[..|table| - 1];
    if i :| take <= i < |p| && p[i].completed.Some? && p[i].completed.value >= v {
      assert table[i] == p[i];
    }
  }

  lemma {:induction false} ManyEvents(table: seq<Row>, v: int)
    requires forall i :: 0 <= i < |table| ==> table[i].date >= v
    ensures CountFrom(TableEvents(table), v) >= |table|
  {
    if table != [] {
      ManyEvents(table[..|table| - 1], v);
      LastEvents(table, v);
    }
  }

  predicate AllNewestFirst(tables: seq<seq<Row>>) {
    forall t :: 0 <= t < |tables| ==> NewestFirst(tables[t])
  }

  /** Some transfer that is not fetched was completed at `c`. */
  predicate Missing(tables: seq<seq<Row>>, take: nat, c: int) {
    exists t, i :: 0 <= t < |tables| && take <= i < |tables[t]| && tables[t][i].completed == Some(c)
  }

  predicate Late(tables: seq<seq<Row>>, take: nat, v: int) {
    exists t :: 0 <= t < |tables| && LateIn(tables[t], take, v)
  }

  /** Every completion that is not fetched has `take` fetched events that are not older. */
  ghost predicate Covered(tables: seq<seq<Row>>, take: nat) {
    forall c :: Missing(tables, take, c) ==> CountFrom(Gather(Fetched(tables, take)), c) >= take
  }

  lemma ShortSum(a: nat, b: nat, c: nat, d: nat, n: nat, l: bool, m: bool)
    requires Short(a, b, n, l) && Short(c, d, n, m)
    ensures Short(a + c, b + d, n, l || m)
  {
  }

  lemma LateLast(tables: seq<seq<Row>>, take: nat, v: int)
    requires tables != []
    ensures Late(tables, take, v) <==>
              Late(tables[..|tables| - 1], take, v) || LateIn(tables[|tables| - 1], take, v)
  {
    hide LateIn;
    var p := tables[..|tables| - 1];
    if t :| 0 <= t < |p| && LateIn(p[t], take, v) {
      assert LateIn(tables[t], take, v);
    }
    if t :| 0 <= t < |tables| && LateIn(tables[t], take, v) {
      assert t < |p| ==> LateIn(p[t], take, v);
    }
  }

  lemma {:induction false} GatherCount(tables: seq<seq<Row>>, take: nat, v: int)
    requires AllNewestFirst(tables)
    ensures Short(CountFrom(Gather(tables), v), CountFrom(Gather(Fetched(tables, take)), v), take,
                  Late(tables, take, v))
  {
    if tables != [] {
      hide Short, CountFrom, NewestFirst, Late, LateIn;
      var p, last := tables[..|tables| - 1], tables[|tables| - 1];
      GatherLast(tables, take);
      GatherCount(p, take, v);
      NewestCount(last, take, v);
      LateLast(tables, take, v);
      CountConcat(Gather(p), TableEvents(last), v);
      CountConcat(Gather(Fetched(p, take)), TableEvents(Newest(last, take)), v);
      ShortSum(CountFrom(Gather(p), v), CountFrom(Gather(Fetched(p, take)), v),
               CountFrom(TableEvents(last), v), CountFrom(TableEvents(Newest(last, take)), v),
               take, Late(p, take, v), LateIn(last, take, v));
    } else {
      assert Fetched(tables, take) == [];
    }
  }

  lemma {:induction false} CountFalls(events: seq<Event>, v: int, w: int)
    requires v <= w
    ensures CountFrom(events, v) >= CountFrom(events, w)
  {
    if events != [] { CountFalls(events[..|events| - 1], v, w); }
  }

  lemma LateIsMissing(tables: seq<seq<Row>>, take: nat, v: int)
    ensures Late(tables, take, v) <==> exists c :: c >= v && Missing(tables, take, c)
  {
    if Late(tables, take, v) {
      var t :| 0 <= t < |tables| && LateIn(tables[t], take, v);
      var i :| take <= i < |tables[t]| && tables[t][i].completed.Some? && tables[t][i].completed.value >= v;
      assert Missing(tables, take, tables[t][i].completed.value);
    }
    if c :| c >= v && Missing(tables, take, c) {
      var t, i :| 0 <= t < |tables| && take <= i < |tables[t]| && tables[t][i].completed == Some(c);
      assert LateIn(tables[t], take, v);
    }
  }

  /** Where the missing completions are covered the counts agree as far as they matter. */
  lemma CoveredAgrees(tables: seq<seq<Row>>, take: nat, v: int)
    requires AllNewestFirst(tables) && Covered(tables, take)
    ensures Agrees(CountFrom(Gather(tables), v), CountFrom(Gather(Fetched(tables, take)), v), take)
  {
    hide Gather, Fetched, CountFrom, Late, Missing, AllNewestFirst;
    GatherCount(tables, take, v);
    LateIsMissing(tables, take, v);
    if c :| c >= v && Missing(tables, take, c) {
      CountFalls(Gather(Fetched(tables, take)), v, c);
    }
  }

  // ── The page ──

  function Dates(events: seq<Event>): seq<int> {
    seq(|events|, i requires 0 <= i < |events| => events[i].date)
  }

  lemma {:induction false} Oldest(events: seq<Event>) returns (v: int)
    ensures forall i :: 0 <= i < |events| ==> events[i].date >= v
  {
    if events == [] {
      v := 0;
    } else {
      v := Oldest(events[..|events| - 1]);
      if events[|events| - 1].date < v { v := events[|events| - 1].date; }
    }
  }

  /** Two falling sequences whose counts agree up to `n` agree on their first `n` dates. */
  lemma SameTop(a: seq<Event>, f: seq<Event>, n: nat)
    requires Falling(a) && Falling(f) && forall v :: Agrees(CountFrom(a, v), CountFrom(f, v), n)
    ensures |a| >= n <==> |f| >= n
    ensures |a| < n ==> |f| == |a|
    ensures forall i :: 0 <= i < n && i < |a| && i < |f| ==> a[i].date == f[i].date
  {
    var v := Oldest(a + f);
    assert forall i :: 0 <= i < |a| ==> (a + f)[i] == a[i];
    assert forall i :: 0 <= i < |f| ==> (a + f)[|a| + i] == f[i];
    AllCount(a, v);
    AllCount(f, v);
    assert Agrees(CountFrom(a, v), CountFrom(f, v), n);
    forall i | 0 <= i < n && i < |a| && i < |f| ensures a[i].date == f[i].date {
      PlaceIsCount(a, i, a[i].date);
      PlaceIsCount(f, i, a[i].date);
      PlaceIsCount(a, i, f[i].date);
      PlaceIsCount(f, i, f[i].date);
      assert Agrees(CountFrom(a, a[i].date), CountFrom(f, a[i].date), n);
      assert Agrees(CountFrom(a, f[i].date), CountFrom(f, f[i].date), n);
    }
  }

  lemma TopOfHistory(tables: seq<seq<Row>>, n: nat)
    requires AllNewestFirst(tables) && Covered(tables, n)
    ensures var a, f := SortByDate(Gather(tables)), SortByDate(Gather(Fetched(tables, n)));
            && (|a| >= n <==> |f| >= n) && (|a| < n ==> |f| == |a|)
            && forall i :: 0 <= i < n && i < |a| && i < |f| ==> a[i].date == f[i].date
  {
    var a, f := SortByDate(Gather(tables)), SortByDate(Gather(Fetched(tables, n)));
    SortFalls(Gather(tables));
    SortFalls(Gather(Fetched(tables, n)));
    forall v ensures Agrees(CountFrom(a, v), CountFrom(f, v), n) {
      SortCount(Gather(tables), v);
      SortCount(Gather(Fetched(tables, n)), v);
      CoveredAgrees(tables, n, v);
    }
    SameTop(a, f, n);
  }

  /** The page that is shown, and the page of the whole history. */
  function Shown(tables: seq<seq<Row>>, limit: nat, page: nat): seq<Event>
    requires page > 0
  {
    PageOf(Gather(Fetched(tables, limit * page)), limit, page)
  }

  function Wanted(tables: seq<seq<Row>>, limit: nat, page: nat): seq<Event>
    requires page > 0
  {
    PageOf(Gather(tables), limit, page)
  }

  /** Top-k merge: the page built from the newest `limit * page` rows of each table has the dates, in order, of that
      page of the whole merged history, if the completions that are not fetched are covered. */
  lemma PageOfWholeHistory(tables: seq<seq<Row>>, limit: nat, page: nat)
    requires page > 0 && AllNewestFirst(tables) && Covered(tables, limit * page)
    ensures Dates(Shown(tables, limit, page)) == Dates(Wanted(tables, limit, page))
  {
    hide SortByDate, Gather, Fetched, Covered, AllNewestFirst, Slice, Dates;
    PageEnd(limit, page);
    TopOfHistory(tables, limit * page);
    SameSlice(SortByDate(Gather(tables)), SortByDate(Gather(Fetched(tables, limit * page))), (page - 1) * limit,
              limit * page);
  }

  // ── When the page is wrong ──

  /** A missing completion comes from a table that was cut, so there are enough fetched events for the page. */
  lemma {:induction false} EnoughFetched(tables: seq<seq<Row>>, take: nat, c: int)
    requires Missing(tables, take, c)
    ensures |Gather(Fetched(tables, take))| >= take
  {
    hide TableEvents;
    var t, i :| 0 <= t < |tables| && take <= i < |tables[t]| && tables[t][i].completed == Some(c);
    var p, last := tables[..|tables| - 1], tables[|tables| - 1];
    GatherLast(tables, take);
    if t < |p| {
      assert p[t] == tables[t];
      EnoughFetched(p, take, c);
    } else {
      RowsHaveEvents(Newest(last, take));
    }
  }

  lemma {:induction false} RowsHaveEvents(table: seq<Row>)
    ensures |TableEvents(table)| >= |table|
  {
    if table != [] { RowsHaveEvents(table[..|table| - 1]); }
  }

  /** From the place of a missing completion on, fetched dates are older than it, and the history has one event more. */
  lemma MissingShifts(tables: seq<seq<Row>>, n: nat, c: int, i: nat)
    requires AllNewestFirst(tables) && Missing(tables, n, c)
    requires CountFrom(Gather(Fetched(tables, n)), c) <= i < n
    ensures var a, f := SortByDate(Gather(tables)), SortByDate(Gather(Fetched(tables, n)));
            && Falling(a) && Falling(f) && i < |f| && f[i].date < c
            && CountFrom(a, f[i].date) > CountFrom(f, f[i].date) > i
            && |a| > CountFrom(f, f[i].date)
            && (i == CountFrom(f, c) ==> i < |a| && a[i].date >= c)
  {
    hide Gather, Fetched, SortByDate, CountFrom, Missing, AllNewestFirst, Late;
    var all, fetched := Gather(tables), Gather(Fetched(tables, n));
    var a, f := SortByDate(all), SortByDate(fetched);
    SortFalls(all);
    SortFalls(fetched);
    SortLength(fetched);
    EnoughFetched(tables, n, c);
    SortCount(fetched, c);
    SortCount(all, c);
    PlaceIsCount(f, i, c);
    var d := f[i].date;
    PlaceIsCount(f, i, d);
    SortCount(fetched, d);
    SortCount(all, d);
    LateIsMissing(tables, n, c);
    LateIsMissing(tables, n, d);
    GatherCount(tables, n, c);
    GatherCount(tables, n, d);
    CountBound(a, d);
    CountBound(a, c);
    if i == CountFrom(f, c) { PlaceIsCount(a, i, c); }
  }

  lemma DatesDiffer(a: seq<Event>, f: seq<Event>, start: nat, end: nat, i: nat)
    requires start <= i < end && i < |a| && i < |f| && a[i].date != f[i].date
    ensures Dates(Slice(f, start, end)) != Dates(Slice(a, start, end))
  {
    var p, q := Slice(f, start, end), Slice(a, start, end);
    assert p[i - start] == f[i] && q[i - start] == a[i];
    assert Dates(p)[i - start] != Dates(q)[i - start];
  }

  /** The first page is right exactly when the completions that are not fetched are covered. */
  lemma FirstPageExactly(tables: seq<seq<Row>>, limit: nat)
    requires AllNewestFirst(tables)
    ensures Dates(Shown(tables, limit, 1)) == Dates(Wanted(tables, limit, 1)) <==> Covered(tables, limit)
  {
    hide Gather, Fetched, SortByDate, CountFrom, Missing, AllNewestFirst, Slice, Dates, Falling;
    if Covered(tables, limit) {
      PageOfWholeHistory(tables, limit, 1);
    } else {
      var c :| Missing(tables, limit, c) && CountFrom(Gather(Fetched(tables, limit)), c) < limit;
      var k := CountFrom(Gather(Fetched(tables, limit)), c);
      SortCount(Gather(Fetched(tables, limit)), c);
      MissingShifts(tables, limit, c, k);
      DatesDiffer(SortByDate(Gather(tables)), SortByDate(Gather(Fetched(tables, limit))), 0, limit, k);
    }
  }

  predicate DistinctDates(events: seq<Event>) {
    forall i, j :: 0 <= i < j < |events| ==> events[i].date != events[j].date
  }

  lemma {:induction false} OneADay(events: seq<Event>, d: int)
    requires DistinctDates(events)
    ensures CountFrom(events, d) <= CountFrom(events, d + 1) + 1
    ensures d !in Dates(events) ==> CountFrom(events, d) == CountFrom(events, d + 1)
  {
    if events != [] {
      var p, last := events[..|events| - 1], events[|events| - 1];
      OneADay(p, d);
      assert Dates(events) == Dates(p) + [last.date];
      assert last.date == d ==> d !in Dates(p);
    }
  }

  /** With distinct dates that holds of every page: a missing completion shifts all that comes after it. */
  lemma PageExactly(tables: seq<seq<Row>>, limit: nat, page: nat)
    requires limit > 0 && page > 0 && AllNewestFirst(tables) && DistinctDates(Gather(tables))
    ensures Dates(Shown(tables, limit, page)) == Dates(Wanted(tables, limit, page)) <==> Covered(tables, limit * page)
  {
    hide Gather, Fetched, SortByDate, CountFrom, Missing, AllNewestFirst, DistinctDates, Slice, Dates, Falling;
    var n, start := limit * page, (page - 1) * limit;
    PageEnd(limit, page);
    if Covered(tables, n) {
      PageOfWholeHistory(tables, limit, page);
    } else {
      var c :| Missing(tables, n, c) && CountFrom(Gather(Fetched(tables, n)), c) < n;
      var k := CountFrom(Gather(Fetched(tables, n)), c);
      SortCount(Gather(Fetched(tables, n)), c);
      var i := if k < start then start else k;
      MissingShifts(tables, n, c, i);
      if k < start { ShiftedDate(tables, n, start); }
      DatesDiffer(SortByDate(Gather(tables)), SortByDate(Gather(Fetched(tables, n))), start, n, i);
    }
  }

  /** Where the history has more events from a fetched date on, that date has moved on. */
  lemma ShiftedDate(tables: seq<seq<Row>>, n: nat, i: nat)
    requires DistinctDates(Gather(tables))
    requires var a, f := SortByDate(Gather(tables)), SortByDate(Gather(Fetched(tables, n)));
             && Falling(a) && i < |f| && CountFrom(a, f[i].date) > CountFrom(f, f[i].date) > i
             && |a| > CountFrom(f, f[i].date)
    ensures var a, f := SortByDate(Gather(tables)), SortByDate(Gather(Fetched(tables, n)));
            i < |a| && a[i].date > f[i].date
  {
    hide Gather, Fetched, SortByDate, CountFrom, DistinctDates;
    var a, f := SortByDate(Gather(tables)), SortByDate(Gather(Fetched(tables, n)));
    var d := f[i].date;
    SortCount(Gather(tables), d);
    SortCount(Gather(tables), d + 1);
    OneADay(Gather(tables), d);
    PlaceIsCount(a, i, d + 1);
  }

  lemma PageEnd(limit: nat, page: nat)
    requires page > 0
    ensures (page - 1) * limit + limit == limit * page
  {
  }

  lemma SameSlice(a: seq<Event>, f: seq<Event>, start: nat, end: nat)
    requires (|a| >= end <==> |f| >= end) && (|a| < end ==> |f| == |a|)
    requires forall i :: 0 <= i < end && i < |a| && i < |f| ==> a[i].date == f[i].date
    ensures Dates(Slice(f, start, end)) == Dates(Slice(a, start, end))
  {
  }

  /** With distinct dates the events themselves are the same. */
  lemma SameEventsWhenDatesDiffer(tables: seq<seq<Row>>, limit: nat, page: nat)
    requires page > 0 && AllNewestFirst(tables) && Covered(tables, limit * page)
    requires forall x, y :: x in Gather(tables) && y in Gather(tables) && x.date == y.date ==> x == y
    ensures Shown(tables, limit, page) == Wanted(tables, limit, page)
  {
    hide Covered, AllNewestFirst;
    var f, a := Shown(tables, limit, page), Wanted(tables, limit, page);
    PageOfWholeHistory(tables, limit, page);
    assert |f| == |Dates(f)| == |Dates(a)| == |a|;
    forall i | 0 <= i < |a| ensures f[i] == a[i] {
      assert Dates(f)[i] == Dates(a)[i];
      assert f[i] in f && a[i] in a;
      InPage(Gather(Fetched(tables, limit * page)), limit, page, f[i]);
      InPage(Gather(tables), limit, page, a[i]);
      FetchedIn(tables, limit * page, f[i]);
    }
  }

  lemma InPage(events: seq<Event>, limit: nat, page: nat, x: Event)
    requires page > 0 && x in PageOf(events, limit, page)
    ensures x in events
  {
    SortFalls(events);
  }

  lemma {:induction false} FetchedIn(tables: seq<seq<Row>>, take: nat, x: Event)
    requires x in Gather(Fetched(tables, take))
    ensures x in Gather(tables)
  {
    if tables != [] {
      var p, fetched := tables[..|tables| - 1], Fetched(tables, take);
      assert fetched[..|fetched| - 1] == Fetched(p, take);
      if x in Gather(Fetched(p, take)) {
        FetchedIn(p, take, x);
      } else {
        PrefixEvents(tables[|tables| - 1], take, x);
      }
    }
  }

  lemma {:induction false} PrefixEvents(table: seq<Row>, take: nat, x: Event)
    requires x in TableEvents(Newest(table, take))
    ensures x in TableEvents(table)
  {
    if |table| > take {
      var p := table[..|table| - 1];
      assert Newest(p, take) == Newest(table, take);
      PrefixEvents(p, take, x);
    }
  }

  lemma GatherLast(tables: seq<seq<Row>>, take: nat)
    requires tables != []
    ensures var p, last := tables[..|tables| - 1], tables[|tables| - 1];
            && Gather(tables) == Gather(p) + TableEvents(last)
            && Gather(Fetched(tables, take)) == Gather(Fetched(p, take)) + TableEvents(Newest(last, take))
  {
    var fetched := Fetched(tables, take);
    assert fetched[..|fetched| - 1] == Fetched(tables[..|tables| - 1], take);
  }

  lemma AllShort(tables: seq<seq<Row>>, take: nat)
    requires tables != []
    ensures var p := tables[..|tables| - 1];
            (forall t :: 0 <= t < |tables| ==> |tables[t]| <= take) <==>
                (forall t :: 0 <= t < |p| ==> |p[t]| <= take) && |tables[|tables| - 1]| <= take
  {
    var p := tables[..|tables| - 1];
    assert forall t :: 0 <= t < |p| ==> p[t] == tables[t];
  }

  /** The reported total counts the fetched events only: it is the size of the history just when no table was cut. */
  lemma {:induction false} TotalIsOfFetched(tables: seq<seq<Row>>, take: nat)
    ensures |Gather(Fetched(tables, take))| <= |Gather(tables)|
    ensures |Gather(Fetched(tables, take))| == |Gather(tables)| <==>
            forall t :: 0 <= t < |tables| ==> |tables[t]| <= take
  {
    if tables != [] {
      hide TableEvents, Newest, Fetched, Gather;
      GatherLast(tables, take);
      var p, last := tables[..|tables| - 1], tables[|tables| - 1];
      TotalIsOfFetched(p, take);
      CutTable(last, take);
      AllShort(tables, take);
    }
  }

  lemma {:induction false} CutTable(table: seq<Row>, take: nat)
    ensures |TableEvents(Newest(table, take))| <= |TableEvents(table)|
    ensures |TableEvents(Newest(table, take))| == |TableEvents(table)| <==> |table| <= take
  {
    if |table| > take {
      var p := table[..|table| - 1];
      assert Newest(p, take) == Newest(table, take);
      CutTable(p, take);
    }
  }
}
