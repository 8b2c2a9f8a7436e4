/** The cursor sweep over pending tracking rows, page by page, while rows resolve between the pages. */
module Sweeps {
  import opened Tables

  const BATCH_SIZE: nat := 50

  predicate Ascending(s: seq<nat>) {
    forall i, j :: 0 <= i < j < |s| ==> s[i] < s[j]
  }

  lemma {:induction false} HasLeast(m: set<nat>, a: nat)
    requires a in m
    ensures exists x :: x in m && forall y :: y in m ==> x <= y
  {
    if b :| b in m && b < a { HasLeast(m, b); }
  }

  function Least(m: set<nat>): (x: nat)
    requires m != {}
    ensures x in m && forall y :: y in m ==> x <= y
  {
    assert exists x :: x in m && forall y :: y in m ==> x <= y by {
      var a :| a in m;
      HasLeast(m, a);
    }
    var x :| x in m && forall y :: y in m ==> x <= y;
    x
  }

  /** `orderBy: { id: 'asc' }`. */
  function Sorted(m: set<nat>): (s: seq<nat>)
    ensures Ascending(s) && forall x :: x in s <==> x in m
    decreases |m|
  {
    if m == {} then [] else
    var x := Least(m);
    var rest := Sorted(m - {x});
    assert forall y :: y in rest ==> x < y;
    [x] + rest
  }

  function From(m: set<nat>, cursor: Option<nat>): set<nat> {
    match cursor case None => m case Some(c) => set x | x in m && c <= x
  }

  /** The query of one page: matching rows from the cursor on, without the first, at most a batch. */
  function FindMany(m: set<nat>, cursor: Option<nat>): seq<nat> {
    var rows := Sorted(From(m, cursor));
    var rest := if cursor.Some? && rows != [] then rows[1..] else rows;
    if |rest| <= BATCH_SIZE then rest else rest[..BATCH_SIZE]
  }

  /** `x` is the first matching row after the cursor row, which has resolved: the query skips it instead. */
  ghost predicate SkippedAt(m: set<nat>, cursor: nat, x: nat) {
    x in m && cursor !in m && cursor < x && forall y :: cursor < y < x ==> y !in m
  }

  /** What one page adds: the rows between the old and the new cursor are on it, except for a skipped one. */
  lemma PageCovers(m: set<nat>, cursor: Option<nat>, page: seq<nat>, x: nat)
    requires page == FindMany(m, cursor) && x in m && (cursor.Some? ==> cursor.value < x)
    requires page != [] ==> x <= page[|page| - 1]
    ensures x in page || (cursor.Some? && SkippedAt(m, cursor.value, x))
  {
    hide Sorted;
    var rows := Sorted(From(m, cursor));
    assert x in rows;
    var i :| 0 <= i < |rows| && rows[i] == x;
    if cursor.Some? && i == 0 {
      FirstIsSkipped(m, cursor.value, rows, x);
    } else {
      var rest := if cursor.Some? then rows[1..] else rows;
      BatchCovers(rest, if cursor.Some? then i - 1 else i, page);
    }
  }

  lemma FirstIsSkipped(m: set<nat>, cursor: nat, rows: seq<nat>, x: nat)
    requires rows == Sorted(From(m, Some(cursor))) && rows != [] && rows[0] == x && cursor < x
    ensures SkippedAt(m, cursor, x)
  {
    hide Sorted;
    assert x in rows;
    forall y | y in m && cursor <= y ensures x <= y {
      assert y in rows;
    }
  }

  /** Such a row is really missed: the page has larger rows only. */
  lemma RowAfterResolvedCursorIsMissed(m: set<nat>, cursor: nat, x: nat)
    requires SkippedAt(m, cursor, x)
    ensures forall y :: y in FindMany(m, Some(cursor)) ==> x < y
  {
    hide Sorted;
    var rows := Sorted(From(m, Some(cursor)));
    assert x in rows;
    assert rows[0] in rows;
    assert rows[0] == x by {
      var i :| 0 <= i < |rows| && rows[i] == x;
      assert x <= rows[0];
    }
  }

  lemma BatchCovers(rest: seq<nat>, j: nat, page: seq<nat>)
    requires Ascending(rest) && j < |rest| && page == (if |rest| <= BATCH_SIZE then rest else rest[..BATCH_SIZE])
    requires page != [] ==> rest[j] <= page[|page| - 1]
    ensures rest[j] in page
  {
    if j < BATCH_SIZE { assert page[j] == rest[j]; }
  }

  lemma RowsFrom(m: set<nat>, cursor: Option<nat>)
    ensures var rows := Sorted(From(m, cursor));
            && Ascending(rows)
            && forall i :: 0 <= i < |rows| ==> rows[i] in m && (cursor.Some? ==> cursor.value <= rows[i])
  {
    hide Sorted;
    var rows := Sorted(From(m, cursor));
    assert forall i :: 0 <= i < |rows| ==> rows[i] in From(m, cursor);
  }

  lemma PageAscends(m: set<nat>, cursor: Option<nat>)
    ensures var page := FindMany(m, cursor);
            Ascending(page) && forall x :: x in page ==> x in m && (cursor.Some? ==> cursor.value < x)
  {
    hide Sorted, From;
    RowsFrom(m, cursor);
    var rows, page := Sorted(From(m, cursor)), FindMany(m, cursor);
    var start := if cursor.Some? && rows != [] then 1 else 0;
    assert page == rows[start..start + |page|];
    forall x | x in page ensures x in m && (cursor.Some? ==> cursor.value < x) {
      var j :| 0 <= j < |page| && page[j] == x;
      assert rows[start + j] == x && (start == 1 ==> rows[0] < x);
    }
  }

  function Ahead(m: set<nat>, cursor: Option<nat>): set<nat> {
    match cursor case None => m case Some(c) => set x | x in m && c < x
  }

  lemma Fewer(m: set<nat>, m': set<nat>, cursor: Option<nat>, page: seq<nat>)
    requires m' <= m && page != [] && Ascending(page) && forall x :: x in page ==> x in Ahead(m, cursor)
    ensures |Ahead(m', Some(page[|page| - 1]))| < |Ahead(m, cursor)|
  {
    var last := page[|page| - 1];
    assert last in page;
    assert Ahead(m', Some(last)) <= Ahead(m, cursor) - {last};
    Smaller(Ahead(m', Some(last)), Ahead(m, cursor), last);
  }

  lemma Smaller(a: set<nat>, b: set<nat>, x: nat)
    requires a <= b - {x} && x in b
    ensures |a| < |b|
  {
    NoLarger(a, b - {x});
  }

  lemma NoLarger(a: set<nat>, b: set<nat>)
    requires a <= b
    ensures |a| <= |b|
    decreases |a|
  {
    if a != {} {
      var x :| x in a;
      NoLarger(a - {x}, b - {x});
    }
  }

  /** The row was skipped on one of the pages 1 to `n`; `cursors` are the last rows of the pages before. */
  ghost predicate Missed(matching: nat -> set<nat>, cursors: seq<nat>, n: nat, x: nat)
    requires n <= |cursors|
  {
    exists t :: 1 <= t <= n && SkippedAt(matching(t), cursors[t - 1], x)
  }

  /** Every row up to the cursor that is still pending has been visited or missed, and missed rows are behind. */
  ghost predicate Covered(matching: nat -> set<nat>, cursors: seq<nat>, visited: seq<nat>) {
    var n := |cursors|;
    n > 0 ==>
      && (forall x :: x in matching(n) && x <= cursors[n - 1] ==> x in visited || Missed(matching, cursors, n - 1, x))
      && (forall x :: Missed(matching, cursors, n - 1, x) ==> x !in visited && x < cursors[n - 1])
  }

  function LastOf(cursors: seq<nat>): Option<nat> {
    if cursors == [] then None else Some(cursors[|cursors| - 1])
  }

  /** The cursors are the last rows of the pages. */
  predicate PageEnds(matching: nat -> set<nat>, cursors: seq<nat>) {
    forall t :: 0 <= t < |cursors| ==> EndOf(FindMany(matching(t), LastOf(cursors[..t])), cursors[t])
  }

  predicate EndOf(page: seq<nat>, last: nat) {
    page != [] && last == page[|page| - 1]
  }

  lemma NextEnd(matching: nat -> set<nat>, cursors: seq<nat>, last: nat)
    requires PageEnds(matching, cursors) && EndOf(FindMany(matching(|cursors|), LastOf(cursors)), last)
    ensures PageEnds(matching, cursors + [last])
  {
    hide FindMany;
    var more := cursors + [last];
    forall t | 0 <= t < |more| ensures EndOf(FindMany(matching(t), LastOf(more[..t])), more[t]) {
      assert more[..t] == cursors[..t];
      if t == |cursors| { assert cursors[..t] == cursors; }
    }
  }

  lemma MissedMore(matching: nat -> set<nat>, cursors: seq<nat>, last: nat, x: nat)
    ensures var n := |cursors|;
            Missed(matching, cursors + [last], n, x) <==>
              (n > 0 && Missed(matching, cursors, n - 1, x)) || (n > 0 && SkippedAt(matching(n), cursors[n - 1], x))
  {
    var n, more := |cursors|, cursors + [last];
    assert forall j :: 0 <= j < n ==> more[j] == cursors[j];
    if n > 0 && SkippedAt(matching(n), cursors[n - 1], x) {
      assert SkippedAt(matching(n), more[n - 1], x);
    }
    if n > 0 && Missed(matching, cursors, n - 1, x) {
      var t :| 1 <= t <= n - 1 && SkippedAt(matching(t), cursors[t - 1], x);
      assert SkippedAt(matching(t), more[t - 1], x);
    }
  }

  /** One page more. */
  lemma NextPage(matching: nat -> set<nat>, cursors: seq<nat>, visited: seq<nat>, page: seq<nat>)
    requires page == FindMany(matching(|cursors|), LastOf(cursors)) && page != []
    requires matching(|cursors| + 1) <= matching(|cursors|) && Covered(matching, cursors, visited) && Ascending(page)
    requires cursors != [] ==>
               && (forall y :: y in visited ==> y <= cursors[|cursors| - 1])
               && (forall y :: y in page ==> cursors[|cursors| - 1] < y)
    requires cursors == [] ==> visited == []
    ensures Covered(matching, cursors + [page[|page| - 1]], visited + page)
  {
    hide FindMany, SkippedAt, Missed;
    var n, last := |cursors|, page[|page| - 1];
    var m, more := matching(n), cursors + [last];
    assert last in page && forall y :: y in page ==> y <= last;
    forall x | x in matching(n + 1) && x <= last ensures x in visited + page || Missed(matching, more, n, x) {
      MissedMore(matching, cursors, last, x);
      if n == 0 || cursors[n - 1] < x { PageCovers(m, LastOf(cursors), page, x); }
    }
    forall x | Missed(matching, more, n, x) ensures x !in visited + page && x < last {
      MissedMore(matching, cursors, last, x);
      assert last in page;
      if Missed(matching, cursors, n - 1, x) {
        assert x !in visited && x < cursors[n - 1] < last;
        assert forall y :: y in page ==> x < y;
      } else {
        SkippedBehind(m, cursors[n - 1], page, visited, x);
      }
    }
  }

  lemma SkippedBehind(m: set<nat>, cursor: nat, page: seq<nat>, visited: seq<nat>, x: nat)
    requires SkippedAt(m, cursor, x) && page == FindMany(m, Some(cursor)) && forall y :: y in visited ==> y <= cursor
    ensures x !in visited + page && forall y :: y in page ==> x < y
  {
    hide FindMany;
    RowAfterResolvedCursorIsMissed(m, cursor, x);
  }

  /** The page that ends the sweep. */
  lemma LastPage(matching: nat -> set<nat>, cursors: seq<nat>, visited: seq<nat>)
    requires FindMany(matching(|cursors|), LastOf(cursors)) == [] && Covered(matching, cursors, visited)
    requires cursors != [] ==> forall y :: y in visited ==> y <= cursors[|cursors| - 1]
    requires cursors == [] ==> visited == []
    ensures forall x :: x in matching(|cursors|) ==> (x !in visited <==> Missed(matching, cursors, |cursors|, x))
  {
    hide FindMany, SkippedAt, Missed;
    var n := |cursors|;
    forall x | x in matching(n) ensures x !in visited <==> Missed(matching, cursors, n, x) {
      if n > 0 {
        MissedMore(matching, cursors, 0, x);
        MissedPrefix(matching, cursors, 0, x);
        if cursors[n - 1] < x { PageCovers(matching(n), LastOf(cursors), [], x); }
        if SkippedAt(matching(n), cursors[n - 1], x) { SkippedBehind(matching(n), cursors[n - 1], [], visited, x); }
      } else {
        PageCovers(matching(n), None, [], x);
      }
    }
  }

  lemma MissedPrefix(matching: nat -> set<nat>, cursors: seq<nat>, last: nat, x: nat)
    ensures Missed(matching, cursors + [last], |cursors|, x) <==> Missed(matching, cursors, |cursors|, x)
  {
    var more := cursors + [last];
    assert forall j :: 0 <= j < |cursors| ==> more[j] == cursors[j];
    if t :| 1 <= t <= |cursors| && SkippedAt(matching(t), cursors[t - 1], x) {
      assert SkippedAt(matching(t), more[t - 1], x);
    }
  }

  lemma Joined(visited: seq<nat>, page: seq<nat>)
    requires Ascending(visited) && Ascending(page)
    requires visited != [] ==> forall x :: x in page ==> visited[|visited| - 1] < x
    ensures Ascending(visited + page)
  {
    var all := visited + page;
    forall i, j | 0 <= i < j < |all| ensures all[i] < all[j] {
      if i < |visited| <= j {
        assert all[j] in page && visited[i] <= visited[|visited| - 1];
      }
    }
  }

  /** One sweep. `matching(t)` are the pending rows older than five minutes when page `t` is read: the age limit is
      taken once, so rows only leave. Ids ascend, and of the rows that are pending to the end exactly those are missed
      that came right after the last row of a page when that row had resolved. */
  method ReconcileTransactions(matching: nat -> set<nat>) returns (visited: seq<nat>, cursors: seq<nat>)
    requires forall t: nat :: matching(t + 1) <= matching(t)
    ensures Ascending(visited) && forall x :: x in visited ==> x in matching(0)
    ensures matching(|cursors|) <= matching(0) && forall c :: c in cursors ==> c in visited
    ensures PageEnds(matching, cursors) && FindMany(matching(|cursors|), LastOf(cursors)) == []
    ensures forall x :: x in matching(|cursors|) ==> (x !in visited <==> Missed(matching, cursors, |cursors|, x))
  {
    hide FindMany, Covered, Missed, PageEnds;
    visited, cursors := [], [];
    NothingCovered(matching);
    var hasMore := true;
    while hasMore
      invariant Ascending(visited) && forall x :: x in visited ==> x in matching(0)
      invariant matching(|cursors|) <= matching(0) && Covered(matching, cursors, visited)
      invariant PageEnds(matching, cursors) && forall c :: c in cursors ==> c in visited
      invariant if cursors == [] then visited == []
                else visited != [] && visited[|visited| - 1] == cursors[|cursors| - 1]
      decreases |Ahead(matching(|cursors|), LastOf(cursors))|
    {
      var stuckTxs := FindMany(matching(|cursors|), LastOf(cursors));
      PageAscends(matching(|cursors|), LastOf(cursors));
      if |stuckTxs| == 0 {
        LastPage(matching, cursors, visited);
        hasMore := false;
        break;
      }
      NextPage(matching, cursors, visited, stuckTxs);
      NextEnd(matching, cursors, stuckTxs[|stuckTxs| - 1]);
      Joined(visited, stuckTxs);
      Fewer(matching(|cursors|), matching(|cursors| + 1), LastOf(cursors), stuckTxs);
      visited := visited + stuckTxs;
      cursors := cursors + [stuckTxs[|stuckTxs| - 1]];
    }
  }

  lemma NothingCovered(matching: nat -> set<nat>)
    ensures Covered(matching, [], []) && PageEnds(matching, [])
  {
  }

  // ── Sweep after sweep ──

  /** `x` came right after a visited row that had resolved. */
  ghost predicate Displaced(after: set<nat>, visited: seq<nat>, x: nat) {
    exists c :: c in visited && c !in after && c < x && forall y :: c < y < x ==> y !in after
  }

  lemma {:induction false} Shrinks(matching: nat -> set<nat>, i: nat, j: nat)
    requires (forall t: nat :: matching(t + 1) <= matching(t)) && i <= j
    ensures matching(j) <= matching(i)
    decreases j - i
  {
    if i < j { Shrinks(matching, i + 1, j); }
  }

  /** A sweep that began with the matching rows `before` and ended with `after`. */
  datatype Sweep = Sweep(before: set<nat>, after: set<nat>, visited: seq<nat>)

  ghost predicate Swept(s: Sweep) {
    && s.after <= s.before
    && (forall x :: x in s.visited ==> x in s.before)
    && (forall x :: x in s.after ==> x in s.visited || Displaced(s.after, s.visited, x))
  }

  /** What the method promises makes a sweep. */
  lemma SweepsAreSwept(matching: nat -> set<nat>, visited: seq<nat>, cursors: seq<nat>)
    requires (forall t: nat :: matching(t + 1) <= matching(t)) && forall c :: c in cursors ==> c in visited
    requires forall x :: x in visited ==> x in matching(0)
    requires forall x :: x in matching(|cursors|) ==> (x !in visited <==> Missed(matching, cursors, |cursors|, x))
    ensures Swept(Sweep(matching(0), matching(|cursors|), visited))
  {
    var after := matching(|cursors|);
    Shrinks(matching, 0, |cursors|);
    forall x | x in after && x !in visited ensures Displaced(after, visited, x) {
      var t :| 1 <= t <= |cursors| && SkippedAt(matching(t), cursors[t - 1], x);
      Shrinks(matching, t, |cursors|);
      assert cursors[t - 1] in cursors;
    }
  }

  /** Between sweeps rows resolve, and rows that come of age have larger ids than all before them. */
  ghost predicate Successive(sweeps: seq<Sweep>) {
    && (forall i :: 0 <= i < |sweeps| ==> Swept(sweeps[i]))
    && (forall i :: 0 <= i < |sweeps| - 1 ==> Precedes(sweeps[i], sweeps[i + 1]))
  }

  ghost predicate Precedes(s: Sweep, s': Sweep) {
    forall y, z :: y in s'.before && y !in s.after && z in s.before ==> z < y
  }

  function Below(m: set<nat>, x: nat): set<nat> {
    set y | y in m && y < x
  }

  /** Sweep progress: a pending row is visited after at most as many misses as there are pending rows before it, because
      every miss means that one of those has resolved. */
  lemma {:induction false} VisitedInTime(sweeps: seq<Sweep>, x: nat)
    requires Successive(sweeps) && forall i :: 0 <= i < |sweeps| ==> x in sweeps[i].after
    requires |sweeps| > 0 && |sweeps| > |Below(sweeps[0].before, x)|
    ensures exists i :: 0 <= i < |sweeps| && x in sweeps[i].visited
    decreases |sweeps|
  {
    var s, rest := sweeps[0], sweeps[1..];
    if x !in s.visited {
      assert Swept(s);
      var c :| c in s.visited && c !in s.after && c < x && forall y :: c < y < x ==> y !in s.after;
      Smaller({}, Below(s.before, x), c);
      if |sweeps| > 1 {
        assert Precedes(s, sweeps[1]);
        assert Below(rest[0].before, x) <= Below(s.before, x) - {c};
        Smaller(Below(rest[0].before, x), Below(s.before, x), c);
        assert forall i :: 0 <= i < |rest| ==> rest[i] == sweeps[i + 1];
        SuccessiveRest(sweeps);
        VisitedInTime(rest, x);
        var i :| 0 <= i < |rest| && x in rest[i].visited;
        assert x in sweeps[i + 1].visited;
      }
    }
  }

  lemma SuccessiveRest(sweeps: seq<Sweep>)
    requires Successive(sweeps) && |sweeps| > 0
    ensures Successive(sweeps[1..])
  {
    var rest := sweeps[1..];
    forall i | 0 <= i < |rest| - 1 ensures Precedes(rest[i], rest[i + 1]) {
      assert Precedes(sweeps[i + 1], sweeps[i + 2]);
    }
  }
}
