/**
 The run list: listRuns of apps/api/src/production-service.ts, paged by a cursor that
 keeps whole seconds only. Times are microseconds, as the table stores them.
*/
module RunList {
  import opened Wrappers
  import opened Journal

  datatype Run = Run(id: nat, projectId: Id, updatedAt: int, projection: Projection)

  datatype Cursor = Cursor(updatedAt: int, id: nat)

  datatype Status = ActiveRuns | CompletedRuns | FailedRuns

  datatype Query = Query(projectId: Id, status: Option<Status>, limit: Option<int>)

  datatype Page = Page(runs: seq<Run>, next: Option<Cursor>)

  const SECOND := 1_000_000

  // ------------------------------------------------------------------- status

  predicate FailedSql(p: Projection) {
    (p.recovery.Some? && p.recovery.value.body.Failed?) || (|p.stages| == 6 && p.stages[5] == Broken)
  }

  predicate StatusSelects(status: Option<Status>, p: Projection) {
    match status
    case None => true
    case Some(ActiveRuns) => !p.terminal
    case Some(CompletedRuns) => p.terminal && !FailedSql(p)
    case Some(FailedRuns) => FailedSql(p)
  }

  /** The status shown with a listed run. */
  function ShownStatus(p: Projection): Status {
    if exists i :: 0 <= i < |p.stages| && p.stages[i] == Broken then FailedRuns
    else if p.terminal then CompletedRuns else ActiveRuns
  }

  /** The filter in SQL and the status computed in the service agree on every projection
      the journal can have. */
  lemma {:induction false} FilterAgrees(j: seq<Event>, status: Status)
    requires ProjectRun(j).Some?
    ensures StatusSelects(Some(status), ProjectRun(j).value) <==> ShownStatus(ProjectRun(j).value) == status
  {
    var p := Fold(j).value;
    var shown := ProjectRun(j).value;
    var last := Last(p.lifecycle);
    NewestIsRecovery(j, j);
    ProjectionTerminal(j);
    if last.body.Failed? {
      assert shown.stages[StageIndex(last.body.stage)] == Broken;
    } else {
      forall i | 0 <= i < 5 ensures shown.stages[i] != Broken {
      }
    }
  }

  lemma {:induction false} NewestIsRecovery(j: seq<Event>, k: seq<Event>)
    requires Fold(k).Some?
    ensures var found := Newest(j, Fold(k).value.unresolved); found.Some? ==> !found.value.body.Failed?
  {
    FoldFacts(k);
    if j != [] {
      NewestIsRecovery(Front(j), k);
    }
  }

  // ------------------------------------------------------------------- paging

  predicate Less(t: int, id: nat, u: int, other: nat) { t < u || (t == u && id < other) }

  predicate Below(r: Run, c: Cursor) { Less(r.updatedAt, r.id, c.updatedAt, c.id) }

  /** The table in the order of its index: updated_at, then id, descending. */
  ghost predicate Descending(rows: seq<Run>) {
    forall i, k :: 0 <= i < k < |rows| ==> Less(rows[k].updatedAt, rows[k].id, rows[i].updatedAt, rows[i].id)
  }

  predicate Selects(q: Query, cursor: Option<Cursor>, r: Run) {
    r.projectId == q.projectId && StatusSelects(q.status, r.projection) && (cursor.Some? ==> Below(r, cursor.value))
  }

  function Select(rows: seq<Run>, q: Query, cursor: Option<Cursor>): seq<Run> {
    if rows == [] then []
    else (if Selects(q, cursor, rows[0]) then [rows[0]] else []) + Select(rows[1..], q, cursor)
  }

  /** new Date(String(date)): the printed date has no fraction of a second. */
  function CursorOf(r: Run): Cursor { Cursor(r.updatedAt - r.updatedAt % SECOND, r.id) }

  function Take(rows: seq<Run>, n: nat): seq<Run> { if |rows| <= n then rows else rows[..n] }

  function PageOf(found: seq<Run>, limit: nat): Page
    requires limit > 0
  {
    if |found| > limit then Page(found[..limit], Some(CursorOf(found[limit - 1]))) else Page(found, None)
  }

  /** listRuns; absent when the query is refused. */
  function ListRuns(rows: seq<Run>, q: Query, cursor: Option<Cursor>): Option<Page> {
    var limit := if q.limit.Some? then q.limit.value else 20;
    if limit < 1 || limit > 50 then None
    else Some(PageOf(Take(Select(rows, q, cursor), limit + 1), limit))
  }

  /** A list is refused exactly for a limit outside 1 to 50; without one it shows up to 20
      runs, and there is a next page exactly when more are selected. */
  lemma {:induction false} ListedIff(rows: seq<Run>, q: Query, cursor: Option<Cursor>)
    ensures ListRuns(rows, q, cursor).None? <==> q.limit.Some? && !(1 <= q.limit.value <= 50)
    ensures ListRuns(rows, q, cursor).Some? ==>
      var page := ListRuns(rows, q, cursor).value; var selected := Select(rows, q, cursor);
      var limit := if q.limit == None then 20 else q.limit.value;
      page.runs <= selected && |page.runs| == Min(limit, |selected|) && (page.next.Some? <==> |selected| > limit)
  {
  }

  /** Following nextCursor until there is none. */
  function Follow(rows: seq<Run>, q: Query, cursor: Option<Cursor>): seq<Run>
    requires q.limit.Some? && 1 <= q.limit.value <= 50 && Descending(rows)
    decreases |Select(rows, q, cursor)|
  {
    var page := ListRuns(rows, q, cursor).value;
    if page.next.None? then page.runs
    else
      FewerBelow(rows, q, cursor, q.limit.value);
      page.runs + Follow(rows, q, page.next)
  }

  /** What is left after a page: the rows below its cursor. */
  function Rest(found: seq<Run>, c: Cursor): seq<Run> {
    if found == [] then [] else (if Below(found[0], c) then [found[0]] else []) + Rest(found[1..], c)
  }

  function FollowFrom(found: seq<Run>, limit: nat): seq<Run>
    requires limit > 0 && Descending(found)
    decreases |found|
  {
    if |found| <= limit then found
    else
      RestIsSuffix(found, limit);
      found[..limit] + FollowFrom(Rest(found, CursorOf(found[limit - 1])), limit)
  }

  /** The cursor of the row before reaches the row after. */
  predicate Separated(a: Run, b: Run) { Below(b, CursorOf(a)) }

  lemma {:induction false} SelectFacts(rows: seq<Run>, q: Query, cursor: Option<Cursor>)
    requires Descending(rows)
    ensures Descending(Select(rows, q, cursor))
    ensures forall r :: r in Select(rows, q, cursor) <==> r in rows && Selects(q, cursor, r)
  {
    hide StatusSelects;
    if rows != [] {
      SelectFacts(rows[1..], q, cursor);
      var tail := Select(rows[1..], q, cursor);
      assert rows == [rows[0]] + rows[1..];
      forall i | 0 <= i < |tail| ensures Less(tail[i].updatedAt, tail[i].id, rows[0].updatedAt, rows[0].id) {
        assert tail[i] in rows[1..];
      }
    }
  }

  lemma {:induction false} RestFacts(found: seq<Run>, c: Cursor)
    requires Descending(found)
    ensures Descending(Rest(found, c))
    ensures forall r :: r in Rest(found, c) <==> r in found && Below(r, c)
    ensures (forall r :: r in found ==> Below(r, c)) ==> Rest(found, c) == found
    ensures |Rest(found, c)| <= |found|
  {
    if found != [] {
      RestFacts(found[1..], c);
      assert found == [found[0]] + found[1..];
    }
  }

  lemma {:induction false} RestDrop(found: seq<Run>, c: Cursor, n: nat)
    requires n <= |found| && forall i :: 0 <= i < n ==> !Below(found[i], c)
    ensures Rest(found, c) == Rest(found[n..], c)
    decreases n
  {
    if n > 0 {
      RestDrop(found[1..], c, n - 1);
      assert found[1..][n - 1..] == found[n..];
    } else {
      assert found[0..] == found;
    }
  }

  /** The rows of the page are not below its cursor, so only later rows remain. */
  lemma {:induction false} RestIsSuffix(found: seq<Run>, limit: nat)
    requires 0 < limit < |found| && Descending(found)
    ensures var c := CursorOf(found[limit - 1]);
      Rest(found, c) == Rest(found[limit..], c) && |Rest(found, c)| <= |found| - limit && Descending(Rest(found, c))
  {
    var c := CursorOf(found[limit - 1]);
    RestDrop(found, c, limit);
    RestFacts(found[limit..], c);
  }

  lemma {:induction false} SelectBelow(rows: seq<Run>, q: Query, cursor: Option<Cursor>, c: Cursor)
    requires cursor.Some? ==> c == cursor.value || Less(c.updatedAt, c.id, cursor.value.updatedAt, cursor.value.id)
    ensures Select(rows, q, Some(c)) == Rest(Select(rows, q, cursor), c)
  {
    hide StatusSelects;
    if rows != [] {
      SelectBelow(rows[1..], q, cursor, c);
      var tail := Select(rows[1..], q, cursor);
      assert ([rows[0]] + tail)[1..] == tail;
      assert [] + tail == tail;
      assert Selects(q, Some(c), rows[0]) <==> Selects(q, cursor, rows[0]) && Below(rows[0], c);
    }
  }

  lemma {:induction false} CursorBelow(rows: seq<Run>, q: Query, cursor: Option<Cursor>, r: Run)
    requires Descending(rows) && r in Select(rows, q, cursor)
    ensures cursor.Some? ==> Less(CursorOf(r).updatedAt, r.id, cursor.value.updatedAt, cursor.value.id)
  {
    SelectFacts(rows, q, cursor);
  }

  lemma {:induction false} FewerBelow(rows: seq<Run>, q: Query, cursor: Option<Cursor>, limit: nat)
    requires Descending(rows) && 0 < limit < |Select(rows, q, cursor)|
    ensures var c := CursorOf(Select(rows, q, cursor)[limit - 1]);
      Select(rows, q, Some(c)) == Rest(Select(rows, q, cursor), c) &&
      |Select(rows, q, Some(c))| < |Select(rows, q, cursor)|
  {
    var found := Select(rows, q, cursor);
    SelectFacts(rows, q, cursor);
    CursorBelow(rows, q, cursor, found[limit - 1]);
    SelectBelow(rows, q, cursor, CursorOf(found[limit - 1]));
    RestIsSuffix(found, limit);
  }

  /** Paging through the table is paging through the rows the first query would select. */
  lemma {:induction false} FollowIs(rows: seq<Run>, q: Query, cursor: Option<Cursor>)
    requires q.limit.Some? && 1 <= q.limit.value <= 50 && Descending(rows)
    ensures Descending(Select(rows, q, cursor))
    ensures Follow(rows, q, cursor) == FollowFrom(Select(rows, q, cursor), q.limit.value)
    decreases |Select(rows, q, cursor)|
  {
    hide Descending, Select, Rest;
    var found, limit := Select(rows, q, cursor), q.limit.value;
    SelectFacts(rows, q, cursor);
    if |found| > limit {
      FewerBelow(rows, q, cursor, limit);
      assert Take(found, limit + 1)[..limit] == found[..limit];
      FollowIs(rows, q, Some(CursorOf(found[limit - 1])));
    }
  }

  /** Every page boundary is separated. */
  predicate Boundaries(found: seq<Run>, limit: nat)
    requires limit > 0
    decreases |found|
  {
    |found| <= limit || (Separated(found[limit - 1], found[limit]) && Boundaries(found[limit..], limit))
  }

  lemma {:induction false} FollowShort(found: seq<Run>, limit: nat)
    requires limit > 0 && Descending(found)
    ensures |FollowFrom(found, limit)| <= |found|
    ensures Descending(FollowFrom(found, limit))
    ensures forall r :: r in FollowFrom(found, limit) ==> r in found
    decreases |found|
  {
    if |found| > limit {
      var c := CursorOf(found[limit - 1]);
      RestIsSuffix(found, limit);
      RestFacts(found, c);
      var rest := Rest(found, c);
      FollowShort(rest, limit);
      var tail := FollowFrom(rest, limit);
      forall r | r in tail ensures Below(r, c) && r in found {
      }
      PageThenTail(found, limit, tail);
    }
  }

  lemma {:induction false} PageThenTail(found: seq<Run>, limit: nat, tail: seq<Run>)
    requires 0 < limit <= |found| && Descending(found) && Descending(tail)
    requires forall r :: r in tail ==> Below(r, CursorOf(found[limit - 1]))
    ensures Descending(found[..limit] + tail)
  {
    var all := found[..limit] + tail;
    forall i, k | 0 <= i < k < |all| ensures Less(all[k].updatedAt, all[k].id, all[i].updatedAt, all[i].id) {
      if i < limit <= k {
        assert all[k] in tail;
        assert Less(all[k].updatedAt, all[k].id, found[limit - 1].updatedAt, found[limit - 1].id);
        if i < limit - 1 {
          assert Less(found[limit - 1].updatedAt, found[limit - 1].id, found[i].updatedAt, found[i].id);
        }
      }
    }
  }

  /** A page boundary that is separated loses nothing; one that is not loses the row after it. */
  lemma {:induction false} AcrossBoundary(found: seq<Run>, limit: nat)
    requires 0 < limit < |found| && Descending(found)
    ensures var rest := Rest(found, CursorOf(found[limit - 1]));
      if Separated(found[limit - 1], found[limit]) then rest == found[limit..] else |rest| < |found| - limit
  {
    hide CursorOf, Rest, Less;
    var c := CursorOf(found[limit - 1]);
    RestIsSuffix(found, limit);
    var tail := found[limit..];
    RestFacts(tail, c);
    if Separated(found[limit - 1], found[limit]) {
      FirstBelow(tail, c);
    } else {
      FirstNotBelow(tail, c);
    }
  }

  lemma {:induction false} FirstBelow(tail: seq<Run>, c: Cursor)
    requires tail != [] && Descending(tail) && Below(tail[0], c)
    ensures forall r :: r in tail ==> Below(r, c)
  {
    forall k | 0 <= k < |tail| ensures Below(tail[k], c) {
      if k > 0 { assert Less(tail[k].updatedAt, tail[k].id, tail[0].updatedAt, tail[0].id); }
    }
  }

  lemma {:induction false} FirstNotBelow(tail: seq<Run>, c: Cursor)
    requires tail != [] && Descending(tail) && !Below(tail[0], c)
    ensures |Rest(tail, c)| < |tail|
  {
    RestFacts(tail[1..], c);
  }

  lemma {:induction false} CompleteIff(found: seq<Run>, limit: nat)
    requires limit > 0 && Descending(found)
    ensures FollowFrom(found, limit) == found <==> Boundaries(found, limit)
    decreases |found|
  {
    hide Rest, Separated, CursorOf, Less;
    if |found| > limit {
      AcrossBoundary(found, limit);
      RestIsSuffix(found, limit);
      var rest := Rest(found, CursorOf(found[limit - 1]));
      FollowShort(rest, limit);
      if rest == found[limit..] {
        CompleteIff(rest, limit);
        assert found == found[..limit] + found[limit..];
      }
    }
  }

  predicate AllSeparated(found: seq<Run>) {
    forall i :: 0 <= i < |found| - 1 ==> Separated(found[i], found[i + 1])
  }

  lemma {:induction false} SeparatedBoundaries(found: seq<Run>, limit: nat)
    requires limit > 0
    ensures AllSeparated(found) ==> Boundaries(found, limit)
    ensures limit == 1 ==> (Boundaries(found, limit) ==> AllSeparated(found))
    decreases |found|
  {
    if |found| > limit {
      var tail := found[limit..];
      SeparatedBoundaries(tail, limit);
      if AllSeparated(found) {
        forall i | 0 <= i < |tail| - 1 ensures Separated(tail[i], tail[i + 1]) {
          assert tail[i] == found[i + limit] && tail[i + 1] == found[i + limit + 1];
          assert Separated(found[i + limit], found[i + limit + 1]);
        }
      }
      if limit == 1 && Boundaries(found, limit) {
        forall i | 0 <= i < |found| - 1 ensures Separated(found[i], found[i + 1]) {
          if i > 0 { assert Separated(tail[i - 1], tail[i]); }
        }
      }
    }
  }

  /** Following the cursors never repeats a run and never leaves the order; it yields every
      matching run exactly when each page boundary is separated. */
  lemma {:induction false} PagesInOrder(rows: seq<Run>, q: Query)
    requires Descending(rows) && q.limit.Some? && 1 <= q.limit.value <= 50
    ensures var all, shown := Select(rows, q, None), Follow(rows, q, None);
      Descending(shown) && (forall r :: r in shown ==> r in rows && Selects(q, None, r)) &&
      (shown == all <==> Boundaries(all, q.limit.value))
  {
    hide Descending, Select, Selects, Boundaries, Follow, FollowFrom;
    SelectFacts(rows, q, None);
    FollowIs(rows, q, None);
    FollowShort(Select(rows, q, None), q.limit.value);
    CompleteIff(Select(rows, q, None), q.limit.value);
  }

  /** Every limit shows every matching run exactly when each run is separated from the next. */
  lemma {:induction false} AllLimitsComplete(rows: seq<Run>, q: Query)
    requires Descending(rows)
    ensures (forall limit :: 1 <= limit <= 50 ==> Follow(rows, q.(limit := Some(limit)), None) == Select(rows, q, None))
      <==> AllSeparated(Select(rows, q, None))
  {
    hide Descending, Selects, Follow, Boundaries, AllSeparated;
    var all := Select(rows, q, None);
    forall limit | 1 <= limit <= 50
      ensures Follow(rows, q.(limit := Some(limit)), None) == all <==> Boundaries(all, limit)
    {
      SameSelect(rows, q, Some(limit));
      PagesInOrder(rows, q.(limit := Some(limit)));
    }
    forall limit: nat | 1 <= limit <= 50
      ensures (AllSeparated(all) ==> Boundaries(all, limit)) &&
        (limit == 1 && Boundaries(all, limit) ==> AllSeparated(all))
    {
      SeparatedBoundaries(all, limit);
    }
    if forall limit :: 1 <= limit <= 50 ==> Follow(rows, q.(limit := Some(limit)), None) == all {
      assert Follow(rows, q.(limit := Some(1)), None) == all;
      assert Boundaries(all, 1);
    }
  }

  lemma {:induction false} SameSelect(rows: seq<Run>, q: Query, limit: Option<int>)
    ensures Select(rows, q.(limit := limit), None) == Select(rows, q, None)
  {
    if rows != [] {
      SameSelect(rows[1..], q, limit);
    }
  }

  /** Times in whole seconds separate every two runs. */
  lemma {:induction false} WholeSecondsSeparated(rows: seq<Run>, q: Query)
    requires Descending(rows) && forall r :: r in rows ==> r.updatedAt % SECOND == 0
    ensures AllSeparated(Select(rows, q, None))
  {
    SelectFacts(rows, q, None);
    var all := Select(rows, q, None);
    forall i | 0 <= i < |all| - 1 ensures Separated(all[i], all[i + 1]) {
      assert all[i] in rows;
    }
  }

  /** Two neighbours are separated exactly when the later one was updated in an earlier
      second, or at the very start of the same one with a smaller id. */
  lemma {:induction false} SeparatedMeans(a: Run, b: Run)
    requires Less(b.updatedAt, b.id, a.updatedAt, a.id)
    ensures Separated(a, b) <==>
      b.updatedAt / SECOND < a.updatedAt / SECOND || (b.updatedAt % SECOND == 0 && b.id < a.id)
  {
  }

  /** Two runs of one second: paged one by one, the second is never shown. */
  lemma {:induction false} SameSecondIsLost(projectId: Id, p: Projection)
    ensures var newer, older := Run(2, projectId, 1_500_000, p), Run(1, projectId, 1_200_000, p);
      var q := Query(projectId, None, Some(1));
      Descending([newer, older]) && Select([newer, older], q, None) == [newer, older] &&
      Follow([newer, older], q, None) == [newer]
  {
    var newer, older := Run(2, projectId, 1_500_000, p), Run(1, projectId, 1_200_000, p);
    var q := Query(projectId, None, Some(1));
    var rows := [newer, older];
    assert rows[1..] == [older] && [older][1..] == [];
    assert Select([older], q, None) == [older];
    assert Select(rows, q, None) == rows;
    FollowIs(rows, q, None);
    assert Rest([older], CursorOf(newer)) == [];
    assert Rest(rows, CursorOf(newer)) == [];
    assert rows[..1] == [newer];
    RestIsSuffix(rows, 1);
    assert FollowFrom(rows, 1) == [newer] + FollowFrom([], 1);
  }
}
