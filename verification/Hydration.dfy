/**
 Incremental hydration of a run in the browser: the event cache, the page loop and the
 sync state of src/services/run-surface.ts, against the pages listEvents serves from a
 journal that may grow between them (apps/api/src/production-service.ts).
*/
module Hydration {
  import opened Wrappers
  import opened Journal

  const PAGES := 64
  const PAGE_ROWS := 1_000

  // --------------------------------------------------------- contiguous events

  function Place(e: Event, s: seq<Event>): seq<Event> {
    if s == [] then [e]
    else if e.sequence <= s[0].sequence then [e] + s
    else [s[0]] + Place(e, s[1..])
  }

  /** The events by sequence number. */
  function SortEvents(s: seq<Event>): seq<Event> {
    if s == [] then [] else Place(s[0], SortEvents(s[1..]))
  }

  ghost predicate Ascending(s: seq<Event>) {
    forall i, k :: 0 <= i < k < |s| ==> s[i].sequence <= s[k].sequence
  }

  lemma {:induction false} PlaceKeeps(e: Event, s: seq<Event>)
    ensures multiset(Place(e, s)) == multiset(s) + multiset{e}
  {
    if s != [] {
      PlaceKeeps(e, s[1..]);
      assert s == [s[0]] + s[1..];
    }
  }

  lemma {:induction false} PlaceAscends(e: Event, s: seq<Event>)
    requires Ascending(s)
    ensures Ascending(Place(e, s))
    ensures forall i :: 0 <= i < |Place(e, s)| ==> Place(e, s)[i] == e || Place(e, s)[i] in s
  {
    if s != [] && e.sequence > s[0].sequence {
      var tail := Place(e, s[1..]);
      PlaceAscends(e, s[1..]);
      forall i | 0 <= i < |tail| ensures s[0].sequence <= tail[i].sequence && (tail[i] == e || tail[i] in s) {
        if tail[i] != e { assert tail[i] in s[1..]; }
      }
    }
  }

  lemma {:induction false} SortFacts(s: seq<Event>)
    ensures Ascending(SortEvents(s)) && multiset(SortEvents(s)) == multiset(s)
  {
    if s != [] {
      SortFacts(s[1..]);
      assert s == [s[0]] + s[1..];
      PlaceKeeps(s[0], SortEvents(s[1..]));
      PlaceAscends(s[0], SortEvents(s[1..]));
    }
  }

  lemma {:induction false} SortSorted(s: seq<Event>)
    requires Ascending(s)
    ensures SortEvents(s) == s
  {
    if s != [] {
      SortSorted(s[1..]);
    }
  }

  predicate Present(events: seq<Event>, n: int) {
    exists i :: 0 <= i < |events| && events[i].sequence == n
  }

  /** The events 1..n are all there, and n + 1 is not. */
  predicate LongestRun(events: seq<Event>, n: nat) {
    (forall k :: 1 <= k <= n ==> Present(events, k)) && !Present(events, n + 1)
  }

  lemma {:induction false} LongestRunUnique(events: seq<Event>, n: nat, m: nat)
    requires LongestRun(events, n) && LongestRun(events, m)
    ensures n == m
  {
    assert n + 1 <= m ==> Present(events, n + 1);
    assert m + 1 <= n ==> Present(events, m + 1);
  }

  /** contiguousEventSequence: for any events, in any order, with gaps and repeats. */
  method ContiguousEventSequence(events: seq<Event>) returns (n: nat)
    ensures LongestRun(events, n)
  {
    var sorted := SortEvents(events);
    SortFacts(events);
    var expected := 1;
    var i := 0;
    while i < |sorted|
      invariant 0 <= i <= |sorted| && expected >= 1
      invariant forall k :: 1 <= k < expected ==> Present(sorted, k)
      invariant forall k :: 0 <= k < i ==> sorted[k].sequence < expected
    {
      var sequence := sorted[i].sequence;
      if sequence >= expected {
        if sequence != expected { break; }
        assert Present(sorted, expected);
        expected := expected + 1;
      }
      i := i + 1;
    }
    n := expected - 1;
    assert !Present(sorted, expected);
    SamePresent(events, sorted);
  }

  lemma {:induction false} SamePresent(s: seq<Event>, t: seq<Event>)
    requires multiset(s) == multiset(t)
    ensures forall n :: Present(s, n) <==> Present(t, n)
  {
    forall e ensures e in s <==> e in t {
      assert e in multiset(s) <==> e in multiset(t);
    }
    forall n ensures Present(s, n) <==> Present(t, n) {
      if Present(s, n) {
        var i :| 0 <= i < |s| && s[i].sequence == n;
        assert s[i] in t;
      }
      if Present(t, n) {
        var i :| 0 <= i < |t| && t[i].sequence == n;
        assert t[i] in s;
      }
    }
  }

  // -------------------------------------------------------------------- pages

  ghost predicate Numbered(j: seq<Event>) {
    forall i :: 0 <= i < |j| ==> j[i].sequence == i + 1
  }

  /** Every stored journal is numbered. */
  lemma {:induction false} StoredIsNumbered(j: seq<Event>)
    requires Fold(j).Some?
    ensures Numbered(j)
  {
    FoldFacts(j);
  }

  /** listEvents: at most a thousand rows with a larger sequence, in order. */
  function ServePage(j: seq<Event>, after: nat): (seq<Event>, nat) {
    var found := if after >= |j| then [] else j[after..Min(|j|, after + PAGE_ROWS)];
    (found, if found == [] then after else found[|found| - 1].sequence)
  }

  /** Map.set: the place of a key already set is kept. */
  function SetEvent(merged: seq<Event>, e: Event): seq<Event> {
    if e.sequence == 0 then merged
    else if exists i :: 0 <= i < |merged| && merged[i].sequence == e.sequence then Overwrite(merged, e)
    else merged + [e]
  }

  function Overwrite(merged: seq<Event>, e: Event): seq<Event> {
    seq(|merged|, i requires 0 <= i < |merged| => if merged[i].sequence == e.sequence then e else merged[i])
  }

  /** Merging one event: without a sequence it is ignored; one of its sequence is replaced
      where it is; otherwise it comes last. */
  lemma {:induction false} SetEventIs(merged: seq<Event>, e: Event)
    ensures e.sequence == 0 ==> SetEvent(merged, e) == merged
    ensures e.sequence > 0 ==> e in SetEvent(merged, e)
    ensures e.sequence > 0 && e.sequence !in Sequences(merged) ==> SetEvent(merged, e) == merged + [e]
    ensures e.sequence in Sequences(merged) ==> Sequences(SetEvent(merged, e)) == Sequences(merged)
    ensures forall i :: 0 <= i < |merged| && merged[i].sequence != e.sequence ==> SetEvent(merged, e)[i] == merged[i]
  {
    hide IsRecovery;
    if e.sequence > 0 && e.sequence in Sequences(merged) {
      var i :| 0 <= i < |merged| && Sequences(merged)[i] == e.sequence;
      assert merged[i].sequence == e.sequence;
      assert SetEvent(merged, e)[i] == e;
    } else if e.sequence > 0 {
      forall i | 0 <= i < |merged| ensures merged[i].sequence != e.sequence {
        assert Sequences(merged)[i] == merged[i].sequence;
      }
      assert (merged + [e])[|merged|] == e;
    }
  }

  function Sequences(events: seq<Event>): seq<nat> {
    seq(|events|, i requires 0 <= i < |events| => events[i].sequence)
  }

  /** The journals the 64 possible pages would be read from. */
  ghost predicate Growing(journals: seq<seq<Event>>) {
    |journals| == PAGES && (forall i, k :: 0 <= i <= k < PAGES ==> journals[i] <= journals[k]) &&
    (forall i :: 0 <= i < PAGES ==> Numbered(journals[i]))
  }

  /** What the rows of one page are. */
  lemma {:induction false} PageFacts(journals: seq<seq<Event>>, page: nat, cursor: nat)
    requires Growing(journals) && page < PAGES && cursor <= |journals[page]|
    ensures var (found, next) := ServePage(journals[page], cursor);
      next == cursor + |found| == Min(|journals[page]|, cursor + PAGE_ROWS) <= |Latest(journals)| &&
      found == Latest(journals)[cursor..next] && Numbered(Latest(journals)) &&
      (page + 1 < PAGES ==> |journals[page]| <= |journals[page + 1]|)
  {
    assert journals[page] <= Latest(journals);
    assert page + 1 < PAGES ==> journals[page] <= journals[page + 1];
    var next := Min(|journals[page]|, cursor + PAGE_ROWS);
    if next > cursor {
      assert journals[page][next - 1].sequence == next;
    }
  }

  /** How far the page loop gets. */
  function Reach(cursor: nat, page: nat, projection: nat, journals: seq<seq<Event>>): nat
    requires |journals| == PAGES
    decreases PAGES - page
  {
    if page >= PAGES || !(page == 0 || cursor < projection) then cursor
    else
      var next := Min(|journals[page]|, cursor + PAGE_ROWS);
      if next <= cursor then cursor
      else if next < cursor + PAGE_ROWS then next
      else Reach(next, page + 1, projection, journals)
  }

  function Latest(journals: seq<seq<Event>>): seq<Event>
    requires |journals| == PAGES
  {
    journals[PAGES - 1]
  }

  lemma {:induction false} ReachBounds(cursor: nat, page: nat, projection: nat, journals: seq<seq<Event>>)
    requires Growing(journals) && (page < PAGES ==> cursor <= |journals[page]|) && cursor <= |Latest(journals)|
    ensures cursor <= Reach(cursor, page, projection, journals) <= |Latest(journals)|
    decreases PAGES - page
  {
    if page < PAGES && (page == 0 || cursor < projection) {
      assert journals[page] <= Latest(journals);
      var next := Min(|journals[page]|, cursor + PAGE_ROWS);
      if next == cursor + PAGE_ROWS {
        assert page + 1 < PAGES ==> journals[page] <= journals[page + 1];
        ReachBounds(next, page + 1, projection, journals);
      }
    }
  }

  /** The result covers the projection that was read before if and only if the gap to it
      was at most the pages that were left, full. */
  lemma {:induction false} ReachCovers(cursor: nat, page: nat, projection: nat, journals: seq<seq<Event>>)
    requires Growing(journals) && page <= PAGES && (page < PAGES ==> cursor <= |journals[page]|)
    requires projection <= |journals[0]|
    ensures Reach(cursor, page, projection, journals) >= projection <==>
      projection <= cursor + (PAGES - page) * PAGE_ROWS
    decreases PAGES - page
  {
    if page < PAGES && (page == 0 || cursor < projection) {
      assert journals[0] <= journals[page];
      var next := Min(|journals[page]|, cursor + PAGE_ROWS);
      if next == cursor + PAGE_ROWS {
        assert page + 1 < PAGES ==> journals[page] <= journals[page + 1];
        ReachCovers(next, page + 1, projection, journals);
      }
    }
  }

  // ------------------------------------------------------------ one hydration

  /** The local variables of a hydration between two awaits; `start` is where its cursor
      began, `open` whether the loop asks for another page. */
  datatype Flight = Flight(projection: nat, start: nat, merged: seq<Event>, cursor: nat, page: nat, open: bool)

  function LastSequence(events: seq<Event>): nat {
    if events == [] then 0 else events[|events| - 1].sequence
  }

  /** The cache is used when its contiguous events are all of it. */
  function Usable(cached: seq<Event>): seq<Event> {
    if LongestRun(cached, LastSequence(cached)) then cached else []
  }

  /** From the capture of the cache to the first await. */
  function Begun(cached: seq<Event>, projection: nat): Flight {
    var cursor := if Usable(cached) != [] then LastSequence(cached) else 0;
    Flight(projection, cursor, Usable(cached), cursor, 0, true)
  }

  /** A cached list with a gap below its last event is not used at all. */
  lemma {:induction false} GappedCacheIsDropped(cached: seq<Event>, projection: nat, k: nat)
    requires 1 <= k <= LastSequence(cached) && !Present(cached, k)
    ensures Begun(cached, projection) == Flight(projection, 0, [], 0, 0, true)
  {
  }

  function MergeAll(merged: seq<Event>, page: seq<Event>): seq<Event> {
    if page == [] then merged else SetEvent(MergeAll(merged, page[..|page| - 1]), page[|page| - 1])
  }

  /** What one page, served from the journal j, does. */
  function NextPage(f: Flight, j: seq<Event>): Flight {
    var (found, next) := ServePage(j, f.cursor);
    var g := f.(merged := MergeAll(f.merged, found));
    if next <= f.cursor then g.(open := false)
    else if |found| < PAGE_ROWS then g.(cursor := next, open := false)
    else g.(cursor := next, page := f.page + 1, open := f.page + 1 < PAGES && next < f.projection)
  }

  lemma {:induction false} MergePrefix(j: seq<Event>, cursor: nat, next: nat)
    requires Numbered(j) && cursor <= next <= |j|
    ensures MergeAll(j[..cursor], j[cursor..next]) == j[..next]
    decreases next
  {
    var found := j[cursor..next];
    if found != [] {
      MergePrefix(j, cursor, next - 1);
      assert found[..|found| - 1] == j[cursor..next - 1];
      assert found[|found| - 1] == j[next - 1];
    }
  }

  /** What a page does to a flight that holds a prefix of the journal. */
  lemma {:induction false} NextPageIs(f: Flight, j: seq<Event>, later: seq<Event>)
    requires Numbered(later) && j <= later && f.cursor <= |j| && f.merged == later[..f.cursor]
    ensures var g := NextPage(f, j); var next := Min(|j|, f.cursor + PAGE_ROWS);
      g.cursor == next && g.merged == later[..next] && g.projection == f.projection && g.start == f.start &&
      (next < f.cursor + PAGE_ROWS ==> !g.open && g.page == f.page) &&
      (next == f.cursor + PAGE_ROWS ==> g.page == f.page + 1 && (g.open <==> f.page + 1 < PAGES && next < f.projection))
  {
    hide MergeAll, ServePage, Numbered;
    ServedFrom(j, later, f.cursor);
    MergePrefix(later, f.cursor, Min(|j|, f.cursor + PAGE_ROWS));
  }

  lemma {:induction false} ServedFrom(j: seq<Event>, later: seq<Event>, cursor: nat)
    requires Numbered(later) && j <= later && cursor <= |j|
    ensures var next := Min(|j|, cursor + PAGE_ROWS); ServePage(j, cursor) == (later[cursor..next], next)
  {
    var next := Min(|j|, cursor + PAGE_ROWS);
    if next > cursor {
      assert j[next - 1] == later[next - 1] && later[next - 1].sequence == next;
      assert j[cursor..next] == later[cursor..next];
      assert later[cursor..next][next - cursor - 1] == later[next - 1];
    } else {
      assert later[cursor..next] == [];
    }
  }

  lemma {:induction false} BegunFromPrefix(cached: seq<Event>, j: seq<Event>, projection: nat)
    requires Numbered(j) && cached <= j
    ensures Begun(cached, projection) == Flight(projection, |cached|, cached, |cached|, 0, true)
  {
    PrefixRun(cached, j);
    assert cached != [] ==> cached[|cached| - 1] == j[|cached| - 1];
  }

  // --------------------------------------------------------------------- cache

  datatype Sync = Sync(current: bool, projectionSequence: nat, eventSequence: nat)

  class SurfaceServices {
    var eventsByRun: map<Id, seq<Event>>

    constructor ()
      ensures eventsByRun == map[]
    {
      eventsByRun := map[];
    }

    function Cached(runId: Id): seq<Event>
      reads this
    {
      if runId in eventsByRun then eventsByRun[runId] else []
    }

    /** hydrateRun up to its first page: the cache is captured. */
    method BeginHydration(runId: Id, projection: nat) returns (f: Flight)
      ensures f == Begun(Cached(runId), projection)
    {
      var cached := Cached(runId);
      var cachedContiguous := ContiguousEventSequence(cached);
      var cachedLast := LastSequence(cached);
      if LongestRun(cached, cachedLast) { LongestRunUnique(cached, cachedContiguous, cachedLast); }
      var usableCache := if cachedContiguous == cachedLast then cached else [];
      var cursor := if usableCache != [] then cachedContiguous else 0;
      f := Flight(projection, cursor, usableCache, cursor, 0, true);
    }

    /** One turn of the page loop, after its await. */
    static method OnPage(f: Flight, j: seq<Event>) returns (g: Flight)
      ensures g == NextPage(f, j)
    {
      var (pageEvents, nextAfter) := ServePage(j, f.cursor);
      var merged := f.merged;
      for i := 0 to |pageEvents|
        invariant merged == MergeAll(f.merged, pageEvents[..i])
      {
        assert pageEvents[..i + 1][..i] == pageEvents[..i];
        merged := SetEvent(merged, pageEvents[i]);
      }
      assert pageEvents[..|pageEvents|] == pageEvents;
      g := f.(merged := merged);
      if nextAfter <= f.cursor { return g.(open := false); }
      g := g.(cursor := nextAfter);
      if |pageEvents| < PAGE_ROWS { return g.(open := false); }
      g := g.(page := f.page + 1, open := f.page + 1 < PAGES && nextAfter < f.projection);
    }

    /** The end of hydrateRun: the cache is written, whatever it holds by then. */
    method FinishHydration(runId: Id, f: Flight) returns (events: seq<Event>, sync: Sync)
      modifies this
      ensures events == SortEvents(f.merged) && eventsByRun == old(eventsByRun)[runId := events]
      ensures LongestRun(events, sync.eventSequence) && sync.projectionSequence == f.projection
      ensures sync.current <==> sync.eventSequence == f.projection
    {
      events := SortEvents(f.merged);
      eventsByRun := eventsByRun[runId := events];
      var eventSequence := ContiguousEventSequence(events);
      sync := Sync(eventSequence == f.projection, f.projection, eventSequence);
    }

    /** hydrateRun with no other hydration of the run beside it: the run was projected at
        `projection` when it was read, and page k is served from journals[k]. */
    method HydrateRun(runId: Id, projection: nat, journals: seq<seq<Event>>) returns (events: seq<Event>, sync: Sync)
      requires Growing(journals) && Cached(runId) <= journals[0]
      modifies this
      ensures Reach(|old(Cached(runId))|, 0, projection, journals) <= |Latest(journals)|
      ensures events == Latest(journals)[..Reach(|old(Cached(runId))|, 0, projection, journals)]
      ensures eventsByRun == old(eventsByRun)[runId := events]
      ensures sync == Sync(|events| == projection, projection, |events|)
    {
      hide Growing, NextPage, Reach;
      PageOf(journals, 0);
      var cached := Cached(runId);
      BegunFromPrefix(cached, Latest(journals), projection);
      var f := BeginHydration(runId, projection);
      ReachBounds(|cached|, 0, projection, journals);
      while f.open
        invariant f.cursor <= |Latest(journals)| && f.merged == Latest(journals)[..f.cursor]
        invariant f.projection == projection && eventsByRun == old(eventsByRun)
        invariant f.open ==> f.page < PAGES && f.cursor <= |journals[f.page]| && (f.page == 0 || f.cursor < projection)
        invariant Reach(|cached|, 0, projection, journals) ==
          if f.open then Reach(f.cursor, f.page, projection, journals) else f.cursor
        decreases if f.open then PAGES - f.page else 0
      {
        PageOf(journals, f.page);
        NextPageIs(f, journals[f.page], Latest(journals));
        ReachTurn(f, journals);
        f := OnPage(f, journals[f.page]);
      }
      events, sync := FinishHydration(runId, f);
      PrefixAscends(Latest(journals), f.cursor);
      SortSorted(f.merged);
      PrefixRun(events, Latest(journals));
      LongestRunUnique(events, sync.eventSequence, |events|);
    }
  }

  lemma {:induction false} PageOf(journals: seq<seq<Event>>, page: nat)
    requires Growing(journals) && page < PAGES
    ensures |journals| == PAGES && journals[0] <= Latest(journals) && journals[page] <= Latest(journals)
    ensures Numbered(Latest(journals)) && (page + 1 < PAGES ==> |journals[page]| <= |journals[page + 1]|)
  {
    assert page + 1 < PAGES ==> journals[page] <= journals[page + 1];
  }

  /** The loop's turn is the turn of Reach. */
  lemma {:induction false} ReachTurn(f: Flight, journals: seq<seq<Event>>)
    requires Growing(journals) && f.open && f.page < PAGES && f.cursor <= |journals[f.page]|
    requires f.page == 0 || f.cursor < f.projection
    requires var g := NextPage(f, journals[f.page]); var next := Min(|journals[f.page]|, f.cursor + PAGE_ROWS);
      g.cursor == next && (next < f.cursor + PAGE_ROWS ==> !g.open) &&
      (next == f.cursor + PAGE_ROWS ==> g.page == f.page + 1 && (g.open <==> f.page + 1 < PAGES && next < f.projection))
    ensures var g := NextPage(f, journals[f.page]);
      Reach(f.cursor, f.page, f.projection, journals) ==
        if g.open then Reach(g.cursor, g.page, f.projection, journals) else g.cursor
  {
    hide NextPage;
  }

  lemma {:induction false} PrefixRun(events: seq<Event>, j: seq<Event>)
    requires Numbered(j) && events <= j
    ensures LongestRun(events, |events|)
  {
    forall k | 1 <= k <= |events| ensures Present(events, k) {
      assert events[k - 1].sequence == k;
    }
    forall i | 0 <= i < |events| ensures events[i].sequence != |events| + 1 {
      assert events[i] == j[i];
    }
  }

  lemma {:induction false} PrefixAscends(j: seq<Event>, n: nat)
    requires Numbered(j) && n <= |j|
    ensures Ascending(j[..n])
  {
  }

  // ----------------------------------------------------------------- theorems

  /** What a hydration leaves in the cache. */
  function Hydrated(cache: seq<Event>, projection: nat, journals: seq<seq<Event>>): seq<Event>
    requires |journals| == PAGES
  {
    Latest(journals)[..Min(|Latest(journals)|, Reach(|cache|, 0, projection, journals))]
  }

  function Constant(j: seq<Event>): seq<seq<Event>> { seq(PAGES, i => j) }

  lemma {:induction false} ReachConstant(cursor: nat, page: nat, j: seq<Event>)
    requires cursor <= |j| && page <= PAGES
    ensures Reach(cursor, page, |j|, Constant(j)) == Min(|j|, cursor + (PAGES - page) * PAGE_ROWS)
    decreases PAGES - page
  {
    if page < PAGES && (page == 0 || cursor < |j|) && cursor + PAGE_ROWS <= |j| {
      ReachConstant(cursor + PAGE_ROWS, page + 1, j);
    }
  }

  /** With nothing appended meanwhile, the incremental result equals a full reload exactly
      when the journal fits into 64 pages or nothing was cached; otherwise it is longer. */
  lemma {:induction false} IncrementalEqualsReload(j: seq<Event>, cached: nat)
    requires cached <= |j|
    ensures Hydrated(j[..cached], |j|, Constant(j)) == Hydrated([], |j|, Constant(j)) <==>
      |j| <= PAGES * PAGE_ROWS || cached == 0
    ensures |j| <= PAGES * PAGE_ROWS ==> Hydrated(j[..cached], |j|, Constant(j)) == j
    ensures Hydrated([], |j|, Constant(j)) <= Hydrated(j[..cached], |j|, Constant(j)) <= j
  {
    ReachConstant(cached, 0, j);
    ReachConstant(0, 0, j);
    hide Reach;
    assert |j[..cached]| == cached;
    var more, less := Hydrated(j[..cached], |j|, Constant(j)), Hydrated([], |j|, Constant(j));
    assert |more| == Min(|j|, cached + PAGES * PAGE_ROWS) && |less| == Min(|j|, PAGES * PAGE_ROWS);
  }

  /** One hydration: the run is read, then the pages. */
  datatype Visit = Visit(projection: nat, journals: seq<seq<Event>>)

  function CacheAfter(cache: seq<Event>, visits: seq<Visit>): seq<Event>
    requires forall v :: v in visits ==> |v.journals| == PAGES
    decreases |visits|
  {
    if visits == [] then cache
    else CacheAfter(Hydrated(cache, visits[0].projection, visits[0].journals), visits[1..])
  }

  /** The journal only grows from page to page and from visit to visit. */
  ghost predicate Timeline(j: seq<Event>, visits: seq<Visit>)
    decreases |visits|
  {
    visits == [] ||
    (Growing(visits[0].journals) && j <= visits[0].journals[0] && Timeline(Latest(visits[0].journals), visits[1..]))
  }

  lemma {:induction false} TimelineSized(j: seq<Event>, visits: seq<Visit>)
    requires Timeline(j, visits)
    ensures forall v :: v in visits ==> |v.journals| == PAGES
    decreases |visits|
  {
    if visits != [] {
      TimelineSized(Latest(visits[0].journals), visits[1..]);
    }
  }

  /** Over any number of hydrations one after another, of a growing journal, the cache stays
      a prefix of the journal, never shrinks, and covers the last projection if its gap was
      small enough. Overlapping ones are the subject of HydrationRuns. */
  lemma {:induction false} CacheStaysPrefix(j: seq<Event>, cache: seq<Event>, visits: seq<Visit>)
    requires Timeline(j, visits) && cache <= j && visits != []
    ensures forall v :: v in visits ==> |v.journals| == PAGES
    ensures var last := visits[|visits| - 1];
      CacheAfter(cache, visits) <= Latest(last.journals) && |cache| <= |CacheAfter(cache, visits)| &&
      (last.projection <= |last.journals[0]| &&
       last.projection <= |CacheAfter(cache, visits[..|visits| - 1])| + PAGES * PAGE_ROWS
       ==> last.projection <= |CacheAfter(cache, visits)|)
    decreases |visits|
  {
    hide Reach;
    TimelineSized(j, visits);
    var v := visits[0];
    ReachBounds(|cache|, 0, v.projection, v.journals);
    var next := Hydrated(cache, v.projection, v.journals);
    if |visits| == 1 {
      assert visits[..0] == [];
      assert CacheAfter(cache, visits) == next;
      if v.projection <= |v.journals[0]| && v.projection <= |cache| + PAGES * PAGE_ROWS {
        ReachCovers(|cache|, 0, v.projection, v.journals);
      }
    } else {
      var rest := visits[1..];
      assert visits[..|visits| - 1][1..] == rest[..|rest| - 1];
      CacheStaysPrefix(Latest(v.journals), next, rest);
    }
  }
}
