/**
 Overlapping hydrations of one run (src/services/run-surface.ts): each captures the cache,
 reads its pages and writes the cache at its end, in any interleaving with the others
 and with a growing journal.
*/
module HydrationRuns {
  import opened Wrappers
  import opened Journal
  import opened Hydration

  datatype World = World(journal: seq<Event>, cache: seq<Event>, flights: map<nat, Flight>)

  datatype Step =
    | Grow(journal: seq<Event>)
    | Begin(id: nat, projection: nat)
    | Page(id: nat)
    | Finish(id: nat)
    | Fail(id: nat)

  function Next(w: World, step: Step): World {
    match step
    case Grow(j) => w.(journal := j)
    case Begin(id, projection) =>
      if id in w.flights then w else w.(flights := w.flights[id := Begun(w.cache, projection)])
    case Page(id) =>
      if id in w.flights && w.flights[id].open
      then w.(flights := w.flights[id := NextPage(w.flights[id], w.journal)]) else w
    case Finish(id) =>
      if id in w.flights && !w.flights[id].open
      then w.(cache := SortEvents(w.flights[id].merged), flights := w.flights - {id}) else w
    case Fail(id) => w.(flights := w.flights - {id})
  }

  /** The journal only grows, and a hydration begins with a projection that was read before. */
  ghost predicate Allowed(w: World, step: Step) {
    match step
    case Grow(j) => w.journal <= j && Numbered(j)
    case Begin(_, projection) => projection <= |w.journal|
    case _ => true
  }

  ghost predicate AllAllowed(w: World, steps: seq<Step>)
    decreases |steps|
  {
    steps == [] || (Allowed(w, steps[0]) && AllAllowed(Next(w, steps[0]), steps[1..]))
  }

  function After(w: World, steps: seq<Step>): World
    decreases |steps|
  {
    if steps == [] then w else After(Next(w, steps[0]), steps[1..])
  }

  const Start := World([], [], map[])

  /** A flight holds a journal prefix; while open it has read whole pages only, and once
      closed it covers its projection exactly when the gap was at most 64 pages. */
  ghost predicate FlightOk(j: seq<Event>, f: Flight) {
    f.start <= f.cursor <= |j| && f.merged == j[..f.cursor] && f.projection <= |j| &&
    if f.open
    then f.page < PAGES && f.cursor == f.start + f.page * PAGE_ROWS && (f.page == 0 || f.cursor < f.projection)
    else (f.projection <= f.cursor <==> f.projection <= f.start + PAGES * PAGE_ROWS)
  }

  ghost predicate WorldOk(w: World) {
    Numbered(w.journal) && w.cache <= w.journal && forall id :: id in w.flights ==> FlightOk(w.journal, w.flights[id])
  }

  lemma {:induction false} PageKeeps(j: seq<Event>, f: Flight)
    requires Numbered(j) && FlightOk(j, f) && f.open
    ensures FlightOk(j, NextPage(f, j))
  {
    NextPageIs(f, j, j);
    hide NextPage;
  }

  lemma {:induction false} Sorted(j: seq<Event>, f: Flight)
    requires Numbered(j) && FlightOk(j, f)
    ensures SortEvents(f.merged) == f.merged == j[..f.cursor]
  {
    PrefixAscends(j, f.cursor);
    SortSorted(f.merged);
  }

  lemma {:induction false} WorldStep(w: World, step: Step)
    requires WorldOk(w) && Allowed(w, step)
    ensures WorldOk(Next(w, step))
  {
    hide NextPage, Begun, SortEvents;
    match step {
      case Begin(id, projection) => BegunFromPrefix(w.cache, w.journal, projection);
      case Page(id) => if id in w.flights && w.flights[id].open { PageKeeps(w.journal, w.flights[id]); }
      case Finish(id) => if id in w.flights { Sorted(w.journal, w.flights[id]); }
      case _ =>
    }
  }

  lemma {:induction false} WorldRun(w: World, steps: seq<Step>)
    requires WorldOk(w) && AllAllowed(w, steps)
    ensures WorldOk(After(w, steps))
    decreases |steps|
  {
    hide WorldOk, Next, Allowed;
    if steps != [] {
      WorldStep(w, steps[0]);
      WorldRun(Next(w, steps[0]), steps[1..]);
    }
  }

  /** In every interleaving of hydrations, page answers, failures and appends the cache is a
      prefix of the journal, and a hydration that ends covers the projection it began with
      if and only if the gap to it was at most 64 full pages. */
  lemma {:induction false} InterleavedIsPrefix(steps: seq<Step>, id: nat)
    requires AllAllowed(Start, steps)
    ensures var w := After(Start, steps);
      w.cache <= w.journal &&
      (id in w.flights && !w.flights[id].open ==>
        var f := w.flights[id]; var cache := Next(w, Finish(id)).cache;
        cache <= w.journal && |cache| == f.cursor >= f.start &&
        (f.projection <= |cache| <==> f.projection <= f.start + PAGES * PAGE_ROWS))
  {
    hide Next, Allowed;
    WorldRun(Start, steps);
    var w := After(Start, steps);
    if id in w.flights && !w.flights[id].open {
      Ends(w, id);
    }
  }

  lemma {:induction false} Ends(w: World, id: nat)
    requires WorldOk(w) && id in w.flights && !w.flights[id].open
    ensures Next(w, Finish(id)).cache == w.journal[..w.flights[id].cursor]
  {
    hide SortEvents;
    Sorted(w.journal, w.flights[id]);
  }

  /** A hydration ends once: when it has written the cache it is gone. */
  lemma {:induction false} EndsOnce(w: World, id: nat)
    requires id in w.flights && !w.flights[id].open
    ensures var t := Next(w, Finish(id));
      t.cache == SortEvents(w.flights[id].merged) && id !in t.flights && Next(t, Finish(id)) == t
  {
  }

  /** Ending keeps everything that was cached exactly when the result is at least as long as
      the cache it overwrites; a shorter result drops the rest. */
  lemma {:induction false} FinishKeepsIff(steps: seq<Step>, id: nat)
    requires AllAllowed(Start, steps)
    requires var w := After(Start, steps); id in w.flights && !w.flights[id].open
    ensures var w := After(Start, steps);
      w.cache <= Next(w, Finish(id)).cache <==> |w.cache| <= w.flights[id].cursor
    ensures var w := After(Start, steps);
      Next(w, Finish(id)).cache <= w.cache <==> w.flights[id].cursor <= |w.cache|
  {
    hide Next, Allowed;
    WorldRun(Start, steps);
    var w := After(Start, steps);
    Ends(w, id);
    assert w.cache == w.journal[..|w.cache|];
  }

  // -------------------------------------------------------- who can shorten it

  /** No hydration ends, and this one does not fail. */
  predicate Alone(steps: seq<Step>, id: nat) {
    forall i :: 0 <= i < |steps| ==> !steps[i].Finish? && steps[i] != Fail(id)
  }

  /** What a hydration began with is what it will be compared with, until another ends. */
  lemma {:induction false} CacheUntouched(w: World, steps: seq<Step>, id: nat)
    requires WorldOk(w) && AllAllowed(w, steps) && id in w.flights
    requires Alone(steps, id)
    ensures After(w, steps).cache == w.cache
    ensures id in After(w, steps).flights && After(w, steps).flights[id].start == w.flights[id].start
    decreases |steps|
  {
    hide Next, WorldOk, Allowed;
    if steps != [] {
      WorldStep(w, steps[0]);
      StartKept(w, steps[0], id);
      CacheUntouched(Next(w, steps[0]), steps[1..], id);
    }
  }

  lemma {:induction false} StartKept(w: World, step: Step, id: nat)
    requires WorldOk(w) && !step.Finish? && id in w.flights
    ensures Next(w, step).cache == w.cache
    ensures step != Fail(id) ==> id in Next(w, step).flights && Next(w, step).flights[id].start == w.flights[id].start
    ensures step == Fail(id) ==> id !in Next(w, step).flights
  {
    hide Begun, SortEvents;
  }

  /** A hydration never shortens the cache unless another one ended after it began. */
  lemma {:induction false} UndisturbedNeverShrinks(before: seq<Step>, id: nat, projection: nat, between: seq<Step>)
    requires AllAllowed(Start, before) && id !in After(Start, before).flights
    requires Allowed(After(Start, before), Begin(id, projection))
    requires AllAllowed(Next(After(Start, before), Begin(id, projection)), between)
    requires Alone(between, id)
    ensures var w := After(Next(After(Start, before), Begin(id, projection)), between);
      id in w.flights && !w.flights[id].open ==> w.cache <= Next(w, Finish(id)).cache
  {
    hide Next, Allowed, AllAllowed, WorldOk;
    assert WorldOk(Start) by { StartOk(); }
    WorldRun(Start, before);
    var v := After(Start, before);
    WorldStep(v, Begin(id, projection));
    var u := Next(v, Begin(id, projection));
    BeginsAt(v, id, projection);
    WorldRun(u, between);
    CacheUntouched(u, between, id);
    var w := After(u, between);
    if id in w.flights && !w.flights[id].open {
      LongEnough(w, id);
    }
  }

  lemma {:induction false} StartOk()
    ensures WorldOk(Start)
  {
  }

  lemma {:induction false} BeginsAt(w: World, id: nat, projection: nat)
    requires WorldOk(w) && id !in w.flights
    ensures var t := Next(w, Begin(id, projection));
      id in t.flights && t.flights[id].start == |w.cache| && t.cache == w.cache
  {
    hide Begun, FlightOk;
    BegunFromPrefix(w.cache, w.journal, projection);
  }

  lemma {:induction false} LongEnough(w: World, id: nat)
    requires WorldOk(w) && id in w.flights && !w.flights[id].open && w.flights[id].start == |w.cache|
    ensures w.cache <= Next(w, Finish(id)).cache
  {
    hide Next;
    Ends(w, id);
    assert FlightOk(w.journal, w.flights[id]);
    assert w.cache == w.journal[..|w.cache|];
  }

  /** Two hydrations that overlap: the second begins and ends after the first has read its
      only page; the first then writes its shorter result over the longer cache. */
  function Overlap(first: Event, second: Event): seq<Step> {
    [Grow([first]), Begin(1, 1), Page(1), Grow([first, second]), Begin(2, 2), Page(2), Finish(2)]
  }

  lemma {:induction false} OverlapShrinks(first: Event, second: Event)
    requires first.sequence == 1 && second.sequence == 2
    ensures var w := After(Start, Overlap(first, second));
      AllAllowed(Start, Overlap(first, second)) && w.cache == [first, second] &&
      1 in w.flights && !w.flights[1].open && Next(w, Finish(1)).cache == [first]
  {
    hide NextPage, Begun, SortEvents;
    var steps := Overlap(first, second);
    var j, k := [first], [first, second];
    var w1 := Next(Start, steps[0]);
    var w2 := Next(w1, steps[1]);
    BegunFromPrefix([], j, 1);
    var w3 := Next(w2, steps[2]);
    NextPageIs(w2.flights[1], j, j);
    var w4 := Next(w3, steps[3]);
    var w5 := Next(w4, steps[4]);
    BegunFromPrefix([], k, 2);
    var w6 := Next(w5, steps[5]);
    NextPageIs(w5.flights[2], k, k);
    assert k[..2] == k && j[..1] == j;
    SortSorted(k);
    SortSorted(j);
    var w7 := Next(w6, steps[6]);
    assert w7.cache == k && w7.flights[1].merged == j;
    SevenSteps(Start, steps);
  }

  lemma {:induction false} SevenSteps(w: World, s: seq<Step>)
    requires |s| == 7
    ensures After(w, s) ==
      Next(Next(Next(Next(Next(Next(Next(w, s[0]), s[1]), s[2]), s[3]), s[4]), s[5]), s[6])
    ensures AllAllowed(w, s) <==>
      var a := Next(w, s[0]); var b := Next(a, s[1]); var c := Next(b, s[2]); var d := Next(c, s[3]);
      var e := Next(d, s[4]); var f := Next(e, s[5]);
      Allowed(w, s[0]) && Allowed(a, s[1]) && Allowed(b, s[2]) && Allowed(c, s[3]) && Allowed(d, s[4]) &&
      Allowed(e, s[5]) && Allowed(f, s[6])
  {
    hide Next, Allowed;
    FirstStep(w, s);
    FirstStep(Next(w, s[0]), s[1..]);
    var b := Next(Next(w, s[0]), s[1]);
    FirstStep(b, s[2..]);
    var c := Next(b, s[2]);
    FirstStep(c, s[3..]);
    var d := Next(c, s[3]);
    FirstStep(d, s[4..]);
    var e := Next(d, s[4]);
    FirstStep(e, s[5..]);
    FirstStep(Next(e, s[5]), s[6..]);
    assert s[1..][1..] == s[2..] && s[2..][1..] == s[3..] && s[3..][1..] == s[4..];
    assert s[4..][1..] == s[5..] && s[5..][1..] == s[6..] && s[6..][1..] == [];
  }

  lemma {:induction false} FirstStep(w: World, s: seq<Step>)
    requires s != []
    ensures After(w, s) == After(Next(w, s[0]), s[1..])
    ensures AllAllowed(w, s) <==> Allowed(w, s[0]) && AllAllowed(Next(w, s[0]), s[1..])
  {
  }
}
