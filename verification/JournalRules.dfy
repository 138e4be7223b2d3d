/**
 The rules of the journal, stated on the events themselves: what may follow a journal, when
 two events are one effect, and what the projection of a journal shows. The projector and
 the append rule of packages/domain/src/run-lifecycle.ts are proved to keep exactly these.
*/
module JournalRules {
  import opened Wrappers
  import opened Journal

  // ------------------------------------------------------------- what may follow

  /** The milestones in their order. */
  predicate Nth(m: Milestone, n: int) {
    match m
    case RunCreated(_) => n == 0
    case PreflightAccepted(_) => n == 1
    case RequestSubmitted(_, _) => n == 2
    case RoundFinalized(_) => n == 3
    case ProofAvailable(_) => n == 4
    case ProofVerified(_) => n == 5
    case ConsumerVerified(_) => n == 6
  }

  predicate Recovers(e: Event) { e.body.Waiting? || e.body.RetryScheduled? || e.body.Resumed? }

  predicate Finishes(e: Event) { e.body.Failed? || (e.body.Reached? && Nth(e.body.milestone, 6)) }

  /** How many events are milestones or a failure. */
  function Count(j: seq<Event>): nat {
    if j == [] then 0 else Count(Front(j)) + (if Recovers(Last(j)) then 0 else 1)
  }

  /** At k the source waits or is to be retried, and since then nothing of it and no milestone
      has been recorded. */
  predicate OpenHalt(j: seq<Event>, k: int, source: Source) {
    0 <= k < |j| && j[k].source == source && (j[k].body.Waiting? || j[k].body.RetryScheduled?) &&
    forall m :: k < m < |j| ==> Recovers(j[m]) && j[m].source != source
  }

  predicate Answers(e: Event, halt: Event)
    requires Recovers(e) && Recovers(halt)
  {
    halt.body.attempt < e.body.attempt && e.body.stage == halt.body.stage && e.body.resumeFrom == halt.body.resumeFrom
  }

  /** What a projectable journal can go on with: the next number, the same run, nothing after
      an end; the next milestone or a failure, or a recovery event whose attempt is not behind
      and that, if it resumes, answers an open halt of its source. */
  ghost predicate MayFollow(j: seq<Event>, e: Event) {
    e.sequence == |j| + 1 && (forall i :: 0 <= i < |j| ==> j[i].runId == e.runId && !Finishes(j[i])) &&
    if Recovers(e) then
      j != [] &&
      (forall i :: 0 <= i < |j| && Recovers(j[i]) && j[i].source == e.source ==> j[i].body.attempt <= e.body.attempt) &&
      (e.body.Resumed? ==> exists k :: OpenHalt(j, k, e.source) && Answers(e, j[k]))
    else e.body.Reached? ==> Nth(e.body.milestone, Count(j))
  }

  lemma {:induction false} NthIsRank(m: Milestone, n: nat)
    ensures Nth(m, n) <==> Rank(m) == n
  {
  }

  lemma {:induction false} FinishesIs(e: Event)
    ensures Finishes(e) <==> Ends(e)
  {
  }

  /** What the projector holds after a journal. */
  ghost predicate Holds(p: Projector, j: seq<Event>) {
    |p.lifecycle| == Count(j) &&
    (forall i :: 0 <= i < |j| && Recovers(j[i]) ==>
      j[i].source in p.attempts && j[i].body.attempt <= p.attempts[j[i].source]) &&
    (forall s :: s in p.attempts ==> exists i ::
      0 <= i < |j| && Recovers(j[i]) && j[i].source == s && j[i].body.attempt == p.attempts[s]) &&
    (forall s :: s in p.unresolved ==> exists k :: OpenHalt(j, k, s) && j[k] == p.unresolved[s]) &&
    (forall s, k :: OpenHalt(j, k, s) ==> s in p.unresolved && p.unresolved[s] == j[k])
  }

  lemma {:induction false} FoldHolds(j: seq<Event>)
    requires Fold(j).Some?
    ensures Holds(Fold(j).value, j)
  {
    if j != [] {
      FoldHolds(Front(j));
      AdvanceHolds(Fold(Front(j)).value, Front(j), Last(j));
      assert Front(j) + [Last(j)] == j;
    }
  }

  lemma {:induction false} AdvanceHolds(p: Projector, j: seq<Event>, e: Event)
    requires Holds(p, j) && Advance(p, e, |j|).Some?
    ensures Holds(Advance(p, e, |j|).value, j + [e])
  {
    FrontLast(j, e);
    var q, k := Advance(p, e, |j|).value, j + [e];
    forall s, i ensures OpenHalt(k, i, s) <==>
      if i == |j| then s == e.source && (e.body.Waiting? || e.body.RetryScheduled?)
      else OpenHalt(j, i, s) && Recovers(e) && e.source != s
    {
      OpenHaltAfter(j, e, i, s);
    }
    AttemptsHold(p, j, e);
    UnresolvedHolds(p, j, e);
  }

  lemma {:induction false} OpenHaltAfter(j: seq<Event>, e: Event, i: int, s: Source)
    ensures OpenHalt(j + [e], i, s) <==>
      if i == |j| then s == e.source && (e.body.Waiting? || e.body.RetryScheduled?)
      else OpenHalt(j, i, s) && Recovers(e) && e.source != s
  {
    var k := j + [e];
    if 0 <= i < |j| {
      if OpenHalt(k, i, s) {
        forall m | i < m < |j| ensures Recovers(j[m]) && j[m].source != s { assert k[m] == j[m]; }
        assert k[|j|] == e;
      }
      if OpenHalt(j, i, s) && Recovers(e) && e.source != s {
        forall m | i < m < |k| ensures Recovers(k[m]) && k[m].source != s { assert m < |j| ==> k[m] == j[m]; }
      }
    }
  }

  lemma {:induction false} AttemptsHold(p: Projector, j: seq<Event>, e: Event)
    requires Holds(p, j) && Advance(p, e, |j|).Some?
    ensures var q, k := Advance(p, e, |j|).value, j + [e];
      (forall i :: 0 <= i < |k| && Recovers(k[i]) ==>
        k[i].source in q.attempts && k[i].body.attempt <= q.attempts[k[i].source]) &&
      (forall s :: s in q.attempts ==> exists i ::
        0 <= i < |k| && Recovers(k[i]) && k[i].source == s && k[i].body.attempt == q.attempts[s])
  {
    hide OpenHalt;
    var q, k := Advance(p, e, |j|).value, j + [e];
    forall s | s in q.attempts ensures exists i ::
        0 <= i < |k| && Recovers(k[i]) && k[i].source == s && k[i].body.attempt == q.attempts[s] {
      if Recovers(e) && s == e.source {
        assert k[|j|] == e;
      } else {
        var i :| 0 <= i < |j| && Recovers(j[i]) && j[i].source == s && j[i].body.attempt == p.attempts[s];
        assert k[i] == j[i];
      }
    }
  }

  lemma {:induction false} UnresolvedHolds(p: Projector, j: seq<Event>, e: Event)
    requires Holds(p, j) && Advance(p, e, |j|).Some?
    ensures var q, k := Advance(p, e, |j|).value, j + [e];
      (forall s :: s in q.unresolved ==> exists i :: OpenHalt(k, i, s) && k[i] == q.unresolved[s]) &&
      (forall s, i :: OpenHalt(k, i, s) ==> s in q.unresolved && q.unresolved[s] == k[i])
  {
    var q, k := Advance(p, e, |j|).value, j + [e];
    forall s, i | OpenHalt(k, i, s) ensures s in q.unresolved && q.unresolved[s] == k[i] {
      OpenHaltAfter(j, e, i, s);
      assert 0 <= i < |k| && (i < |j| ==> k[i] == j[i]);
    }
    forall s | s in q.unresolved ensures exists i :: OpenHalt(k, i, s) && k[i] == q.unresolved[s] {
      if s == e.source && !e.body.Resumed? && Recovers(e) {
        OpenHaltAfter(j, e, |j|, s);
      } else {
        var i :| OpenHalt(j, i, s) && j[i] == p.unresolved[s];
        OpenHaltAfter(j, e, i, s);
        assert k[i] == j[i];
      }
    }
  }

  /** A projectable journal stays projectable with an event exactly when the event may follow it. */
  lemma {:induction false} ProjectsNext(j: seq<Event>, e: Event)
    requires Fold(j).Some?
    ensures Fold(j + [e]).Some? <==> MayFollow(j, e)
  {
    Extend(j, e);
    FoldFacts(j);
    FoldHolds(j);
    if e.body.Reached? { NthIsRank(e.body.milestone, Count(j)); }
    TerminalIff(j);
    if !Terminal(j) { AdvancesIff(Fold(j).value, j, e); }
  }

  lemma {:induction false} TerminalIff(j: seq<Event>)
    ensures Terminal(j) <==> exists i :: 0 <= i < |j| && Finishes(j[i])
  {
    if i :| 0 <= i < |j| && Finishes(j[i]) {
      FinishesIs(j[i]);
    }
    if Terminal(j) {
      var i :| 0 <= i < |j| && Ends(j[i]);
      FinishesIs(j[i]);
    }
  }

  lemma {:induction false} AdvancesIff(p: Projector, j: seq<Event>, e: Event)
    requires Holds(p, j) && (p.lifecycle == [] <==> j == []) && (j != [] ==> p.lifecycle[0].runId == j[0].runId)
    requires forall i :: 0 <= i < |j| ==> j[i].runId == j[0].runId && !Finishes(j[i])
    requires forall s :: s in p.unresolved ==> Recovers(p.unresolved[s])
    requires e.body.Reached? ==> (Nth(e.body.milestone, Count(j)) <==> Rank(e.body.milestone) == Count(j))
    ensures Advance(p, e, |j|).Some? <==> MayFollow(j, e)
  {
    hide Nth, Rank;
    if e.body.Resumed? && e.source in p.unresolved {
      var k :| OpenHalt(j, k, e.source) && j[k] == p.unresolved[e.source];
    }
  }

  /** A journal is projectable exactly when each of its events may follow those before it. */
  lemma {:induction false} ProjectableIff(j: seq<Event>)
    ensures Fold(j).Some? <==> forall n :: 0 <= n < |j| ==> MayFollow(j[..n], j[n])
    decreases |j|
  {
    hide MayFollow;
    if j != [] {
      ProjectableIff(Front(j));
      assert Front(j) + [Last(j)] == j;
      assert forall n :: 0 <= n < |Front(j)| ==> Front(j)[..n] == j[..n] && Front(j)[n] == j[n];
      assert j[..|j| - 1] == Front(j) && j[|j| - 1] == Last(j);
      if Fold(Front(j)).Some? { ProjectsNext(Front(j), Last(j)); }
    }
  }

  // ------------------------------------------------------------------ one effect

  /** Two events of one source share a key when neither is a recovery event, or both are of
      one kind and attempt. */
  predicate SharesKey(a: Event, b: Event) {
    a.source == b.source &&
    (if Recovers(a) && Recovers(b) then
       a.body.attempt == b.body.attempt && (a.body.Waiting? <==> b.body.Waiting?) &&
       (a.body.Resumed? <==> b.body.Resumed?)
     else !Recovers(a) && !Recovers(b))
  }

  lemma {:induction false} KeyIff(a: Event, b: Event)
    ensures KeyOf(a) == KeyOf(b) <==> SharesKey(a, b)
  {
  }

  lemma {:induction false} HasKeyIff(j: seq<Event>, e: Event)
    ensures HasKey(j, KeyOf(e)) <==> exists i :: 0 <= i < |j| && SharesKey(j[i], e)
  {
    if HasKey(j, KeyOf(e)) {
      var i :| 0 <= i < |j| && KeyOf(j[i]) == KeyOf(e);
      KeyIff(j[i], e);
    }
    if i :| 0 <= i < |j| && SharesKey(j[i], e) {
      KeyIff(j[i], e);
    }
  }

  /** The stored journals, by their events: each may follow those before it, the first is there,
      and no two share a key. */
  lemma {:induction false} ValidIff(j: seq<Event>)
    ensures Valid(j) <==>
      j != [] && (forall n :: 0 <= n < |j| ==> MayFollow(j[..n], j[n])) &&
      forall i, k :: 0 <= i < k < |j| ==> !SharesKey(j[i], j[k])
  {
    ProjectableIff(j);
    if j != [] && Fold(j).Some? { FoldFacts(j); }
    forall i, k | 0 <= i < k < |j| ensures KeyOf(j[i]) == KeyOf(j[k]) <==> SharesKey(j[i], j[k]) {
      KeyIff(j[i], j[k]);
    }
    hide Fold, MayFollow, KeyOf, SharesKey;
  }

  /** What an append to a stored journal does, in every case: an event of another run is
      refused; a known key is taken as a repeat exactly when its event says the same; nothing
      comes after an end, out of number, or where it may not follow. */
  lemma {:induction false} AppendsIff(j: seq<Event>, e: Event)
    requires Valid(j)
    ensures Append(j, e) ==
      if e.runId != j[0].runId then Err(RunMismatch)
      else if exists i :: 0 <= i < |j| && SharesKey(j[i], e) then
        if exists i :: 0 <= i < |j| && SharesKey(j[i], e) && j[i].body == e.body then Ok(j) else Err(EffectConflict)
      else if exists i :: 0 <= i < |j| && Finishes(j[i]) then Err(AfterTerminal)
      else if e.sequence != |j| + 1 then Err(OutOfSequence)
      else if MayFollow(j, e) then Ok(j + [e]) else Err(NotProjectable)
  {
    FoldFacts(j);
    TerminalIff(j);
    HasKeyIff(j, e);
    if e.runId == j[0].runId { RepeatIff(j, e); }
    ProjectsNext(j, e);
    Shown(j, e);
    hide Fold, MayFollow, KeyOf, SharesKey, Terminal, Finishes, ProjectRun, SameEffect, HasKey;
  }

  lemma {:induction false} Shown(j: seq<Event>, e: Event)
    requires Valid(j)
    ensures ProjectRun(j + [e]).Some? <==> Fold(j + [e]).Some?
  {
    if Fold(j + [e]).Some? { FoldFacts(j + [e]); }
    hide Fold;
  }

  lemma {:induction false} RepeatIff(j: seq<Event>, e: Event)
    requires forall i :: 0 <= i < |j| ==> j[i].runId == j[0].runId
    requires j != [] && e.runId == j[0].runId
    ensures (exists i :: 0 <= i < |j| && KeyOf(j[i]) == KeyOf(e) && SameEffect(j[i], e)) <==>
      exists i :: 0 <= i < |j| && SharesKey(j[i], e) && j[i].body == e.body
  {
    forall i | 0 <= i < |j| ensures KeyOf(j[i]) == KeyOf(e) <==> SharesKey(j[i], e) {
      KeyIff(j[i], e);
    }
    hide KeyOf, SharesKey;
    if i :| 0 <= i < |j| && SharesKey(j[i], e) && j[i].body == e.body {
      assert KeyOf(j[i]) == KeyOf(e) && SameEffect(j[i], e);
    }
    if i :| 0 <= i < |j| && KeyOf(j[i]) == KeyOf(e) && SameEffect(j[i], e) {
      assert SharesKey(j[i], e) && j[i].body == e.body;
    }
  }

  /** What cannot be stored is never appended to. */
  lemma {:induction false} CorruptIff(j: seq<Event>, e: Event)
    ensures Append(j, e) == Err(CorruptJournal) <==> j != [] && !Valid(j)
  {
  }

  // ------------------------------------------------------------- the projection

  /** The place of a stage among the six. */
  predicate StageAt(s: Stage, i: int) {
    match s
    case PreflightStage => i == 0
    case RequestStage => i == 1
    case RoundStage => i == 2
    case ProofStage => i == 3
    case VerifyStage => i == 4
    case ConsumerStage => i == 5
  }

  /** The n-th milestone is on record. */
  ghost predicate Recorded(j: seq<Event>, n: int) {
    exists i :: 0 <= i < |j| && j[i].body.Reached? && Nth(j[i].body.milestone, n)
  }

  lemma {:induction false} RecordedIff(j: seq<Event>, n: nat)
    requires Fold(j).Some? && n <= 6
    ensures var l := Fold(j).value.lifecycle;
      Recorded(j, n) <==> n < |l| && l[n].body.Reached?
  {
    LifecycleOrdered(j);
    var l := Fold(j).value.lifecycle;
    hide Fold;
    if i :| 0 <= i < |j| && j[i].body.Reached? && Nth(j[i].body.milestone, n) {
      NthIsRank(j[i].body.milestone, n);
      var k :| 0 <= k < |l| && l[k] == j[i];
    }
    if n < |l| && l[n].body.Reached? {
      var i :| 0 <= i < |j| && j[i] == l[n];
      NthIsRank(j[i].body.milestone, n);
    }
  }

  /** While a run is live, a stage is completed exactly when its milestone is on record, and
      the one after the last is active; only the request stage waits to be asked for. */
  lemma {:induction false} LiveStages(j: seq<Event>, i: nat)
    requires Valid(j) && !Terminal(j) && i < 6
    ensures ProjectRun(j).Some? && |ProjectRun(j).value.stages| == 6
    ensures ProjectRun(j).value.stages[i] ==
      if Recorded(j, i + 1) then Completed
      else if Recorded(j, i) && i != 1 then Active
      else Pending
  {
    ProjectionTerminal(j);
    LifecycleOrdered(j);
    RecordedIff(j, i);
    RecordedIff(j, i + 1);
    LiveLifecycle(j);
    hide Fold, Terminal, Recorded;
  }

  lemma {:induction false} LiveLifecycle(j: seq<Event>)
    requires Fold(j).Some? && !Terminal(j)
    ensures forall i :: 0 <= i < |Fold(j).value.lifecycle| ==> Fold(j).value.lifecycle[i].body.Reached?
  {
    LifecycleOrdered(j);
    var l := Fold(j).value.lifecycle;
    forall i | 0 <= i < |l| ensures l[i].body.Reached? {
      var k :| 0 <= k < |j| && j[k] == l[i];
      assert !Ends(j[k]);
    }
  }

  /** When a run has ended, what ended it is its last event. A failure breaks its stage, with
      those before it completed and those after it pending; the consumer's verification
      completes all, or breaks the last if it did not pass. */
  lemma {:induction false} EndedStages(j: seq<Event>, i: nat)
    requires Valid(j) && Terminal(j) && i < 6
    ensures ProjectRun(j).Some? && |ProjectRun(j).value.stages| == 6 && ProjectRun(j).value.terminal
    ensures var stage := ProjectRun(j).value.stages[i]; var end := Last(j);
      Finishes(end) &&
      (end.body.Failed? ==>
        exists at: nat :: at < 6 && StageAt(end.body.stage, at) &&
          stage == if i < at then Completed else if i == at then Broken else Pending) &&
      (end.body.Reached? ==> stage == if i < 5 || end.body.milestone.passed then Completed else Broken)
  {
    ProjectionTerminal(j);
    LifecycleOrdered(j);
    TerminalIsLast(j);
    FinishesIs(Last(j));
    EndIsLast(j);
    var end := Last(j);
    if end.body.Failed? {
      assert StageAt(end.body.stage, StageIndex(end.body.stage)) && StageIndex(end.body.stage) < 6;
    }
    hide Fold, Terminal;
  }

  lemma {:induction false} EndIsLast(j: seq<Event>)
    requires Fold(j).Some? && Terminal(j)
    ensures var l := Fold(j).value.lifecycle;
      l != [] && Last(l) == Last(j) && (Last(j).body.Reached? ==> |l| == 7)
  {
    LifecycleOrdered(j);
    TerminalIsLast(j);
    var l := Fold(j).value.lifecycle;
    var k :| 0 <= k < |l| && l[k] == Last(j);
  }

  /** The recovery a live run shows is its newest open halt; a failed one shows its failure and
      a verified one none. */
  lemma {:induction false} ShownRecovery(j: seq<Event>)
    requires Valid(j)
    ensures ProjectRun(j).Some?
    ensures var shown := ProjectRun(j).value.recovery;
      if Terminal(j) then shown == if Last(j).body.Failed? then Some(Last(j)) else None
      else
        (shown.None? <==> forall k, s :: !OpenHalt(j, k, s)) &&
        (shown.Some? ==> exists k :: NewestHalt(j, k) && j[k] == shown.value)
  {
    RecoveryOf(j);
    if Terminal(j) {
      EndIsLast(j);
      NoHaltAfterEnd(j);
      NothingNamed(j);
    } else {
      LiveLifecycle(j);
      FoldFacts(j);
      NewestOpenHalt(j, Fold(j).value);
    }
    hide Fold, Terminal, OpenHalt, Newest, ProjectRun, NewestHalt;
  }

  ghost predicate NewestHalt(j: seq<Event>, k: int) {
    0 <= k < |j| && OpenHalt(j, k, j[k].source) && forall m, s :: OpenHalt(j, m, s) ==> m <= k
  }

  lemma {:induction false} RecoveryOf(j: seq<Event>)
    requires Valid(j)
    ensures ProjectRun(j).Some? && Fold(j).Some? && Fold(j).value.lifecycle != []
    ensures ProjectRun(j).value.recovery ==
      if Last(Fold(j).value.lifecycle).body.Failed? then Some(Last(Fold(j).value.lifecycle))
      else Newest(j, Fold(j).value.unresolved)
  {
    hide Fold, Newest;
  }

  lemma {:induction false} NothingNamed(j: seq<Event>)
    ensures Newest(j, map[]) == None
  {
    if j != [] {
      NothingNamed(Front(j));
    }
  }

  lemma {:induction false} NewestOpenHalt(j: seq<Event>, p: Projector)
    requires Fold(j) == Some(p)
    ensures var shown := Newest(j, p.unresolved);
      (shown.None? <==> forall k, s :: !OpenHalt(j, k, s)) &&
      (shown.Some? ==> exists k :: NewestHalt(j, k) && j[k] == shown.value)
  {
    FoldHolds(j);
    DistinctEvents(j);
    NewestIs(j, |j|, p.unresolved);
    assert j[..|j|] == j;
    assert forall k, s :: OpenHalt(j, k, s) ==> 0 <= k < |j| && Named(j[k], p.unresolved);
    hide Fold;
    var shown := Newest(j, p.unresolved);
    if shown.Some? {
      var k :| 0 <= k < |j| && shown == Some(j[k]) && Named(j[k], p.unresolved) &&
        forall m :: k < m < |j| ==> !Named(j[m], p.unresolved);
      var i :| OpenHalt(j, i, j[k].source) && j[i] == p.unresolved[j[k].source];
      assert i == k;
      assert NewestHalt(j, k);
    }
  }

  predicate Named(e: Event, unresolved: map<Source, Event>) {
    e.source in unresolved && unresolved[e.source] == e
  }

  lemma {:induction false} NewestIs(j: seq<Event>, n: nat, unresolved: map<Source, Event>)
    requires n <= |j|
    ensures var shown := Newest(j[..n], unresolved);
      (shown.None? ==> forall m :: 0 <= m < n ==> !Named(j[m], unresolved)) &&
      (shown.Some? ==> exists k ::
        0 <= k < n && shown == Some(j[k]) && Named(j[k], unresolved) &&
        forall m :: k < m < n ==> !Named(j[m], unresolved))
  {
    if n > 0 {
      assert Front(j[..n]) == j[..n - 1] && Last(j[..n]) == j[n - 1];
      NewestIs(j, n - 1, unresolved);
    }
  }

  lemma {:induction false} DistinctEvents(j: seq<Event>)
    requires Fold(j).Some?
    ensures forall i, k :: 0 <= i < |j| && 0 <= k < |j| && j[i] == j[k] ==> i == k
  {
    FoldFacts(j);
  }

  lemma {:induction false} NoHaltAfterEnd(j: seq<Event>)
    requires Fold(j).Some? && Terminal(j)
    ensures Fold(j).value.unresolved == map[]
  {
    TerminalIsLast(j);
  }

  /** Submission is closed exactly from the recorded submission on, or when the run has ended. */
  lemma {:induction false} ClosedIff(j: seq<Event>)
    requires Valid(j)
    ensures ProjectRun(j).Some?
    ensures SubmissionClosed(j) <==> Recorded(j, 2) || Terminal(j)
  {
    ProjectionTerminal(j);
    if !Terminal(j) { LiveStages(j, 1); }
    hide Fold, Terminal, Recorded;
  }
}
