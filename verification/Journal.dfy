/**
 The event journal of one run: the projector and the append rule of
 packages/domain/src/run-lifecycle.ts.
*/
module Journal {
  import opened Wrappers

  type Id = nat

  /** Who an event is attributed to: the request that created the run, a command,
      or one of the effects a replay command derives from its own id. */
  datatype Source = Request(key: string) | Command(id: Id) | Replayed(id: Id, ordinal: nat)

  datatype Stage = PreflightStage | RequestStage | RoundStage | ProofStage | VerifyStage | ConsumerStage

  datatype Checkpoint =
    | AtPreflight | AtSubmission | AtReceipt | AtFinalization | AtDaProof | AtVerification | AtConsumer

  datatype Milestone =
    | RunCreated(manifest: nat)
    | PreflightAccepted(quotedFeeWei: nat)
    | RequestSubmitted(mode: string, transactionHash: string)
    | RoundFinalized(votingRound: nat)
    | ProofAvailable(proofHash: string)
    | ProofVerified(verifier: string)
    | ConsumerVerified(passed: bool)

  datatype Cause = LeaseExpired | Reported(code: string)

  datatype Schedule = Schedule(retryAfter: int, updatedAt: int, cause: Cause)

  datatype Body =
    | Reached(milestone: Milestone)
    | Failed(stage: Stage, code: string)
    | Waiting(stage: Stage, attempt: nat, resumeFrom: Checkpoint, schedule: Schedule)
    | RetryScheduled(stage: Stage, attempt: nat, resumeFrom: Checkpoint, schedule: Schedule)
    | Resumed(stage: Stage, attempt: nat, resumeFrom: Checkpoint)

  datatype Event = Event(runId: Id, sequence: nat, source: Source, occurredAt: int, body: Body)

  /** The idempotency key of an event inside its run. */
  datatype EffectKey =
    | Effect(source: Source)
    | WaitingKey(source: Source, attempt: nat)
    | RetryKey(source: Source, attempt: nat)
    | ResumedKey(source: Source, attempt: nat)

  predicate IsRecovery(e: Event) {
    e.body.Waiting? || e.body.RetryScheduled? || e.body.Resumed?
  }

  predicate Ends(e: Event) {
    e.body.Failed? || (e.body.Reached? && e.body.milestone.ConsumerVerified?)
  }

  predicate Terminal(j: seq<Event>) {
    exists i :: 0 <= i < |j| && Ends(j[i])
  }

  function KeyOf(e: Event): EffectKey {
    match e.body
    case Waiting(_, attempt, _, _) => WaitingKey(e.source, attempt)
    case RetryScheduled(_, attempt, _, _) => RetryKey(e.source, attempt)
    case Resumed(_, attempt, _) => ResumedKey(e.source, attempt)
    case _ => Effect(e.source)
  }

  predicate SameEffect(a: Event, b: Event) {
    a.runId == b.runId && a.body == b.body
  }

  predicate HasKey(j: seq<Event>, key: EffectKey) {
    exists i :: 0 <= i < |j| && KeyOf(j[i]) == key
  }

  ghost predicate KeysDistinct(j: seq<Event>) {
    forall i, k :: 0 <= i < k < |j| ==> KeyOf(j[i]) != KeyOf(j[k])
  }

  function Rank(m: Milestone): nat {
    match m
    case RunCreated(_) => 0
    case PreflightAccepted(_) => 1
    case RequestSubmitted(_, _) => 2
    case RoundFinalized(_) => 3
    case ProofAvailable(_) => 4
    case ProofVerified(_) => 5
    case ConsumerVerified(_) => 6
  }

  // ---------------------------------------------------------------- projector

  datatype Projector = Projector(
    lifecycle: seq<Event>, attempts: map<Source, nat>, unresolved: map<Source, Event>)

  function Last(j: seq<Event>): Event
    requires j != []
  {
    j[|j| - 1]
  }

  function Front(j: seq<Event>): seq<Event>
    requires j != []
  {
    j[..|j| - 1]
  }

  /** One turn of the projection loop; None is a thrown error. */
  function Advance(p: Projector, e: Event, index: nat): Option<Projector> {
    if e.sequence != index + 1 then None
    else if p.lifecycle != [] && e.runId != p.lifecycle[0].runId then None
    else if IsRecovery(e) then
      if p.lifecycle == [] then None
      else if e.source in p.attempts && e.body.attempt < p.attempts[e.source] then None
      else if e.body.Resumed? then
        if e.source !in p.unresolved then None
        else
          var prior := p.unresolved[e.source];
          if !IsRecovery(prior) || e.body.attempt <= prior.body.attempt ||
             e.body.stage != prior.body.stage || e.body.resumeFrom != prior.body.resumeFrom
          then None
          else Some(p.(unresolved := p.unresolved - {e.source},
                       attempts := p.attempts[e.source := e.body.attempt]))
      else Some(p.(unresolved := p.unresolved[e.source := e],
                   attempts := p.attempts[e.source := e.body.attempt]))
    else if e.body.Reached? && Rank(e.body.milestone) != |p.lifecycle| then None
    else Some(p.(lifecycle := p.lifecycle + [e], unresolved := map[]))
  }

  function Fold(j: seq<Event>): Option<Projector> {
    if j == [] then Some(Projector([], map[], map[]))
    else match Fold(Front(j))
      case None => None
      case Some(p) => if Terminal(Front(j)) then None else Advance(p, Last(j), |j| - 1)
  }

  datatype StageStatus = Pending | Active | Completed | Broken

  datatype Projection = Projection(
    runId: Id, sequence: nat, terminal: bool, stages: seq<StageStatus>, recovery: Option<Event>)

  function StageIndex(s: Stage): nat {
    match s
    case PreflightStage => 0
    case RequestStage => 1
    case RoundStage => 2
    case ProofStage => 3
    case VerifyStage => 4
    case ConsumerStage => 5
  }

  /** A run whose preflight was accepted waits for an explicit submission, so the
      request stage stays pending at exactly two milestones. */
  function CompletedStages(count: nat): seq<StageStatus> {
    seq(6, i requires 0 <= i < 6 =>
      if i + 1 < count then Completed
      else if i + 1 == count && count != 2 then Active
      else Pending)
  }

  function FailedStages(at: nat): seq<StageStatus> {
    seq(6, i requires 0 <= i < 6 => if i < at then Completed else if i == at then Broken else Pending)
  }

  function Newest(j: seq<Event>, unresolved: map<Source, Event>): Option<Event> {
    if j == [] then None
    else if Last(j).source in unresolved && unresolved[Last(j).source] == Last(j) then Some(Last(j))
    else Newest(Front(j), unresolved)
  }

  function ProjectRun(j: seq<Event>): Option<Projection> {
    if j == [] then None
    else match Fold(j)
      case None => None
      case Some(p) =>
        if p.lifecycle == [] then None
        else
          var last := Last(p.lifecycle);
          var failed := last.body.Failed?;
          var done := last.body.Reached? && last.body.milestone.ConsumerVerified?;
          var stages := if failed then FailedStages(StageIndex(last.body.stage))
                        else CompletedStages(|p.lifecycle|);
          Some(Projection(
            p.lifecycle[0].runId, Last(j).sequence, failed || done,
            if done then stages[5 := if last.body.milestone.passed then Completed else Broken] else stages,
            if failed then Some(last) else Newest(j, p.unresolved)))
  }

  // ------------------------------------------------------------------- append

  /** The journals the service can have stored: projectable, no effect twice. */
  ghost predicate Valid(j: seq<Event>) {
    j != [] && ProjectRun(j).Some? && KeysDistinct(j)
  }

  datatype AppendError = CorruptJournal | RunMismatch | EffectConflict | AfterTerminal | OutOfSequence | NotProjectable

  /** appendRunEvents(existing, [e]). */
  function Append(existing: seq<Event>, e: Event): Result<seq<Event>, AppendError> {
    if existing != [] && ProjectRun(existing).None? then Err(CorruptJournal)
    else if exists i, k :: 0 <= i < k < |existing| && KeyOf(existing[i]) == KeyOf(existing[k]) then Err(CorruptJournal)
    else if existing != [] && e.runId != existing[0].runId then Err(RunMismatch)
    else if HasKey(existing, KeyOf(e)) then
      if exists i :: 0 <= i < |existing| && KeyOf(existing[i]) == KeyOf(e) && SameEffect(existing[i], e)
      then Ok(existing) else Err(EffectConflict)
    else if Terminal(existing) then Err(AfterTerminal)
    else if e.sequence != |existing| + 1 then Err(OutOfSequence)
    else if ProjectRun(existing + [e]).None? then Err(NotProjectable)
    else Ok(existing + [e])
  }

  lemma {:induction false} FrontLast(j: seq<Event>, e: Event)
    ensures Front(j + [e]) == j && Last(j + [e]) == e
  {
  }

  lemma {:induction false} AppendKeepsValid(j: seq<Event>, e: Event)
    requires Append(j, e).Ok?
    ensures Valid(Append(j, e).value) || Append(j, e).value == []
    ensures Append(j, e).value == j || Append(j, e).value == j + [e]
  {
    if Append(j, e).value != j {
      FrontLast(j, e);
    }
  }

  /** What the projector knows about a projectable journal. */
  lemma {:induction false} FoldFacts(j: seq<Event>)
    requires Fold(j).Some?
    ensures forall i :: 0 <= i < |j| ==> j[i].sequence == i + 1 && j[i].runId == j[0].runId
    ensures forall i :: 0 <= i < |j| - 1 ==> !Ends(j[i])
    ensures j != [] ==> Fold(j).value.lifecycle != [] && Fold(j).value.lifecycle[0] == j[0] && !IsRecovery(j[0])
    ensures forall s :: s in Fold(j).value.attempts ==> exists i ::
        0 <= i < |j| && j[i].source == s && IsRecovery(j[i]) && j[i].body.attempt == Fold(j).value.attempts[s]
    ensures forall s :: s in Fold(j).value.unresolved ==>
        var u := Fold(j).value.unresolved[s];
        u in j && u.source == s && (u.body.Waiting? || u.body.RetryScheduled?)
  {
    if j != [] {
      FoldFacts(Front(j));
      var q, p := Fold(Front(j)).value, Fold(j).value;
      forall i | 0 <= i < |j| ensures j[i].sequence == i + 1 && j[i].runId == j[0].runId {
        if i < |j| - 1 { assert Front(j)[i] == j[i]; }
        if Front(j) != [] { assert Front(j)[0] == j[0]; }
      }
      forall i | 0 <= i < |j| - 1 ensures !Ends(j[i]) {
        assert Front(j)[i] == j[i];
      }
      forall s | s in p.attempts
        ensures exists i :: 0 <= i < |j| && j[i].source == s && IsRecovery(j[i]) && j[i].body.attempt == p.attempts[s]
      {
        if IsRecovery(Last(j)) && s == Last(j).source {
        } else {
          var i :| 0 <= i < |Front(j)| && Front(j)[i].source == s && IsRecovery(Front(j)[i]) &&
            Front(j)[i].body.attempt == q.attempts[s];
          assert j[i] == Front(j)[i];
        }
      }
    }
  }

  /** A projectable journal is terminal exactly when its last event ends the run. */
  lemma {:induction false} TerminalIsLast(j: seq<Event>)
    requires Fold(j).Some? && j != []
    ensures Terminal(j) <==> Ends(Last(j))
  {
    FoldFacts(j);
  }

  /** The lifecycle holds the milestones in their fixed order, a failure only at the end. */
  lemma {:induction false} LifecycleOrdered(j: seq<Event>)
    requires Fold(j).Some?
    ensures var l := Fold(j).value.lifecycle;
            forall i :: 0 <= i < |l| ==>
              (l[i] in j && !IsRecovery(l[i]) &&
               (l[i].body.Reached? ==> Rank(l[i].body.milestone) == i) &&
               (Ends(l[i]) ==> i == |l| - 1))
    ensures forall i :: 0 <= i < |j| && !IsRecovery(j[i]) ==> j[i] in Fold(j).value.lifecycle
    ensures Fold(j).value.lifecycle != [] ==> (Ends(Last(Fold(j).value.lifecycle)) <==> Terminal(j))
  {
    if j != [] {
      LifecycleOrdered(Front(j));
      var q, p := Fold(Front(j)).value, Fold(j).value;
      forall i | 0 <= i < |p.lifecycle| ensures p.lifecycle[i] in j &&
        (Ends(p.lifecycle[i]) ==> i == |p.lifecycle| - 1) {
        if i < |q.lifecycle| {
          assert p.lifecycle[i] == q.lifecycle[i];
          var k :| 0 <= k < |Front(j)| && Front(j)[k] == q.lifecycle[i];
          assert j[k] == q.lifecycle[i];
        }
      }
      forall i | 0 <= i < |j| && !IsRecovery(j[i]) ensures j[i] in p.lifecycle {
        if i < |j| - 1 { assert Front(j)[i] == j[i]; }
      }
      FoldFacts(j);
      if p.lifecycle != [] && Ends(Last(p.lifecycle)) {
        assert Last(p.lifecycle) in j;
      }
    }
  }

  /** The stored projection says terminal exactly when the journal is. */
  lemma {:induction false} ProjectionTerminal(j: seq<Event>)
    requires ProjectRun(j).Some?
    ensures ProjectRun(j).value.terminal <==> Terminal(j)
    ensures ProjectRun(j).value.sequence == |j|
    ensures ProjectRun(j).value.runId == j[0].runId
    ensures |ProjectRun(j).value.stages| == 6
  {
    FoldFacts(j);
    LifecycleOrdered(j);
  }

  /** Any event of a live run projects unless the projector refuses it, so what is
      appended after a terminal event never projects. */
  lemma {:induction false} Extend(j: seq<Event>, e: Event)
    requires Fold(j).Some?
    ensures Fold(j + [e]) == if Terminal(j) then None else Advance(Fold(j).value, e, |j|)
  {
    FrontLast(j, e);
  }

  lemma {:induction false} PrefixProjects(j: seq<Event>, n: nat)
    requires n <= |j| && Fold(j).Some?
    ensures Fold(j[..n]).Some?
    decreases |j|
  {
    if n < |j| {
      assert Front(j)[..n] == j[..n];
      PrefixProjects(Front(j), n);
    } else {
      assert j[..n] == j;
    }
  }

  /** The service no longer offers the run for submission. */
  predicate SubmissionClosed(j: seq<Event>)
    requires ProjectRun(j).Some?
  {
    var p := ProjectRun(j).value;
    p.terminal || (|p.stages| == 6 && p.stages[1] != Pending)
  }

  /** Once a submission is recorded, the run is closed for a second one. */
  lemma {:induction false} SubmittedIsClosed(j: seq<Event>, i: nat)
    requires ProjectRun(j).Some? && i < |j|
    requires j[i].body.Reached? && j[i].body.milestone.RequestSubmitted?
    ensures SubmissionClosed(j)
  {
    LifecycleOrdered(j);
    ProjectionTerminal(j);
    var l := Fold(j).value.lifecycle;
    assert j[i] in l;
    var k :| 0 <= k < |l| && l[k] == j[i];
    assert k == 2;
  }

  /** Closing is permanent: every longer valid journal is closed too. */
  lemma {:induction false} ClosedStays(j: seq<Event>, k: seq<Event>)
    requires j <= k && ProjectRun(j).Some? && ProjectRun(k).Some? && SubmissionClosed(j)
    ensures SubmissionClosed(k)
    decreases |k|
  {
    if |k| > |j| {
      PrefixProjects(k, |k| - 1);
      assert j == Front(k)[..|j|];
      FoldFacts(Front(k));
      ClosedStays(j, Front(k));
      LifecycleOrdered(Front(k));
      ProjectionTerminal(Front(k));
      ProjectionTerminal(k);
    } else {
      assert j == k;
    }
  }
}
