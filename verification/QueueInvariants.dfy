/**
 What every interleaving of the queue's transactions keeps: whole and projected
 journals, unique effects, one submission authority, and recovery events that match
 the attempts of their command.
*/
module QueueInvariants {
  import opened Wrappers
  import opened Journal
  import opened CommandQueue

  // ------------------------------------------------------------------ actions

  datatype Action =
    | CreateRun(run: NewRun)
    | Insert(id: Id, row: CommandRow)
    | Claim(c: Id, token: Id, now: int, wall: int)
    | Renew(c: Id, token: Id, now: int, interval: nat)
    | Complete(c: Id, token: Id, output: Output, now: int)
    | Retry(c: Id, token: Id, failure: Failure, now: int, wall: int)

  function Transaction(s: Store, a: Action): Tx {
    match a
    case CreateRun(n) => CreateRunTx(s, n)
    case Insert(id, row) => InsertCommand(s, id, row)
    case Claim(c, token, now, wall) => ClaimTx(s, c, token, now, wall)
    case Renew(c, token, now, interval) => RenewTx(s, c, token, now, interval)
    case Complete(c, token, output, now) => CompleteTx(s, c, token, output, now)
    case Retry(c, token, failure, now, wall) => RetryTx(s, c, token, failure, now, wall)
  }

  function Apply(s: Store, a: Action): Store { Committed(s, Transaction(s, a)) }

  function Run(s: Store, actions: seq<Action>): Store
    decreases |actions|
  {
    if actions == [] then s else Run(Apply(s, actions[0]), actions[1..])
  }

  const Empty := Store(map[], map[], map[], map[])

  predicate NewRow(row: CommandRow) {
    row.attempts == 0 && row.lease.None? && (row.status == Queued || row.status == Succeeded)
  }

  /** What a completion may bring, always for the command's own run: milestones and a
      failure under the command's id (apps/worker/src/worker.ts:598-614, 1414-1431), and
      whatever was recorded, recovery events included, under ids derived from it
      (apps/worker/src/worker.ts:1483-1520). */
  predicate OwnOutput(e: Event, c: Id, runId: Id) {
    e.runId == runId &&
    (((e.body.Reached? || e.body.Failed?) && e.source == Command(c)) || (e.source.Replayed? && e.source.id == c))
  }

  /** What the callers of the repository guarantee: rows are inserted new, a completion
      brings its own output, and a terminal failure is not also retryable
      (apps/worker/src/worker.ts:258-279). */
  ghost predicate Admissible(s: Store, a: Action) {
    match a
    case Insert(_, row) => NewRow(row)
    case Complete(c, _, output, _) =>
      (c in s.commands ==> forall e :: e in output.events ==> OwnOutput(e, c, s.commands[c].runId)) &&
      (forall n :: n in output.next ==> NewRow(n.row))
    case Retry(_, _, failure, _, _) => !(failure.retryable && failure.terminal)
    case _ => true
  }

  ghost predicate AllAdmissible(s: Store, actions: seq<Action>)
    decreases |actions|
  {
    actions == [] || (Admissible(s, actions[0]) && AllAdmissible(Apply(s, actions[0]), actions[1..]))
  }

  // --------------------------------------------------------------- invariants

  ghost predicate RunOk(r: Id, run: RunRow, j: seq<Event>) {
    Valid(j) && j[0].runId == r && run.lastSequence == |j| && run.projection == ProjectRun(j)
  }

  ghost predicate SourceOk(s: Store, r: Id, e: Event) {
    !e.source.Request? ==> e.source.id in s.commands && s.commands[e.source.id].runId == r
  }

  /** How a command's own events relate to its row: recovery events under its id to its
      attempts, everything else is there only once it is finished. */
  ghost predicate OwnEventOk(row: CommandRow, e: Event) {
    if IsRecovery(e) && e.source.Command? then
      !Auxiliary(row.kind) && 1 <= e.body.attempt <= row.attempts &&
      e.body.stage == FailureStage(row.kind) && e.body.resumeFrom == RecoveryCheckpoint(row.kind) &&
      (row.status == Leased && !e.body.Resumed? ==> e.body.attempt < row.attempts) &&
      (e.body.RetryScheduled? && e.body.schedule.cause == LeaseExpired ==> e.body.attempt < row.attempts)
    else row.status == Succeeded || row.status == Dead
  }

  predicate OwnedBy(e: Event, c: Id) { !e.source.Request? && e.source.id == c }

  datatype Mark = Halted(attempt: nat) | ResumedAt(attempt: nat)

  /** The recovery events of a command: R for waiting or retry, S for resumed. */
  function Trail(j: seq<Event>, c: Id): seq<Mark> {
    if j == [] then []
    else if Last(j).source == Command(c) && IsRecovery(Last(j)) then
      Trail(Front(j), c) +
        [if Last(j).body.Resumed? then ResumedAt(Last(j).body.attempt) else Halted(Last(j).body.attempt)]
    else Trail(Front(j), c)
  }

  function LeasedTrail(attempts: nat): seq<Mark> {
    if attempts <= 1 then [] else LeasedTrail(attempts - 1) + [Halted(attempts - 1), ResumedAt(attempts)]
  }

  function ExpectedTrail(status: CommandStatus, attempts: nat): seq<Mark> {
    LeasedTrail(attempts) + (if status == Queued && attempts > 0 then [Halted(attempts)] else [])
  }

  /** After the command's first event, its run receives only the command's events. */
  ghost predicate Uninterrupted(j: seq<Event>, c: Id) {
    forall i, k :: 0 <= i < k < |j| && OwnedBy(j[i], c) ==> OwnedBy(j[k], c)
  }

  predicate Unfinished(row: CommandRow) { row.status == Queued || row.status == Leased }

  predicate ResumeOk(row: CommandRow, latest: Option<Event>) {
    latest.Some? && latest.value.body.Resumed? ==>
      latest.value.body.attempt == row.attempts && row.status != Queued
  }

  ghost predicate CommandOk(c: Id, row: CommandRow, j: seq<Event>) {
    (row.status == Leased ==> row.attempts > 0 && row.lease.Some?) &&
    (forall i :: 0 <= i < |j| && OwnedBy(j[i], c) ==> OwnEventOk(row, j[i])) &&
    ResumeOk(row, Latest(j, Command(c))) &&
    (Unfinished(row) && !Auxiliary(row.kind) && Uninterrupted(j, c) ==>
       Trail(j, c) == ExpectedTrail(row.status, row.attempts))
  }

  ghost predicate KeysUnique(s: Store) {
    (forall r, q :: r in s.runs && q in s.runs && r != q ==>
      s.runs[r].projectId != s.runs[q].projectId || s.runs[r].key != s.runs[q].key) &&
    (forall c, d :: c in s.commands && d in s.commands && c != d ==>
      s.commands[c].projectId != s.commands[d].projectId || s.commands[c].key != s.commands[d].key) &&
    (forall c, d :: c in s.commands && d in s.commands && c != d ==>
      !(HoldsSubmission(s.commands[c], s.commands[c].runId) && HoldsSubmission(s.commands[d], s.commands[c].runId)))
  }

  ghost predicate Journaled(s: Store) {
    s.runs.Keys == s.events.Keys &&
    (forall r :: r in s.runs ==> RunOk(r, s.runs[r], s.events[r]))
  }

  ghost predicate Attributed(s: Store) {
    forall r, e :: r in s.events && e in s.events[r] ==> SourceOk(s, r, e)
  }

  ghost predicate CommandsOk(s: Store) {
    forall c :: c in s.commands ==>
      s.commands[c].runId in s.events && CommandOk(c, s.commands[c], s.events[s.commands[c].runId])
  }

  ghost predicate Inv(s: Store) {
    Journaled(s) && Attributed(s) && CommandsOk(s) && KeysUnique(s)
  }

  // ------------------------------------------------------- scans and projector

  /** The two scans of the repository see what the projector of the domain sees. */
  lemma {:induction false} ScansAgreeWithProjector(j: seq<Event>, source: Source)
    requires Fold(j).Some?
    ensures Unresolved(j, source) ==
      if source in Fold(j).value.unresolved then Some(Fold(j).value.unresolved[source]) else None
    ensures Unresolved(j, source).Some? ==>
      Latest(j, source) == Unresolved(j, source) && !Unresolved(j, source).value.body.Resumed?
    ensures Unresolved(j, source).None? ==>
      (Latest(j, source).Some? ==> Latest(j, source).value.body.Resumed?)
  {
    if j != [] {
      ScansAgreeWithProjector(Front(j), source);
    }
  }

  lemma {:induction false} LatestIsOwn(j: seq<Event>, source: Source)
    ensures Latest(j, source).Some? ==>
      Latest(j, source).value in j && Latest(j, source).value.source == source && IsRecovery(Latest(j, source).value)
    ensures Unresolved(j, source).Some? ==>
      Unresolved(j, source).value in j && Unresolved(j, source).value.source == source &&
      IsRecovery(Unresolved(j, source).value)
  {
    if j != [] {
      LatestIsOwn(Front(j), source);
    }
  }

  predicate Resumes(e: Event, prior: Event) {
    IsRecovery(e) && IsRecovery(prior) && prior.body.attempt < e.body.attempt &&
    prior.body.stage == e.body.stage && prior.body.resumeFrom == e.body.resumeFrom
  }

  /** When appendRunEvents takes a new recovery event of a live run. */
  lemma {:induction false} AppendsRecovery(j: seq<Event>, e: Event)
    requires Valid(j) && !Terminal(j) && IsRecovery(e) && !HasKey(j, KeyOf(e))
    requires e.runId == j[0].runId && e.sequence == |j| + 1
    requires forall i :: 0 <= i < |j| && j[i].source == e.source && IsRecovery(j[i]) ==>
      j[i].body.attempt <= e.body.attempt
    requires e.body.Resumed? ==> (Unresolved(j, e.source).Some? && Resumes(e, Unresolved(j, e.source).value))
    ensures Append(j, e) == Ok(j + [e])
  {
    FoldFacts(j);
    ScansAgreeWithProjector(j, e.source);
    Extend(j, e);
  }

  /** A run failure is recorded on any live journal that has no effect of its source. */
  lemma {:induction false} AppendsFailure(j: seq<Event>, e: Event)
    requires Valid(j) && !Terminal(j) && e.body.Failed? && !HasKey(j, KeyOf(e))
    requires e.runId == j[0].runId && e.sequence == |j| + 1
    ensures Append(j, e) == Ok(j + [e])
  {
    FoldFacts(j);
    Extend(j, e);
  }

  // ------------------------------------------------------------ journal frames

  /** A row the append rule accepts is new under both unique indexes of run_events. */
  lemma {:induction false} AcceptedIsNew(j: seq<Event>, e: Event)
    requires Valid(j) && Append(j, e).Ok? && Append(j, e).value != j
    ensures Append(j, e).value == j + [e] && Valid(j + [e]) && (j + [e])[0] == j[0]
    ensures e.sequence == |j| + 1 && !HasKey(j, KeyOf(e))
    ensures forall i :: 0 <= i < |j| ==> j[i].sequence != e.sequence
    ensures e.runId == j[0].runId
  {
    AppendKeepsValid(j, e);
    FoldFacts(j);
  }

  /** An append commits exactly when the append rule takes the event: the sequence check
      and the unique indexes of run_events never refuse what the rule took. */
  lemma {:induction false} AppendEventFacts(s: Store, e: Event)
    requires e.runId in s.runs && e.runId in s.events && RunOk(e.runId, s.runs[e.runId], s.events[e.runId])
    ensures var j := s.events[e.runId];
      AppendEvent(s, e) ==
        match Append(j, e)
        case Err(why) => Err(Refused(why))
        case Ok(k) =>
          if k == j then Ok(s)
          else Ok(s.(events := s.events[e.runId := j + [e]],
                     runs := s.runs[e.runId := s.runs[e.runId].(
                       projection := ProjectRun(j + [e]), lastSequence := |j| + 1)]))
  {
    var j := s.events[e.runId];
    if Append(j, e).Ok? {
      if Append(j, e).value != j {
        AcceptedIsNew(j, e);
      }
    }
  }

  lemma {:induction false} AppendEventKeeps(s: Store, e: Event)
    requires Journaled(s) && AppendEvent(s, e).Ok?
    ensures var t := AppendEvent(s, e).value;
      Journaled(t) && SameRuns(s, t) && t.commands == s.commands && t.artifacts == s.artifacts &&
      e.runId in s.events &&
      (t == s || t.events == s.events[e.runId := s.events[e.runId] + [e]])
  {
    var j := s.events[e.runId];
    AppendEventFacts(s, e);
    if Append(j, e).Ok? && Append(j, e).value != j {
      AcceptedIsNew(j, e);
      var run := s.runs[e.runId].(projection := ProjectRun(j + [e]), lastSequence := |j| + 1);
      Rejournaled(s, e.runId, run, j + [e]);
    }
  }

  lemma {:induction false} Rejournaled(s: Store, r: Id, run: RunRow, j: seq<Event>)
    requires Journaled(s) && r in s.runs && RunOk(r, run, j)
    requires run == s.runs[r].(lastSequence := run.lastSequence, projection := run.projection)
    ensures var t := s.(events := s.events[r := j], runs := s.runs[r := run]);
      Journaled(t) && SameRuns(s, t)
  {
    hide RunOk;
    var t := s.(events := s.events[r := j], runs := s.runs[r := run]);
    assert t.runs.Keys == t.events.Keys;
    forall q | q in t.runs ensures RunOk(q, t.runs[q], t.events[q]) {
      if q != r { assert RunOk(q, s.runs[q], s.events[q]); }
    }
  }

  ghost predicate SameRuns(s: Store, t: Store) {
    s.runs.Keys == t.runs.Keys &&
    forall r :: r in s.runs ==>
      t.runs[r] == s.runs[r].(lastSequence := t.runs[r].lastSequence, projection := t.runs[r].projection)
  }

  // ----------------------------------------------------------- command frames

  lemma {:induction false} AppendOther(c: Id, row: CommandRow, j: seq<Event>, e: Event)
    requires CommandOk(c, row, j) && !OwnedBy(e, c)
    ensures CommandOk(c, row, j + [e])
  {
    FrontLast(j, e);
    var k := j + [e];
    if Uninterrupted(k, c) { UninterruptedPrefix(j, e, c); }
  }

  /** A command's output or failure, recorded when it stops being claimable. */
  lemma {:induction false} AppendFinal(c: Id, row: CommandRow, j: seq<Event>, e: Event)
    requires CommandOk(c, row, j) && (IsRecovery(e) ==> e.source.Replayed?)
    requires row.status == Succeeded || row.status == Dead
    ensures CommandOk(c, row, j + [e])
  {
    FrontLast(j, e);
  }

  lemma {:induction false} TrailFacts(j: seq<Event>, c: Id)
    ensures (forall i :: 0 <= i < |j| ==> !OwnedBy(j[i], c)) ==> Trail(j, c) == []
    ensures Trail(j, c) != [] ==> exists i :: 0 <= i < |j| && j[i].source == Command(c) && IsRecovery(j[i])
  {
    if j != [] {
      TrailFacts(Front(j), c);
      if Trail(Front(j), c) != [] {
        var i :| 0 <= i < |Front(j)| && Front(j)[i].source == Command(c) && IsRecovery(Front(j)[i]);
        assert j[i].source == Command(c) && IsRecovery(j[i]);
      }
      if forall i :: 0 <= i < |j| ==> !OwnedBy(j[i], c) {
        forall i | 0 <= i < |Front(j)| ensures !OwnedBy(Front(j)[i], c) { assert Front(j)[i] == j[i]; }
      }
    }
  }

  /** The last mark of an uninterrupted trail is the last event of the run. */
  lemma {:induction false} TrailEnd(j: seq<Event>, c: Id, row: CommandRow)
    requires CommandOk(c, row, j) && Unfinished(row) && Uninterrupted(j, c) && Trail(j, c) != []
    ensures j != [] && OwnedBy(Last(j), c) && IsRecovery(Last(j))
  {
    TrailFacts(j, c);
    var i :| 0 <= i < |j| && j[i].source == Command(c) && IsRecovery(j[i]);
    if i < |j| - 1 {
      assert OwnedBy(j[i], c);
    }
  }

  lemma {:induction false} UninterruptedPrefix(j: seq<Event>, e: Event, c: Id)
    requires Uninterrupted(j + [e], c)
    ensures Uninterrupted(j, c)
  {
    forall i, n | 0 <= i < n < |j| && OwnedBy(j[i], c) ensures OwnedBy(j[n], c) {
      assert (j + [e])[i] == j[i] && (j + [e])[n] == j[n];
    }
  }

  // -------------------------------------------------------- claim, on a journal

  predicate OwnSources(j: seq<Event>, c: Id) {
    forall i :: 0 <= i < |j| && OwnedBy(j[i], c) && IsRecovery(j[i]) ==> j[i].source == Command(c)
  }

  /** The one situation in which a repeated claim rolls back. */
  predicate Blocked(row: CommandRow, j: seq<Event>, c: Id) {
    row.attempts == 1 && !Auxiliary(row.kind) && Latest(j, Command(c)).None? &&
    (Terminal(j) || HasKey(j, RetryKey(Command(c), 1)))
  }

  function AppendAll(j: seq<Event>, es: seq<Event>): Result<seq<Event>, AppendError> {
    if es == [] then Ok(j)
    else match AppendAll(j, es[..|es| - 1])
      case Err(why) => Err(why)
      case Ok(k) => Append(k, es[|es| - 1])
  }

  lemma {:induction false} UnresolvedIsLive(j: seq<Event>, source: Source)
    requires Valid(j) && Unresolved(j, source).Some?
    ensures !Terminal(j) && Fold(j).Some?
  {
    TerminalIsLast(j);
  }

  /** No recovery event of the command is of a later attempt than its row. */
  lemma {:induction false} OwnAttempts(j: seq<Event>, c: Id, row: CommandRow)
    requires CommandOk(c, row, j)
    ensures forall i :: 0 <= i < |j| && j[i].source == Command(c) && IsRecovery(j[i]) ==>
      j[i].body.attempt <= row.attempts
  {
    forall i | 0 <= i < |j| && j[i].source == Command(c) && IsRecovery(j[i]) ensures j[i].body.attempt <= row.attempts {
      assert OwnedBy(j[i], c);
    }
  }

  lemma {:induction false} LaterKeyIsNew(j: seq<Event>, e: Event)
    requires IsRecovery(e)
    requires forall i :: 0 <= i < |j| && j[i].source == e.source && IsRecovery(j[i]) ==>
      j[i].body.attempt < e.body.attempt
    ensures !HasKey(j, KeyOf(e))
  {
  }

  lemma {:induction false} ResumeAccepted(j: seq<Event>, c: Id, row: CommandRow, e: Event)
    requires Valid(j) && CommandOk(c, row, j) && Unfinished(row) && OwnSources(j, c)
    requires Unresolved(j, Command(c)).Some?
    requires e.source == Command(c) && e.body.Resumed? && e.body.attempt == row.attempts + 1
    requires e.runId == j[0].runId && e.sequence == |j| + 1
    requires IsRecovery(Unresolved(j, Command(c)).value) && e.body.stage == Unresolved(j, Command(c)).value.body.stage
    requires e.body.resumeFrom == Unresolved(j, Command(c)).value.body.resumeFrom
    ensures Append(j, e) == Ok(j + [e])
  {
    hide CommandOk, Valid, Terminal, Fold, HasKey, Unresolved, Latest, Append, OwnSources;
    LatestIsOwn(j, Command(c));
    UnresolvedIsLive(j, Command(c));
    OwnAttempts(j, c, row);
    LaterKeyIsNew(j, e);
    AppendsRecovery(j, e);
  }

  lemma {:induction false} HaltAccepted(j: seq<Event>, c: Id, row: CommandRow, e: Event)
    requires Valid(j) && CommandOk(c, row, j) && Unfinished(row)
    requires e.source == Command(c) && (e.body.Waiting? || e.body.RetryScheduled?) && e.body.attempt == row.attempts
    requires e.runId == j[0].runId && e.sequence == |j| + 1
    requires !Terminal(j) && !HasKey(j, KeyOf(e))
    ensures Append(j, e) == Ok(j + [e])
  {
    forall i | 0 <= i < |j| && j[i].source == e.source && IsRecovery(j[i]) ensures j[i].body.attempt <= e.body.attempt {
      assert OwnedBy(j[i], c);
    }
    AppendsRecovery(j, e);
  }

  /** A leased command has no halt of its current attempt on record. */
  lemma {:induction false} LeasedHaltIsNew(j: seq<Event>, c: Id, row: CommandRow, e: Event)
    requires CommandOk(c, row, j) && row.status == Leased
    requires e.source == Command(c) && (e.body.Waiting? || e.body.RetryScheduled?) && e.body.attempt == row.attempts
    ensures !HasKey(j, KeyOf(e))
  {
    forall i | 0 <= i < |j| ensures KeyOf(j[i]) != KeyOf(e) {
      if j[i].source == Command(c) { assert OwnedBy(j[i], c); }
    }
  }

  /** The halt on record for the first attempt was reported, so it never equals the one
      a claim writes for an expired lease. */
  lemma {:induction false} FirstHaltConflicts(j: seq<Event>, c: Id, row: CommandRow, e: Event)
    requires Valid(j) && CommandOk(c, row, j) && Unfinished(row) && row.attempts == 1
    requires e.runId == j[0].runId && e.source == Command(c) && e.body.RetryScheduled? && e.body.attempt == 1
    requires e.body.schedule.cause == LeaseExpired
    requires Terminal(j) || HasKey(j, KeyOf(e))
    ensures Append(j, e).Err?
  {
    if HasKey(j, KeyOf(e)) {
      forall i | 0 <= i < |j| && KeyOf(j[i]) == KeyOf(e) ensures !SameEffect(j[i], e) {
        assert OwnedBy(j[i], c);
      }
    }
  }

  lemma {:induction false} AppendOne(j: seq<Event>, es: seq<Event>)
    requires |es| == 1 && Append(j, es[0]) == Ok(j + [es[0]])
    ensures AppendAll(j, es) == Ok(j + es)
  {
    assert es[..0] == [];
    assert AppendAll(j, es[..0]) == Ok(j);
    assert es == [es[0]];
  }

  lemma {:induction false} AppendTwo(j: seq<Event>, es: seq<Event>)
    requires |es| == 2 && Append(j, es[0]) == Ok(j + [es[0]])
    requires Append(j + [es[0]], es[1]) == Ok(j + [es[0]] + [es[1]])
    ensures AppendAll(j, es) == Ok(j + es)
  {
    hide Append;
    var k := j + [es[0]];
    var head := es[..1];
    AppendOne(j, head);
    assert j + head == k;
    AppendStep(j, es, k);
    assert k + [es[1]] == j + es;
  }

  lemma {:induction false} AppendStep(j: seq<Event>, es: seq<Event>, k: seq<Event>)
    requires es != [] && AppendAll(j, es[..|es| - 1]) == Ok(k)
    ensures AppendAll(j, es) == Append(k, es[|es| - 1])
  {
  }

  predicate ClaimAfterHalt(j: seq<Event>, c: Id) { Unresolved(j, Command(c)).Some? }

  predicate ClaimAfterExpiry(j: seq<Event>, c: Id, row: CommandRow) {
    Unresolved(j, Command(c)).None? && (Latest(j, Command(c)).Some? || row.attempts == 1)
  }

  lemma {:induction false} ClaimAcceptedAfterHalt(j: seq<Event>, c: Id, row: CommandRow, wall: int)
    requires Valid(j) && CommandOk(c, row, j) && Unfinished(row) && OwnSources(j, c)
    requires row.attempts > 0 && ClaimAfterHalt(j, c)
    ensures var es := ClaimEvents(j, c, j[0].runId, row.kind, row.attempts + 1, wall);
      |es| == 1 && AppendAll(j, es) == Ok(j + es) && !Blocked(row, j, c)
  {
    var es := ClaimEvents(j, c, j[0].runId, row.kind, row.attempts + 1, wall);
    LatestIsOwn(j, Command(c));
    ScansAgreeWithProjector(j, Command(c));
    ResumeAccepted(j, c, row, es[0]);
    AppendOne(j, es);
  }

  /** What a claim after an expired lease appends, and when it can. */
  lemma {:induction false} ClaimAcceptedAfterExpiry(j: seq<Event>, c: Id, row: CommandRow, wall: int)
    requires Valid(j) && CommandOk(c, row, j) && Unfinished(row) && OwnSources(j, c)
    requires row.attempts > 0 && !Auxiliary(row.kind) && ClaimAfterExpiry(j, c, row)
    ensures var es := ClaimEvents(j, c, j[0].runId, row.kind, row.attempts + 1, wall);
      |es| == 2 && (if Blocked(row, j, c) then Append(j, es[0]).Err? else AppendAll(j, es) == Ok(j + es))
  {
    var es := ClaimEvents(j, c, j[0].runId, row.kind, row.attempts + 1, wall);
    var l := Latest(j, Command(c));
    ScansAgreeWithProjector(j, Command(c));
    LatestIsOwn(j, Command(c));
    assert |es| == 2 && KeyOf(es[0]) == RetryKey(Command(c), row.attempts);
    if Blocked(row, j, c) {
      FirstHaltConflicts(j, c, row, es[0]);
    } else {
      if l.Some? {
        TerminalIsLast(j);
        LeasedHaltIsNew(j, c, row, es[0]);
      }
      HaltAccepted(j, c, row, es[0]);
      HaltThenResume(j, c, row, es[0], es[1]);
      AppendTwo(j, es);
    }
  }

  lemma {:induction false} HaltThenResume(j: seq<Event>, c: Id, row: CommandRow, halt: Event, resume: Event)
    requires Valid(j) && Append(j, halt) == Ok(j + [halt])
    requires halt.source == Command(c) && (halt.body.Waiting? || halt.body.RetryScheduled?)
    requires forall i :: 0 <= i < |j| && OwnedBy(j[i], c) ==> OwnEventOk(row, j[i])
    requires halt.body.attempt == row.attempts && resume.source == Command(c) && resume.body.Resumed?
    requires resume.runId == j[0].runId && resume.sequence == |j| + 2
    requires resume.body.attempt == row.attempts + 1 && resume.body.stage == halt.body.stage
    requires resume.body.resumeFrom == halt.body.resumeFrom
    ensures Append(j + [halt], resume) == Ok(j + [halt] + [resume])
  {
    var k := j + [halt];
    FrontLast(j, halt);
    AppendKeepsValid(j, halt);
    TerminalIsLast(k);
    forall i | 0 <= i < |k| && k[i].source == resume.source && IsRecovery(k[i])
      ensures k[i].body.attempt <= row.attempts
    {
      if i < |j| { assert OwnedBy(j[i], c) && k[i] == j[i]; }
    }
    forall i | 0 <= i < |k| ensures KeyOf(k[i]) != KeyOf(resume) {
    }
    AppendsRecovery(k, resume);
  }

  // --------------------------------------------- claim and retry keep the trail

  function MarkOf(e: Event): Mark
    requires IsRecovery(e)
  {
    if e.body.Resumed? then ResumedAt(e.body.attempt) else Halted(e.body.attempt)
  }

  lemma {:induction false} TrailAppend(j: seq<Event>, c: Id, e: Event)
    requires e.source == Command(c) && IsRecovery(e)
    ensures Trail(j + [e], c) == Trail(j, c) + [MarkOf(e)]
    ensures Latest(j + [e], Command(c)) == Some(e)
  {
    FrontLast(j, e);
  }

  lemma {:induction false} ResumedRow(j: seq<Event>, c: Id, row: CommandRow, e: Event)
    requires CommandOk(c, row, j) && Unfinished(row) && OwnSources(j, c) && ClaimAfterHalt(j, c) && row.attempts > 0
    requires e.source == Command(c) && e.body.Resumed? && e.body.attempt == row.attempts + 1
    requires e.body.stage == FailureStage(row.kind) && e.body.resumeFrom == RecoveryCheckpoint(row.kind)
    requires !Auxiliary(row.kind)
    ensures forall token, now :: CommandOk(c, ClaimedRow(row, token, now), j + [e])
  {
    TrailAppend(j, c, e);
    if Uninterrupted(j + [e], c) {
      UninterruptedPrefix(j, e, c);
      LatestIsOwn(j, Command(c));
      var u := Unresolved(j, Command(c)).value;
      var k :| 0 <= k < |j| && j[k] == u;
      assert OwnedBy(j[k], c);
      assert OwnedBy(Last(j), c);
      assert Trail(j, c)[|Trail(j, c)| - 1] == MarkOf(Last(j));
    }
  }

  /** An uninterrupted, unfinished command whose trail has begun ends its run's journal. */
  lemma {:induction false} TrailVisible(j: seq<Event>, c: Id, row: CommandRow)
    requires CommandOk(c, row, j) && Unfinished(row) && OwnSources(j, c) && Uninterrupted(j, c)
    requires !Auxiliary(row.kind)
    ensures Latest(j, Command(c)).None? ==> row.attempts <= 1 && (row.attempts == 1 ==> row.status == Leased)
  {
    if Trail(j, c) != [] {
      TrailEnd(j, c, row);
    }
  }

  lemma {:induction false} ExpiredRow(j: seq<Event>, c: Id, row: CommandRow, halt: Event, resume: Event)
    requires CommandOk(c, row, j) && Unfinished(row) && OwnSources(j, c) && ClaimAfterExpiry(j, c, row)
    requires row.attempts > 0 && !Auxiliary(row.kind) && Fold(j).Some?
    requires halt.source == Command(c) && halt.body.RetryScheduled? && halt.body.attempt == row.attempts
    requires halt.body.stage == FailureStage(row.kind) && halt.body.resumeFrom == RecoveryCheckpoint(row.kind)
    requires resume.source == Command(c) && resume.body.Resumed? && resume.body.attempt == row.attempts + 1
    requires resume.body.stage == FailureStage(row.kind) && resume.body.resumeFrom == RecoveryCheckpoint(row.kind)
    ensures forall token, now :: CommandOk(c, ClaimedRow(row, token, now), j + [halt] + [resume])
  {
    hide Fold, Terminal, Uninterrupted, OwnSources, Latest, Unresolved, Trail, Auxiliary;
    var k := j + [halt];
    TrailAppend(j, c, halt);
    TrailAppend(k, c, resume);
    ExpiredTrail(j, c, row, halt, resume);
  }

  lemma {:induction false} ExpiredTrail(j: seq<Event>, c: Id, row: CommandRow, halt: Event, resume: Event)
    requires CommandOk(c, row, j) && Unfinished(row) && OwnSources(j, c) && ClaimAfterExpiry(j, c, row)
    requires row.attempts > 0 && !Auxiliary(row.kind) && Fold(j).Some?
    ensures Uninterrupted(j + [halt] + [resume], c) ==>
      Trail(j, c) == ExpectedTrail(row.status, row.attempts) && row.status == Leased
  {
    var k := j + [halt];
    ScansAgreeWithProjector(j, Command(c));
    if Uninterrupted(k + [resume], c) {
      UninterruptedPrefix(k, resume, c);
      UninterruptedPrefix(j, halt, c);
      TrailVisible(j, c, row);
    }
  }

  /** A claim that appends nothing. */
  lemma {:induction false} QuietRow(j: seq<Event>, c: Id, row: CommandRow)
    requires CommandOk(c, row, j) && Unfinished(row) && OwnSources(j, c)
    requires row.attempts == 0 || Auxiliary(row.kind) || (Latest(j, Command(c)).None? && row.attempts > 1)
    ensures forall token, now :: CommandOk(c, ClaimedRow(row, token, now), j)
  {
    LatestIsOwn(j, Command(c));
    var latest := Latest(j, Command(c));
    if latest.Some? {
      var k :| 0 <= k < |j| && j[k] == latest.value;
      assert OwnedBy(j[k], c);
    }
    if !Auxiliary(row.kind) && Uninterrupted(j, c) {
      TrailVisible(j, c, row);
    }
  }

  /** The row a reported failure leaves, before any event is written. */
  lemma {:induction false} HaltedRow(j: seq<Event>, c: Id, row: CommandRow, failure: Failure, now: int, e: Event)
    requires CommandOk(c, row, j) && row.status == Leased && OwnSources(j, c) && failure.retryable &&
      !Auxiliary(row.kind)
    requires e.source == Command(c) && (e.body.Waiting? || e.body.RetryScheduled?) && e.body.attempt == row.attempts
    requires e.body.schedule.cause != LeaseExpired
    requires e.body.stage == FailureStage(row.kind) && e.body.resumeFrom == RecoveryCheckpoint(row.kind)
    ensures CommandOk(c, RetriedRow(row, failure, now), j + [e])
  {
    TrailAppend(j, c, e);
    if Uninterrupted(j + [e], c) {
      UninterruptedPrefix(j, e, c);
    }
  }

  lemma {:induction false} StoppedRow(j: seq<Event>, c: Id, row: CommandRow, after: CommandRow)
    requires CommandOk(c, row, j) && Unfinished(row) && OwnSources(j, c)
    requires after == row.(status := after.status, availableAt := after.availableAt, lease := None,
      lastError := after.lastError)
    requires after.status == Dead || after.status == Succeeded || after.status == Cancelled ||
             (after.status == Queued && Auxiliary(row.kind))
    ensures CommandOk(c, after, j)
  {
    LatestIsOwn(j, Command(c));
    var latest := Latest(j, Command(c));
    if latest.Some? {
      var k :| 0 <= k < |j| && j[k] == latest.value;
      assert OwnedBy(j[k], c);
    }
  }

  // ---------------------------------------------------------------- store steps

  /** The invariant with the row of one command in transit. */
  ghost predicate InvExcept(s: Store, c: Id) {
    Journaled(s) && Attributed(s) && KeysUnique(s) &&
    (forall d :: d in s.commands ==> s.commands[d].runId in s.events) &&
    (forall d :: d in s.commands && d != c ==> CommandOk(d, s.commands[d], s.events[s.commands[d].runId]))
  }

  predicate SameIdentity(a: CommandRow, b: CommandRow) {
    a.projectId == b.projectId && a.runId == b.runId && a.key == b.key && a.kind == b.kind && a.payload == b.payload
  }

  /** Replayed events come only with the completion: until then a command's recovery
      events are under its own id. */
  lemma {:induction false} OwnSourcesOf(j: seq<Event>, c: Id, row: CommandRow)
    requires CommandOk(c, row, j) && Unfinished(row)
    ensures OwnSources(j, c)
  {
    forall i | 0 <= i < |j| && OwnedBy(j[i], c) && IsRecovery(j[i]) ensures j[i].source == Command(c) {
      assert OwnEventOk(row, j[i]);
    }
  }

  lemma {:induction false} AttributedMono(s: Store, t: Store)
    requires Attributed(s) && t.events == s.events
    requires forall d :: d in s.commands ==> d in t.commands && t.commands[d].runId == s.commands[d].runId
    ensures Attributed(t)
  {
    forall r, e | r in t.events && e in t.events[r] ensures SourceOk(t, r, e) {
      assert SourceOk(s, r, e);
    }
  }

  lemma {:induction false} JournaledMono(s: Store, t: Store)
    requires Journaled(s) && t.events == s.events && t.runs == s.runs
    ensures Journaled(t)
  {
    hide RunOk;
  }

  lemma {:induction false} ReplaceUnique(s: Store, c: Id, row: CommandRow)
    requires KeysUnique(s) && c in s.commands && SameIdentity(row, s.commands[c])
    requires s.commands[c].status == Cancelled ==> row.status == Cancelled
    ensures KeysUnique(s.(commands := s.commands[c := row]))
  {
  }

  lemma {:induction false} ReplaceRow(s: Store, c: Id, row: CommandRow)
    requires InvExcept(s, c) && c in s.commands && SameIdentity(row, s.commands[c])
    requires s.commands[c].status == Cancelled ==> row.status == Cancelled
    ensures InvExcept(s.(commands := s.commands[c := row]), c)
  {
    hide CommandOk, RunOk, KeysUnique, SourceOk;
    var t := s.(commands := s.commands[c := row]);
    AttributedMono(s, t);
    ReplaceUnique(s, c, row);
  }

  lemma {:induction false} AppendOwned(s: Store, e: Event, c: Id)
    requires InvExcept(s, c) && c in s.commands && s.commands[c].runId == e.runId
    requires OwnedBy(e, c) && AppendEvent(s, e).Ok?
    ensures InvExcept(AppendEvent(s, e).value, c)
  {
    hide CommandOk, RunOk, AppendEvent;
    var t := AppendEvent(s, e).value;
    AppendEventKeeps(s, e);
    if t != s {
      forall r, x | r in t.events && x in t.events[r] ensures SourceOk(t, r, x) {
        if x in s.events[r] { assert SourceOk(s, r, x); }
      }
      forall d | d in t.commands && d != c ensures CommandOk(d, t.commands[d], t.events[t.commands[d].runId]) {
        if t.commands[d].runId == e.runId {
          AppendOther(d, s.commands[d], s.events[e.runId], e);
        }
      }
    }
  }

  ghost predicate Journals(s: Store, t: Store, r: Id, j: seq<Event>) {
    t.commands == s.commands && t.artifacts == s.artifacts && t.events == s.events[r := j] && SameRuns(s, t)
  }

  /** One event of a command reaches the journal of its run exactly when the append rule takes it. */
  lemma {:induction false} CommitOwned(s: Store, c: Id, e: Event)
    requires InvExcept(s, c) && c in s.commands && s.commands[c].runId == e.runId
    requires OwnedBy(e, c)
    ensures Append(s.events[e.runId], e).Err? ==> AppendEvent(s, e).Err?
    ensures Append(s.events[e.runId], e).Ok? ==>
      AppendEvent(s, e).Ok? && InvExcept(AppendEvent(s, e).value, c) &&
      Journals(s, AppendEvent(s, e).value, e.runId, Append(s.events[e.runId], e).value)
  {
    hide CommandOk, AppendEvent, Append, RunOk;
    var j := s.events[e.runId];
    assert RunOk(e.runId, s.runs[e.runId], j);
    AppendFacts(s, e);
    if Append(j, e).Ok? {
      AppendOwned(s, e, c);
      AppendEventKeeps(s, e);
      assert s.events[e.runId := j] == s.events;
    }
  }

  lemma {:induction false} AppendFacts(s: Store, e: Event)
    requires e.runId in s.runs && e.runId in s.events && RunOk(e.runId, s.runs[e.runId], s.events[e.runId])
    ensures Append(s.events[e.runId], e).Err? ==> AppendEvent(s, e).Err?
    ensures Append(s.events[e.runId], e).Ok? ==>
      AppendEvent(s, e).Ok? &&
      AppendEvent(s, e).value.events == s.events[e.runId := Append(s.events[e.runId], e).value]
  {
    AppendEventFacts(s, e);
    var j := s.events[e.runId];
    hide AppendEvent;
    assert s.events[e.runId := j] == s.events;
    if Append(j, e).Ok? && Append(j, e).value != j {
      AppendKeepsValid(j, e);
    }
  }

  lemma {:induction false} AppendFirst(s: Store, es: seq<Event>)
    requires es != [] && AppendEvent(s, es[0]).Ok?
    ensures |es| == 1 ==> AppendEvents(s, es) == AppendEvent(s, es[0])
    ensures |es| == 2 ==> AppendEvents(s, es) == AppendEvent(AppendEvent(s, es[0]).value, es[1])
  {
    hide AppendEvent;
    SingleAppend(s, es[..1]);
  }

  lemma {:induction false} AppendAllFirst(j: seq<Event>, es: seq<Event>)
    requires es != [] && Append(j, es[0]).Ok?
    ensures |es| == 1 ==> AppendAll(j, es) == Append(j, es[0])
    ensures |es| == 2 ==> AppendAll(j, es) == Append(Append(j, es[0]).value, es[1])
  {
    hide Append;
    assert es[..1][..0] == [] && AppendAll(j, []) == Ok(j);
    assert AppendAll(j, es[..1]) == Append(j, es[0]);
    assert |es| == 1 ==> es[..1] == es;
  }

  lemma {:induction false} CommitOwnedPair(s: Store, c: Id, es: seq<Event>)
    requires InvExcept(s, c) && c in s.commands && 1 <= |es| <= 2
    requires forall e :: e in es ==> e.runId == s.commands[c].runId && e.source == Command(c)
    requires Append(s.events[s.commands[c].runId], es[0]).Err? || AppendAll(s.events[s.commands[c].runId], es).Ok?
    ensures Append(s.events[s.commands[c].runId], es[0]).Err? ==> AppendEvents(s, es).Err?
    ensures Append(s.events[s.commands[c].runId], es[0]).Ok? ==>
      AppendEvents(s, es).Ok? && InvExcept(AppendEvents(s, es).value, c) &&
      Journals(s, AppendEvents(s, es).value, s.commands[c].runId, AppendAll(s.events[s.commands[c].runId], es).value)
  {
    hide CommandOk, AppendEvent, AppendEvents, Append, AppendAll, RunOk, Attributed, KeysUnique, Journaled;
    var r := s.commands[c].runId;
    var j := s.events[r];
    CommitOwned(s, c, es[0]);
    if Append(j, es[0]).Err? {
      HeadFails(s, es[0], es);
    } else {
      AppendFirst(s, es);
      AppendAllFirst(j, es);
      if |es| == 2 {
        CommitOwned(AppendEvent(s, es[0]).value, c, es[1]);
      }
    }
  }

  lemma {:induction false} Restored(s: Store, c: Id)
    requires InvExcept(s, c) && c in s.commands
    requires CommandOk(c, s.commands[c], s.events[s.commands[c].runId])
    ensures Inv(s)
  {
    hide CommandOk, RunOk, SourceOk, KeysUnique;
  }

  // -------------------------------------------------------------------- claim

  lemma {:induction false} ClaimEventShape(j: seq<Event>, c: Id, row: CommandRow, r: Id, wall: int)
    requires CommandOk(c, row, j) && Unfinished(row) && OwnSources(j, c) && Fold(j).Some? && row.attempts > 0
    ensures var es := ClaimEvents(j, c, r, row.kind, row.attempts + 1, wall);
      (forall e :: e in es ==>
        (e.runId == r && e.source == Command(c) && IsRecovery(e) &&
         e.body.stage == FailureStage(row.kind) && e.body.resumeFrom == RecoveryCheckpoint(row.kind))) &&
      (ClaimAfterHalt(j, c) ==> (|es| == 1 && es[0].body.Resumed? && es[0].body.attempt == row.attempts + 1)) &&
      (ClaimAfterExpiry(j, c, row) ==>
        (|es| == 2 && es[0].body.RetryScheduled? && es[0].body.attempt == row.attempts &&
         es[1].body.Resumed? && es[1].body.attempt == row.attempts + 1)) &&
      (!ClaimAfterHalt(j, c) && !ClaimAfterExpiry(j, c, row) ==> es == [])
  {
    var latest := Latest(j, Command(c));
    ScansAgreeWithProjector(j, Command(c));
    LatestIsOwn(j, Command(c));
    if latest.Some? {
      var k :| 0 <= k < |j| && j[k] == latest.value;
      assert OwnedBy(j[k], c);
    }
  }

  /** t differs from s in the commands and at the end of one journal. */
  ghost predicate Grown(s: Store, t: Store, r: Id) {
    t.artifacts == s.artifacts && SameRuns(s, t) && t.events.Keys == s.events.Keys && r in s.events &&
    s.events[r] <= t.events[r] && (forall q :: q in s.events && q != r ==> t.events[q] == s.events[q])
  }

  ghost predicate ClaimDone(s: Store, t: Store, c: Id, after: CommandRow) {
    Inv(t) && t.commands == s.commands[c := after] && Grown(s, t, after.runId)
  }

  lemma {:induction false} QuietClaim(s: Store, c: Id, after: CommandRow)
    requires c in s.commands && after.runId in s.events
    requires InvExcept(s.(commands := s.commands[c := after]), c) && CommandOk(c, after, s.events[after.runId])
    ensures ClaimDone(s, s.(commands := s.commands[c := after]), c, after)
  {
    hide CommandOk, InvExcept, Inv;
    Restored(s.(commands := s.commands[c := after]), c);
  }

  lemma {:induction false} LoudClaim(s: Store, c: Id, after: CommandRow, es: seq<Event>)
    requires c in s.commands && after.runId in s.events && 1 <= |es| <= 2
    requires InvExcept(s.(commands := s.commands[c := after]), c)
    requires forall e :: e in es ==> e.runId == after.runId && e.source == Command(c)
    requires AppendAll(s.events[after.runId], es) == Ok(s.events[after.runId] + es)
    requires CommandOk(c, after, s.events[after.runId] + es)
    ensures var t := s.(commands := s.commands[c := after]);
      AppendEvents(t, es).Ok? && ClaimDone(s, AppendEvents(t, es).value, c, after)
  {
    hide CommandOk, InvExcept, AppendEvents, Append, RunOk, Inv, AppendAll;
    var t := s.(commands := s.commands[c := after]);
    AppendAllOk(s.events[after.runId], es);
    CommitOwnedPair(t, c, es);
    Restored(AppendEvents(t, es).value, c);
  }

  lemma {:induction false} AppendAllOk(j: seq<Event>, es: seq<Event>)
    requires 1 <= |es| <= 2 && AppendAll(j, es).Ok?
    ensures Append(j, es[0]).Ok?
  {
    hide Append;
    assert AppendAll(j, []) == Ok(j);
    if |es| == 1 { assert es[..0] == []; } else { assert es[..1][..0] == []; }
  }

  lemma {:induction false} ClaimSetup(s: Store, c: Id, after: CommandRow, token: Id, now: int)
    requires Inv(s) && c in s.commands && Claimable(s.commands[c], now) &&
      after == ClaimedRow(s.commands[c], token, now)
    ensures var row := s.commands[c];
      row.runId in s.events && after.runId == row.runId && Unfinished(row) &&
      Valid(s.events[row.runId]) && Fold(s.events[row.runId]).Some? && s.events[row.runId] != [] &&
      s.events[row.runId][0].runId == row.runId && CommandOk(c, row, s.events[row.runId]) &&
      OwnSources(s.events[row.runId], c) && InvExcept(s.(commands := s.commands[c := after]), c)
  {
    var row := s.commands[c];
    assert RunOk(row.runId, s.runs[row.runId], s.events[row.runId]);
    OwnSourcesOf(s.events[row.runId], c, row);
    hide CommandOk, RunOk, KeysDistinct;
    ReplaceRow(s, c, after);
  }

  /** The recovery events of a repeated claim reach the journal unless the claim is blocked. */
  lemma {:induction false} RepeatedClaim(s: Store, c: Id, after: CommandRow, token: Id, now: int, wall: int)
    requires Inv(s) && c in s.commands && Claimable(s.commands[c], now) &&
      after == ClaimedRow(s.commands[c], token, now)
    requires s.commands[c].attempts > 0 && !Auxiliary(s.commands[c].kind)
    ensures var row := s.commands[c]; var j := s.events[row.runId];
      var appended := AppendEvents(s.(commands := s.commands[c := after]),
                                   ClaimEvents(j, c, row.runId, row.kind, row.attempts + 1, wall));
      if Blocked(row, j, c) then appended.Err? else appended.Ok? && ClaimDone(s, appended.value, c, after)
  {
    hide *;
    var row := s.commands[c];
    var r := row.runId;
    ClaimSetup(s, c, after, token, now);
    var j := s.events[r];
    var t := s.(commands := s.commands[c := after]);
    var es := ClaimEvents(j, c, r, row.kind, row.attempts + 1, wall);
    ClaimEventShape(j, c, row, r, wall);
    if ClaimAfterHalt(j, c) {
      ClaimAcceptedAfterHalt(j, c, row, wall);
      ResumedRow(j, c, row, es[0]);
      assert j + es == j + [es[0]];
      LoudClaim(s, c, after, es);
    } else if ClaimAfterExpiry(j, c, row) {
      ClaimAcceptedAfterExpiry(j, c, row, wall);
      if Blocked(row, j, c) {
        CommitOwnedPair(t, c, es);
      } else {
        ExpiredRow(j, c, row, es[0], es[1]);
        assert j + es == j + [es[0]] + [es[1]];
        LoudClaim(s, c, after, es);
      }
    } else {
      NothingToRecord(j, c, row);
      QuietRow(j, c, row);
      QuietClaim(s, c, after);
      SingleAppend(t, es);
    }
  }

  lemma {:induction false} NothingToRecord(j: seq<Event>, c: Id, row: CommandRow)
    requires !ClaimAfterHalt(j, c) && !ClaimAfterExpiry(j, c, row) && row.attempts > 0
    ensures Latest(j, Command(c)).None? && row.attempts > 1 && !Blocked(row, j, c)
  {
  }

  /** A claim commits exactly when the command is not blocked. What it commits keeps the
      invariant, leases the row under the new token, and only extends the run's journal. */
  lemma {:induction false} ClaimFacts(s: Store, c: Id, token: Id, now: int, wall: int)
    requires Inv(s) && c in s.commands && Claimable(s.commands[c], now)
    ensures ClaimTx(s, c, token, now, wall).Ok? <==> !Blocked(s.commands[c], s.events[s.commands[c].runId], c)
    ensures ClaimTx(s, c, token, now, wall).Ok? ==>
      ClaimDone(s, ClaimTx(s, c, token, now, wall).value, c, ClaimedRow(s.commands[c], token, now))
  {
    hide Inv, CommandOk, ClaimDone, ClaimTx, Blocked;
    if s.commands[c].attempts == 0 || Auxiliary(s.commands[c].kind) {
      FirstClaimKeeps(s, c, token, now, wall);
    } else {
      RepeatedClaimKeeps(s, c, token, now, wall);
    }
  }

  lemma {:induction false} RepeatedClaimKeeps(s: Store, c: Id, token: Id, now: int, wall: int)
    requires Inv(s) && c in s.commands && Claimable(s.commands[c], now)
    requires s.commands[c].attempts > 0 && !Auxiliary(s.commands[c].kind)
    ensures s.commands[c].runId in s.events
    ensures ClaimTx(s, c, token, now, wall).Ok? <==> !Blocked(s.commands[c], s.events[s.commands[c].runId], c)
    ensures ClaimTx(s, c, token, now, wall).Ok? ==>
      ClaimDone(s, ClaimTx(s, c, token, now, wall).value, c, ClaimedRow(s.commands[c], token, now))
  {
    hide InvExcept, Inv, CommandOk, ClaimDone, OwnSources, Valid, Fold, Blocked, AppendEvents, ClaimEvents;
    var after := ClaimedRow(s.commands[c], token, now);
    ClaimSetup(s, c, after, token, now);
    RepeatedClaim(s, c, after, token, now, wall);
  }

  lemma {:induction false} FirstClaimKeeps(s: Store, c: Id, token: Id, now: int, wall: int)
    requires Inv(s) && c in s.commands && Claimable(s.commands[c], now)
    requires s.commands[c].attempts == 0 || Auxiliary(s.commands[c].kind)
    ensures s.commands[c].runId in s.events && !Blocked(s.commands[c], s.events[s.commands[c].runId], c)
    ensures var after := ClaimedRow(s.commands[c], token, now);
      ClaimTx(s, c, token, now, wall) == Ok(s.(commands := s.commands[c := after])) &&
      ClaimDone(s, s.(commands := s.commands[c := after]), c, after)
  {
    hide InvExcept, Inv, CommandOk, ClaimDone, OwnSources, Valid, Fold, Terminal, HasKey, Latest, AppendEvents,
         ClaimEvents;
    var row := s.commands[c];
    var after := ClaimedRow(row, token, now);
    ClaimSetup(s, c, after, token, now);
    QuietRow(s.events[row.runId], c, row);
    QuietClaim(s, c, after);
  }

  // -------------------------------------------------------------------- retry

  lemma {:induction false} CancelUnique(s: Store, c: Id, r: Id)
    requires KeysUnique(s)
    ensures KeysUnique(s.(commands := CancelOthers(s.commands, c, r)))
  {
    var t := s.(commands := CancelOthers(s.commands, c, r));
    forall d | d in t.commands
      ensures SameIdentity(t.commands[d], s.commands[d]) &&
        (t.commands[d].status == Cancelled || t.commands[d] == s.commands[d])
    {
    }
  }

  lemma {:induction false} CancelRow(s: Store, c: Id, r: Id, d: Id)
    requires Inv(s) && d in s.commands
    ensures CommandOk(d, CancelOthers(s.commands, c, r)[d], s.events[s.commands[d].runId])
  {
    assert CommandOk(d, s.commands[d], s.events[s.commands[d].runId]);
    hide CommandOk, Inv, OwnSources;
    if CancelOthers(s.commands, c, r)[d] != s.commands[d] {
      OwnSourcesOf(s.events[s.commands[d].runId], d, s.commands[d]);
      StoppedRow(s.events[s.commands[d].runId], d, s.commands[d], CancelOthers(s.commands, c, r)[d]);
    }
  }

  lemma {:induction false} CancelKeeps(s: Store, c: Id, r: Id)
    requires Inv(s)
    ensures Inv(s.(commands := CancelOthers(s.commands, c, r)))
  {
    hide CommandOk, RunOk, OwnSources, KeysUnique;
    CancelUnique(s, c, r);
    var t := s.(commands := CancelOthers(s.commands, c, r));
    forall d | d in t.commands ensures CommandOk(d, t.commands[d], t.events[t.commands[d].runId]) {
      CancelRow(s, c, r, d);
    }
    AttributedMono(s, t);
  }

  /** A leased command has no milestone or failure of its own on record. */
  lemma {:induction false} LeasedEffectIsNew(j: seq<Event>, c: Id, row: CommandRow, e: Event)
    requires CommandOk(c, row, j) && Unfinished(row) && e.source == Command(c) && e.body.Failed?
    ensures !HasKey(j, KeyOf(e))
  {
    forall i | 0 <= i < |j| ensures KeyOf(j[i]) != KeyOf(e) {
      if j[i].source == Command(c) { assert OwnedBy(j[i], c); }
    }
  }

  lemma {:induction false} LeaseSetup(s: Store, c: Id, token: Id, now: int, after: CommandRow)
    requires Inv(s) && HoldsLease(s, c, token, now) && SameIdentity(after, s.commands[c])
    ensures var row := s.commands[c]; var j := s.events[row.runId];
      row.runId in s.runs && row.runId in s.events && after.runId == row.runId &&
      Unfinished(row) && row.status == Leased && row.attempts > 0 &&
      Valid(j) && Fold(j).Some? && j != [] && j[0].runId == row.runId && CommandOk(c, row, j) && OwnSources(j, c) &&
      s.runs[row.runId].lastSequence == |j| && s.runs[row.runId].projection.Some? &&
      (s.runs[row.runId].projection.value.terminal <==> Terminal(j)) &&
      InvExcept(s.(commands := s.commands[c := after]), c)
  {
    var row := s.commands[c];
    var j := s.events[row.runId];
    assert RunOk(row.runId, s.runs[row.runId], j);
    assert CommandOk(c, row, j);
    ProjectionTerminal(j);
    OwnSourcesOf(j, c, row);
    hide CommandOk, RunOk, KeysDistinct;
    ReplaceRow(s, c, after);
  }

  lemma {:induction false} HaltShape(j: seq<Event>, c: Id, row: CommandRow, failure: Failure, now: int, wall: int)
    requires failure.retryable
    ensures var after := RetriedRow(row, failure, now); var e := HaltEvent(j, c, after, failure, wall);
      SameIdentity(after, row) && IsRecovery(e) && !e.body.Resumed? && e.source == Command(c) && OwnedBy(e, c) &&
      e.runId == row.runId && e.sequence == |j| + 1 && e.body.attempt == row.attempts &&
      e.body.stage == FailureStage(row.kind) && e.body.resumeFrom == RecoveryCheckpoint(row.kind) &&
      e.body.schedule.cause != LeaseExpired
  {
  }

  lemma {:induction false} HaltedCommit(s: Store, c: Id, token: Id, failure: Failure, now: int, wall: int)
    requires Inv(s) && HoldsLease(s, c, token, now) && failure.retryable && !Auxiliary(s.commands[c].kind)
    ensures var row := s.commands[c]; var j := s.events[row.runId];
      var after := RetriedRow(row, failure, now);
      var appended := AppendEvent(s.(commands := s.commands[c := after]), HaltEvent(j, c, after, failure, wall));
      if Terminal(j) then appended.Err? else appended.Ok? && ClaimDone(s, appended.value, c, after)
  {
    hide CommandOk, AppendEvent, InvExcept, Inv, Append, Valid, Fold, Terminal, HasKey, HaltEvent, RetriedRow,
      OwnSources;
    var row := s.commands[c];
    var after := RetriedRow(row, failure, now);
    HaltShape([], c, row, failure, now, wall);
    LeaseSetup(s, c, token, now, after);
    var j := s.events[row.runId];
    HaltShape(j, c, row, failure, now, wall);
    var e := HaltEvent(j, c, after, failure, wall);
    var t := s.(commands := s.commands[c := after]);
    LeasedHaltIsNew(j, c, row, e);
    CommitOwned(t, c, e);
    if Terminal(j) {
      LateAppendFails(j, e);
    } else {
      HaltAccepted(j, c, row, e);
      HaltedRow(j, c, row, failure, now, e);
      Restored(AppendEvent(t, e).value, c);
    }
  }

  lemma {:induction false} LateAppendFails(j: seq<Event>, e: Event)
    requires Terminal(j) && !HasKey(j, KeyOf(e))
    ensures Append(j, e).Err?
  {
  }

  lemma {:induction false} FailureEnds(j: seq<Event>, e: Event)
    requires e.body.Failed?
    ensures Terminal(j + [e])
  {
    assert Ends((j + [e])[|j|]);
  }

  lemma {:induction false} FailedCommit(s: Store, c: Id, token: Id, failure: Failure, now: int, wall: int)
    requires Inv(s) && HoldsLease(s, c, token, now) && !failure.retryable && !Auxiliary(s.commands[c].kind)
    ensures var after := RetriedRow(s.commands[c], failure, now);
      var failed := FailRun(s.(commands := s.commands[c := after]), c, after, failure, wall);
      failed.Ok? && Inv(failed.value) && Grown(s, failed.value, after.runId) &&
      failed.value.commands == CancelOthers(s.commands[c := after], c, after.runId) &&
      Terminal(failed.value.events[after.runId])
  {
    hide CommandOk, AppendEvent, InvExcept, Inv, Append, Valid, Fold, Terminal, HasKey, OwnSources, CancelOthers;
    var row := s.commands[c];
    var after := RetriedRow(row, failure, now);
    LeaseSetup(s, c, token, now, after);
    var j := s.events[row.runId];
    var t := s.(commands := s.commands[c := after]);
    var e := Event(row.runId, |j| + 1, Command(c), wall, Failed(FailureStage(row.kind), failure.code));
    LeasedEffectIsNew(j, c, row, e);
    StoppedRow(j, c, row, after);
    AppendFinal(c, after, j, e);
    if Terminal(j) {
      Restored(t, c);
      CancelKeeps(t, c, row.runId);
    } else {
      AppendsFailure(j, e);
      FailureEnds(j, e);
      CommitOwned(t, c, e);
      Restored(AppendEvent(t, e).value, c);
      CancelKeeps(AppendEvent(t, e).value, c, row.runId);
    }
  }

  /** A reported failure commits exactly for the holder of an unexpired lease, except that
      a retryable failure of a run that has already ended rolls back. */
  lemma {:induction false} RetryFacts(s: Store, c: Id, token: Id, failure: Failure, now: int, wall: int)
    requires Inv(s) && !(failure.retryable && failure.terminal)
    ensures RetryTx(s, c, token, failure, now, wall).Ok? <==>
      HoldsLease(s, c, token, now) &&
      (Auxiliary(s.commands[c].kind) || !failure.retryable || !Terminal(s.events[s.commands[c].runId]))
    ensures RetryTx(s, c, token, failure, now, wall).Ok? ==>
      var t := RetryTx(s, c, token, failure, now, wall).value;
      var after := RetriedRow(s.commands[c], failure, now);
      Inv(t) && Grown(s, t, after.runId) &&
      (if failure.terminal && !Auxiliary(after.kind)
       then Terminal(t.events[after.runId]) && t.commands == CancelOthers(s.commands[c := after], c, after.runId)
       else t.commands == s.commands[c := after])
  {
    hide CommandOk, AppendEvent, InvExcept, Inv, Append, Valid, Fold, Terminal, OwnSources, CancelOthers, FailRun,
      Grown;
    if HoldsLease(s, c, token, now) {
      var row := s.commands[c];
      var after := RetriedRow(row, failure, now);
      LeaseSetup(s, c, token, now, after);
      var j := s.events[row.runId];
      if Auxiliary(row.kind) || !failure.retryable {
        StoppedRow(j, c, row, after);
        QuietClaim(s, c, after);
        if !Auxiliary(row.kind) {
          FailedCommit(s, c, token, failure, now, wall);
        }
      } else {
        HaltedCommit(s, c, token, failure, now, wall);
      }
    }
  }

  // --------------------------------------------------- inserts and completion

  lemma {:induction false} NoOwnEvents(c: Id, row: CommandRow, j: seq<Event>)
    requires NewRow(row) && forall i :: 0 <= i < |j| ==> !OwnedBy(j[i], c)
    ensures CommandOk(c, row, j)
  {
    LatestIsOwn(j, Command(c));
    TrailFacts(j, c);
  }

  lemma {:induction false} FreshRow(s: Store, r: Id, id: Id, row: CommandRow)
    requires Attributed(s) && r in s.events && id !in s.commands && NewRow(row)
    ensures CommandOk(id, row, s.events[r])
  {
    var j := s.events[r];
    forall i | 0 <= i < |j| ensures !OwnedBy(j[i], id) {
      assert SourceOk(s, r, j[i]);
    }
    NoOwnEvents(id, row, j);
  }

  lemma {:induction false} InsertShape(s: Store, id: Id, row: CommandRow)
    requires InsertCommand(s, id, row).Ok?
    ensures var t := InsertCommand(s, id, row).value;
      t == s || (id !in s.commands && row.runId in s.runs && t == s.(commands := s.commands[id := row]))
  {
  }

  lemma {:induction false} InsertUnique(s: Store, id: Id, row: CommandRow)
    requires KeysUnique(s) && InsertCommand(s, id, row).Ok?
    ensures KeysUnique(InsertCommand(s, id, row).value)
  {
    var t := InsertCommand(s, id, row).value;
    if t != s {
      assert !HasIntent(s, row.projectId, row.key);
      if HoldsSubmission(row, row.runId) { assert !HasSubmission(s, row.runId); }
      forall d | d in s.commands
        ensures s.commands[d].projectId != row.projectId || s.commands[d].key != row.key
        ensures !(HoldsSubmission(row, row.runId) && HoldsSubmission(s.commands[d], row.runId))
      {
      }
    }
  }

  lemma {:induction false} InsertKeeps(s: Store, id: Id, row: CommandRow, c: Id)
    requires InvExcept(s, c) && NewRow(row) && InsertCommand(s, id, row).Ok?
    ensures var t := InsertCommand(s, id, row).value;
      InvExcept(t, c) && t == s.(commands := t.commands) && s.commands.Keys <= t.commands.Keys &&
      (forall d :: d in s.commands ==> t.commands[d] == s.commands[d])
  {
    hide CommandOk, RunOk, InsertCommand, KeysUnique, NewRow, Attributed, Journaled;
    var t := InsertCommand(s, id, row).value;
    InsertShape(s, id, row);
    InsertUnique(s, id, row);
    if t != s {
      RunRowsJournaled(s, row.runId);
      FreshRow(s, row.runId, id, row);
      AttributedMono(s, t);
      JournaledMono(s, t);
    }
  }

  lemma {:induction false} RunRowsJournaled(s: Store, r: Id)
    requires Journaled(s) && r in s.runs
    ensures r in s.events
  {
  }

  lemma {:induction false} InsertKeepsAll(s: Store, id: Id, row: CommandRow)
    requires Inv(s) && NewRow(row) && InsertCommand(s, id, row).Ok?
    ensures Inv(InsertCommand(s, id, row).value)
  {
    hide CommandOk, RunOk, KeysUnique, NewRow, Attributed;
    var t := InsertCommand(s, id, row).value;
    InsertShape(s, id, row);
    if t != s {
      InsertKeeps(s, id, row, id);
      FreshRow(s, row.runId, id, row);
      Restored(t, id);
    }
  }

  lemma {:induction false} InsertAllKeep(s: Store, items: seq<NewCommand>, c: Id)
    requires InvExcept(s, c) && c in s.commands && InsertCommands(s, items).Ok?
    requires forall n :: n in items ==> NewRow(n.row)
    ensures var t := InsertCommands(s, items).value;
      InvExcept(t, c) && t == s.(commands := t.commands) && s.commands.Keys <= t.commands.Keys &&
      (forall d :: d in s.commands ==> t.commands[d] == s.commands[d])
  {
    hide InvExcept, InsertCommand, NewRow;
    if items != [] {
      var rest := items[..|items| - 1];
      InsertAllKeep(s, rest, c);
      assert items[|items| - 1] in items;
      InsertKeeps(InsertCommands(s, rest).value, items[|items| - 1].id, items[|items| - 1].row, c);
    }
  }

  lemma {:induction false} StockOnly(s: Store, items: seq<Artifact>)
    ensures var t := InsertArtifacts(s, items);
      t == s.(artifacts := t.artifacts) && s.artifacts.Keys <= t.artifacts.Keys &&
      (forall k :: k in s.artifacts ==> t.artifacts[k] == s.artifacts[k]) &&
      (forall a :: a in items ==> a.key in t.artifacts)
  {
    if items != [] {
      StockOnly(s, items[..|items| - 1]);
    }
  }

  lemma {:induction false} OutputsKeep(s: Store, c: Id, es: seq<Event>, done: CommandRow)
    requires InvExcept(s, c) && c in s.commands && done.runId == s.commands[c].runId && done.status == Succeeded
    requires CommandOk(c, done, s.events[done.runId]) && AppendEvents(s, es).Ok?
    requires forall e :: e in es ==> OwnOutput(e, c, done.runId)
    ensures var t := AppendEvents(s, es).value;
      InvExcept(t, c) && t.commands == s.commands && Grown(s, t, done.runId) && CommandOk(c, done, t.events[done.runId])
  {
    hide CommandOk, AppendEvent, Append, InvExcept;
    if es == [] {
      InTransit(s, c);
    } else {
      var t := AppendEvents(s, es[..|es| - 1]).value;
      var e := es[|es| - 1];
      assert e in es;
      OutputsKeep(s, c, es[..|es| - 1], done);
      OutputKeeps(t, c, e, done);
    }
  }

  lemma {:induction false} InTransit(s: Store, c: Id)
    requires InvExcept(s, c) && c in s.commands
    ensures s.commands[c].runId in s.events && SameRuns(s, s)
  {
  }

  lemma {:induction false} OutputKeeps(s: Store, c: Id, e: Event, done: CommandRow)
    requires InvExcept(s, c) && c in s.commands && done.runId == s.commands[c].runId && done.status == Succeeded
    requires done.runId in s.events && CommandOk(c, done, s.events[done.runId]) && AppendEvent(s, e).Ok?
    requires OwnOutput(e, c, done.runId)
    ensures var t := AppendEvent(s, e).value;
      InvExcept(t, c) && t.commands == s.commands && Grown(s, t, done.runId) && CommandOk(c, done, t.events[done.runId])
  {
    hide CommandOk, AppendEvent, Append, InvExcept;
    InTransit(s, c);
    CommitOwned(s, c, e);
    var j := s.events[done.runId];
    AppendKeepsValid(j, e);
    AppendFinal(c, done, j, e);
  }

  function DoneRow(row: CommandRow): CommandRow { row.(status := Succeeded, lease := None) }

  /** A completion commits only for the holder of an unexpired lease; then it adds its
      events at the end of its run, its artifacts, and its follow-up commands. */
  lemma {:induction false} CompleteFacts(s: Store, c: Id, token: Id, output: Output, now: int)
    requires Inv(s) && Admissible(s, Complete(c, token, output, now)) && CompleteTx(s, c, token, output, now).Ok?
    ensures HoldsLease(s, c, token, now)
    ensures var t := CompleteTx(s, c, token, output, now).value;
      Inv(t) && SameRuns(s, t) && s.events.Keys == t.events.Keys && s.commands.Keys <= t.commands.Keys &&
      t.commands[c] == DoneRow(s.commands[c]) &&
      (forall r :: r in s.events ==> s.events[r] <= t.events[r]) &&
      (forall d :: d in s.commands && d != c ==> t.commands[d] == s.commands[d]) &&
      (forall k :: k in s.artifacts ==> k in t.artifacts && t.artifacts[k] == s.artifacts[k])
  {
    hide AppendEvents, InsertArtifacts, InsertCommands, CompleteTx, NewRow, OwnOutput, Inv, InvExcept, CommandOk,
         Valid, Fold, OwnSources, HoldsLease, Terminal;
    CompletionHoldsLease(s, c, token, output, now);
    CompleteShape(s, c, token, output, now);
    var row := s.commands[c];
    var done := DoneRow(row);
    DoneShape(row);
    LeaseSetup(s, c, token, now, row);
    assert s.(commands := s.commands[c := row]) == s by { assert s.commands[c := row] == s.commands; }
    StoppedRow(s.events[row.runId], c, row, done);
    var t := AppendEvents(s, output.events).value;
    OutputsKeep(s, c, output.events, done);
    GrownPrefix(s, t, done.runId);
    var v := InsertArtifacts(t, output.artifacts);
    StockOnly(t, output.artifacts);
    StockKeeps(t, v, c);
    var u := InsertCommands(v, output.next).value;
    InsertAllKeep(v, output.next, c);
    ReplaceRow(u, c, done);
    Restored(u.(commands := u.commands[c := done]), c);
  }

  lemma {:induction false} DoneShape(row: CommandRow)
    ensures var done := DoneRow(row);
      SameIdentity(done, row) && SameIdentity(row, row) && done.status == Succeeded && done.runId == row.runId &&
      done == row.(status := done.status, availableAt := done.availableAt, lease := None, lastError := done.lastError)
  {
  }

  lemma {:induction false} GrownPrefix(s: Store, t: Store, r: Id)
    requires Grown(s, t, r)
    ensures SameRuns(s, t) && t.events.Keys == s.events.Keys && t.artifacts == s.artifacts
    ensures forall q :: q in s.events ==> s.events[q] <= t.events[q]
  {
  }

  lemma {:induction false} CompleteShape(s: Store, c: Id, token: Id, output: Output, now: int)
    requires CompleteTx(s, c, token, output, now).Ok? && HoldsLease(s, c, token, now)
    requires Admissible(s, Complete(c, token, output, now))
    ensures AppendEvents(s, output.events).Ok?
    ensures c in s.commands && s.commands[c].status == Leased
    ensures forall n :: n in output.next ==> NewRow(n.row)
    ensures forall e :: e in output.events ==> OwnOutput(e, c, s.commands[c].runId)
    ensures var v := InsertArtifacts(AppendEvents(s, output.events).value, output.artifacts);
      InsertCommands(v, output.next).Ok? &&
      (var u := InsertCommands(v, output.next).value;
       c in u.commands && CompleteTx(s, c, token, output, now).value ==
         u.(commands := u.commands[c := DoneRow(u.commands[c])]))
  {
    hide AppendEvents, InsertArtifacts, InsertCommands, NewRow, OwnOutput;
  }

  lemma {:induction false} StockKeeps(s: Store, t: Store, c: Id)
    requires InvExcept(s, c) && t == s.(artifacts := t.artifacts)
    ensures InvExcept(t, c)
  {
    hide CommandOk, RunOk;
    AttributedMono(s, t);
  }

  lemma {:induction false} AppendsTouchNoCommand(s: Store, es: seq<Event>)
    requires AppendEvents(s, es).Ok?
    ensures AppendEvents(s, es).value.commands == s.commands
  {
    hide Append;
    if es != [] {
      AppendsTouchNoCommand(s, es[..|es| - 1]);
    }
  }

  lemma {:induction false} InsertsKeepRows(s: Store, items: seq<NewCommand>)
    requires InsertCommands(s, items).Ok? && forall n :: n in items ==> NewRow(n.row)
    ensures s.commands.Keys <= InsertCommands(s, items).value.commands.Keys
    ensures forall d :: d in InsertCommands(s, items).value.commands ==>
      if d in s.commands then InsertCommands(s, items).value.commands[d] == s.commands[d]
      else InsertCommands(s, items).value.commands[d].lease.None?
  {
    if items != [] {
      var rest := items[..|items| - 1];
      InsertsKeepRows(s, rest);
      assert items[|items| - 1] in items;
      InsertShape(InsertCommands(s, rest).value, items[|items| - 1].id, items[|items| - 1].row);
    }
  }

  /** The lease checked last is the lease held when the transaction began. */
  lemma {:induction false} CompletionHoldsLease(s: Store, c: Id, token: Id, output: Output, now: int)
    requires CompleteTx(s, c, token, output, now).Ok?
    requires forall n :: n in output.next ==> NewRow(n.row)
    ensures HoldsLease(s, c, token, now)
  {
    var t := AppendEvents(s, output.events).value;
    AppendsTouchNoCommand(s, output.events);
    StockOnly(t, output.artifacts);
    InsertsKeepRows(InsertArtifacts(t, output.artifacts), output.next);
  }

  // --------------------------------------------------------------- a new run

  /** The tables a creation leaves, by what it adds. */
  lemma {:induction false} CreatedTables(s: Store, n: NewRun)
    requires CreateRunTx(s, n).Ok?
    ensures var t := CreateRunTx(s, n).value;
      n.runId !in s.runs && n.commandId !in s.commands && n.runId in t.runs && n.commandId in t.commands &&
      t.runs == s.runs[n.runId := t.runs[n.runId]] &&
      t.commands == s.commands[n.commandId := t.commands[n.commandId]] &&
      t.runs[n.runId].projectId == n.projectId && t.runs[n.runId].key == n.key &&
      t.commands[n.commandId].projectId == n.projectId && t.commands[n.commandId].key == n.key + ":preflight" &&
      !Submission(t.commands[n.commandId].kind) && !HasRun(s, n.projectId, n.key) &&
      !HasIntent(s, n.projectId, n.key + ":preflight")
  {
    hide ProjectRun, HasRun, HasIntent;
  }

  lemma {:induction false} CreateUnique(s: Store, n: NewRun)
    requires KeysUnique(s) && Journaled(s) && (forall d :: d in s.commands ==> s.commands[d].runId in s.events)
    requires CreateRunTx(s, n).Ok?
    ensures KeysUnique(CreateRunTx(s, n).value)
  {
    hide Journaled, CreateRunTx, HasRun, HasIntent;
    CreatedTables(s, n);
    KeysAreNew(s, n);
    var t := CreateRunTx(s, n).value;
    NewSubmissionFree(s, t, n);
  }

  lemma {:induction false} KeysAreNew(s: Store, n: NewRun)
    requires !HasRun(s, n.projectId, n.key) && !HasIntent(s, n.projectId, n.key + ":preflight")
    ensures forall r :: r in s.runs ==> s.runs[r].projectId != n.projectId || s.runs[r].key != n.key
    ensures forall d :: d in s.commands ==>
      s.commands[d].projectId != n.projectId || s.commands[d].key != n.key + ":preflight"
  {
  }

  /** A command that is no submission adds none. */
  lemma {:induction false} NewSubmissionFree(s: Store, t: Store, n: NewRun)
    requires KeysUnique(s) && n.commandId !in s.commands && n.commandId in t.commands
    requires t.commands == s.commands[n.commandId := t.commands[n.commandId]]
    requires !Submission(t.commands[n.commandId].kind)
    ensures forall c, d :: c in t.commands && d in t.commands && c != d ==>
      !(HoldsSubmission(t.commands[c], t.commands[c].runId) && HoldsSubmission(t.commands[d], t.commands[c].runId))
  {
  }

  lemma {:induction false} CreateKeeps(s: Store, n: NewRun)
    requires Inv(s) && CreateRunTx(s, n).Ok?
    ensures Inv(CreateRunTx(s, n).value)
  {
    hide CommandOk, RunOk, ProjectRun, KeysUnique, HasIntent, HasRun;
    CreateUnique(s, n);
    var t := CreateRunTx(s, n).value;
    var e := CreatedEvent(n);
    CreateJournaled(s, t, n);
    NoOwnEvents(n.commandId, t.commands[n.commandId], [e]);
    hide Journaled, Attributed;
    assert forall d :: d in s.commands ==> t.commands[d] == s.commands[d] && s.commands[d].runId != n.runId;
  }

  lemma {:induction false} CreateJournaled(s: Store, t: Store, n: NewRun)
    requires Journaled(s) && Attributed(s) && CreateRunTx(s, n) == Ok(t)
    requires forall d :: d in s.commands ==> s.commands[d].runId in s.events
    ensures Journaled(t) && Attributed(t)
  {
    hide CommandOk, RunOk, ProjectRun, HasIntent, HasRun;
    FirstRow(n, t.runs[n.runId]);
    forall r, x | r in t.events && x in t.events[r] ensures SourceOk(t, r, x) {
      if r != n.runId { assert SourceOk(s, r, x); }
    }
  }

  lemma {:induction false} FirstRow(n: NewRun, run: RunRow)
    requires run.lastSequence == 1 && run.projection == ProjectRun([CreatedEvent(n)])
    ensures RunOk(n.runId, run, [CreatedEvent(n)])
  {
    FirstEvent(CreatedEvent(n));
  }

  lemma {:induction false} FirstEvent(e: Event)
    requires e.sequence == 1 && e.body.Reached? && e.body.milestone.RunCreated?
    ensures Valid([e]) && Fold([e]) == Some(Projector([e], map[], map[]))
  {
    var j := [e];
    assert Front(j) == [] && Last(j) == e;
    assert Fold(Front(j)) == Some(Projector([], map[], map[]));
    assert !Terminal(Front(j));
    assert [] + [e] == [e];
    assert Fold(j) == Some(Projector([e], map[], map[]));
  }
}
