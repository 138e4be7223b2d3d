/**
 The command queue over the run journals: apps/api/src/postgres.ts, with the
 constraints of apps/api/db/migrations/001_initial.sql and 005.

 Every transaction is a function from the stored tables to the tables it would
 commit, or to the error that rolls it back. The class at the end is the
 repository itself; each method is proved to commit exactly that function.
*/
module CommandQueue {
  import opened Wrappers
  import opened Journal

  // ------------------------------------------------------------------- tables

  datatype Kind =
    | RunPreflight | SubmitRelayer | BroadcastRelayer | AttachWallet | ApplyReplay
    | PollReceipt | PollFinalization | FetchDaProof | VerifyProof | VerifyConsumer
    | BuildBundle | VerifyDeployed | DerivedProduct(name: string)

  datatype Mode = Wallet | Relayer | Replay

  datatype Field = Field(key: string, value: string)

  type Payload = seq<Field>

  datatype CommandStatus = Queued | Leased | Succeeded | Dead | Cancelled

  datatype Failure = Failure(
    code: string, notFinalized: bool, recoveryWaiting: bool, retryable: bool, terminal: bool)

  datatype Lease = Lease(token: Id, expiresAt: int)

  datatype CommandRow = CommandRow(
    projectId: Id, runId: Id, key: string, kind: Kind, payload: Payload, status: CommandStatus,
    attempts: nat, availableAt: int, lease: Option<Lease>, lastError: Option<Failure>)

  datatype RunRow = RunRow(
    projectId: Id, key: string, fingerprint: nat, mode: Mode, createdClock: int,
    lastSequence: nat, projection: Option<Projection>)

  datatype ArtifactKey = ArtifactKey(runId: Id, kind: string, sha256: string)

  datatype Artifact = Artifact(key: ArtifactKey, bytes: seq<bv8>)

  datatype Store = Store(
    runs: map<Id, RunRow>, events: map<Id, seq<Event>>,
    artifacts: map<ArtifactKey, seq<bv8>>, commands: map<Id, CommandRow>)

  datatype NewCommand = NewCommand(id: Id, row: CommandRow)

  datatype Output = Output(events: seq<Event>, artifacts: seq<Artifact>, next: seq<NewCommand>)

  datatype TxError =
    | RunMissing | SequenceConflict | Refused(append: AppendError) | UniqueViolation | StaleLease
    | CommandMissing

  type Tx = Result<Store, TxError>

  // ---------------------------------------------------------------- constants

  const LEASE_MILLISECONDS := 30_000

  predicate Auxiliary(kind: Kind) { kind.VerifyDeployed? }

  predicate Submission(kind: Kind) { kind.AttachWallet? || kind.SubmitRelayer? || kind.ApplyReplay? }

  function FailureStage(kind: Kind): Stage {
    match kind
    case SubmitRelayer | BroadcastRelayer | AttachWallet | ApplyReplay => RequestStage
    case PollReceipt | PollFinalization => RoundStage
    case FetchDaProof => ProofStage
    case VerifyProof => VerifyStage
    case VerifyConsumer | BuildBundle => ConsumerStage
    case _ => PreflightStage
  }

  function RecoveryCheckpoint(kind: Kind): Checkpoint {
    match kind
    case RunPreflight => AtPreflight
    case SubmitRelayer | BroadcastRelayer | AttachWallet | ApplyReplay => AtSubmission
    case PollReceipt => AtReceipt
    case PollFinalization => AtFinalization
    case FetchDaProof => AtDaProof
    case VerifyProof => AtVerification
    case _ => AtConsumer
  }

  function Pow2(n: nat): nat { if n == 0 then 1 else 2 * Pow2(n - 1) }

  function BackoffSeconds(attempts: nat): int { Min(300, Pow2(Min(attempts, 8))) }

  // ----------------------------------------------------------- recovery scans

  /** The state of the unresolved-recovery scan after the events j. */
  function Unresolved(j: seq<Event>, source: Source): Option<Event> {
    if j == [] || !IsRecovery(Last(j)) then None
    else if Last(j).source != source then Unresolved(Front(j), source)
    else if Last(j).body.Resumed? then None else Some(Last(j))
  }

  /** The state of the latest-recovery scan after the events j. */
  function Latest(j: seq<Event>, source: Source): Option<Event> {
    if j == [] || !IsRecovery(Last(j)) then None
    else if Last(j).source == source then Some(Last(j))
    else Latest(Front(j), source)
  }

  // --------------------------------------------------------------- statements

  /** insertEvent: the rows of a run are kept in sequence order. */
  function InsertEvent(s: Store, e: Event): Tx
    requires e.runId in s.events
  {
    var rows := s.events[e.runId];
    if (exists i :: 0 <= i < |rows| && rows[i].sequence == e.sequence) || HasKey(rows, KeyOf(e))
    then Err(UniqueViolation)
    else Ok(s.(events := s.events[e.runId := rows + [e]]))
  }

  /** appendEventInTransaction. */
  function AppendEvent(s: Store, e: Event): Tx {
    if e.runId !in s.runs || e.runId !in s.events then Err(RunMissing)
    else match Append(s.events[e.runId], e)
      case Err(why) => Err(Refused(why))
      case Ok(journal) =>
        if |journal| == |s.events[e.runId]| then Ok(s)
        else if s.runs[e.runId].lastSequence != e.sequence - 1 then Err(SequenceConflict)
        else match InsertEvent(s, e)
          case Err(why) => Err(why)
          case Ok(t) => Ok(t.(runs := t.runs[e.runId := t.runs[e.runId].(
                                      projection := ProjectRun(journal), lastSequence := e.sequence)]))
  }

  function AppendEvents(s: Store, es: seq<Event>): Tx {
    if es == [] then Ok(s)
    else match AppendEvents(s, es[..|es| - 1])
      case Err(why) => Err(why)
      case Ok(t) => AppendEvent(t, es[|es| - 1])
  }

  /** ON CONFLICT (run_id, kind, sha256) DO NOTHING: the first bytes stay. */
  function InsertArtifacts(s: Store, items: seq<Artifact>): Store {
    if items == [] then s
    else
      var t := InsertArtifacts(s, items[..|items| - 1]);
      var a := items[|items| - 1];
      if a.key in t.artifacts then t else t.(artifacts := t.artifacts[a.key := a.bytes])
  }

  predicate HasIntent(s: Store, projectId: Id, key: string) {
    exists c :: c in s.commands && s.commands[c].projectId == projectId && s.commands[c].key == key
  }

  predicate HoldsSubmission(row: CommandRow, runId: Id) {
    row.runId == runId && Submission(row.kind) && row.status != Cancelled
  }

  predicate HasSubmission(s: Store, runId: Id) {
    exists c :: c in s.commands && HoldsSubmission(s.commands[c], runId)
  }

  /** ON CONFLICT (project_id, idempotency_key) DO NOTHING; the other unique indexes raise. */
  function InsertCommand(s: Store, id: Id, row: CommandRow): Tx {
    if row.runId !in s.runs then Err(RunMissing)
    else if HasIntent(s, row.projectId, row.key) then Ok(s)
    else if id in s.commands then Err(UniqueViolation)
    else if HoldsSubmission(row, row.runId) && HasSubmission(s, row.runId) then Err(UniqueViolation)
    else Ok(s.(commands := s.commands[id := row]))
  }

  function InsertCommands(s: Store, items: seq<NewCommand>): Tx {
    if items == [] then Ok(s)
    else match InsertCommands(s, items[..|items| - 1])
      case Err(why) => Err(why)
      case Ok(t) => InsertCommand(t, items[|items| - 1].id, items[|items| - 1].row)
  }

  predicate HoldsLease(s: Store, c: Id, token: Id, now: int) {
    c in s.commands && s.commands[c].status == Leased && s.commands[c].lease.Some? &&
    s.commands[c].lease.value.token == token && s.commands[c].lease.value.expiresAt > now
  }

  predicate Claimable(row: CommandRow, now: int) {
    (row.status == Queued && row.availableAt <= now) ||
    (row.status == Leased && row.lease.Some? && row.lease.value.expiresAt <= now)
  }

  // ------------------------------------------------------------- transactions

  function ClaimedRow(row: CommandRow, token: Id, now: int): CommandRow {
    row.(status := Leased, lease := Some(Lease(token, now + LEASE_MILLISECONDS)), attempts := row.attempts + 1)
  }

  /** The recovery events of a repeated claim, in the order they are appended. */
  function ClaimEvents(j: seq<Event>, c: Id, runId: Id, kind: Kind, attempts: nat, wall: int): seq<Event> {
    var unresolved := Unresolved(j, Command(c));
    var latest := if unresolved.Some? then unresolved else Latest(j, Command(c));
    var known := latest.Some? && IsRecovery(latest.value);
    var stage := if known then latest.value.body.stage else FailureStage(kind);
    var resumeFrom := if known then latest.value.body.resumeFrom else RecoveryCheckpoint(kind);
    var expired := unresolved.None? && attempts > 0 &&
      ((known && latest.value.body.Resumed? && latest.value.body.attempt == attempts - 1) ||
       (latest.None? && attempts == 2));
    var halt := if expired then
        [Event(runId, |j| + 1, Command(c), wall,
               RetryScheduled(stage, attempts - 1, resumeFrom, Schedule(wall, wall, LeaseExpired)))]
      else [];
    var resume := if known || (latest.None? && attempts == 2) then
        [Event(runId, |j| + |halt| + 1, Command(c), wall, Resumed(stage, attempts, resumeFrom))]
      else [];
    halt + resume
  }

  /** claimNextCommand. Any claimable row may be the one taken: rows ahead of it in
      the order can be locked by other claims. */
  function ClaimTx(s: Store, c: Id, token: Id, now: int, wall: int): Tx {
    if c !in s.commands || !Claimable(s.commands[c], now) then Err(CommandMissing)
    else
      var row := ClaimedRow(s.commands[c], token, now);
      var t := s.(commands := s.commands[c := row]);
      if row.attempts <= 1 || Auxiliary(row.kind) then Ok(t)
      else if row.runId !in t.events then Err(RunMissing)
      else AppendEvents(t, ClaimEvents(t.events[row.runId], c, row.runId, row.kind, row.attempts, wall))
  }

  function RenewTx(s: Store, c: Id, token: Id, now: int, interval: nat): Tx {
    if !HoldsLease(s, c, token, now) then Err(StaleLease)
    else Ok(s.(commands := s.commands[c := s.commands[c].(lease := Some(Lease(token, now + interval)))]))
  }

  function CompleteTx(s: Store, c: Id, token: Id, output: Output, now: int): Tx {
    match AppendEvents(s, output.events)
    case Err(why) => Err(why)
    case Ok(t) =>
      match InsertCommands(InsertArtifacts(t, output.artifacts), output.next)
      case Err(why) => Err(why)
      case Ok(u) =>
        if !HoldsLease(u, c, token, now) then Err(StaleLease)
        else Ok(u.(commands := u.commands[c := u.commands[c].(status := Succeeded, lease := None)]))
  }

  function RetriedRow(row: CommandRow, failure: Failure, now: int): CommandRow {
    row.(status := if failure.retryable then Queued else Dead,
         availableAt := if failure.retryable then now + 1_000 * BackoffSeconds(row.attempts) else row.availableAt,
         lease := None, lastError := Some(failure))
  }

  function HaltEvent(j: seq<Event>, c: Id, row: CommandRow, failure: Failure, wall: int): Event {
    var stage, resumeFrom := FailureStage(row.kind), RecoveryCheckpoint(row.kind);
    var schedule := Schedule(row.availableAt, wall, Reported(failure.code));
    Event(row.runId, |j| + 1, Command(c), wall,
          if failure.recoveryWaiting || failure.notFinalized
          then Waiting(stage, row.attempts, resumeFrom, schedule)
          else RetryScheduled(stage, row.attempts, resumeFrom, schedule))
  }

  function CancelOthers(commands: map<Id, CommandRow>, c: Id, runId: Id): map<Id, CommandRow> {
    map d | d in commands ::
      if commands[d].runId == runId && d != c && (commands[d].status == Queued || commands[d].status == Leased)
      then commands[d].(status := Cancelled, lease := None) else commands[d]
  }

  /** The terminal half of retryCommand. */
  function FailRun(s: Store, c: Id, row: CommandRow, failure: Failure, wall: int): Tx {
    if row.runId !in s.runs || row.runId !in s.events then Err(RunMissing)
    else
      var run := s.runs[row.runId];
      var t := if run.projection.Some? && run.projection.value.terminal then Ok(s)
        else AppendEvent(s, Event(row.runId, run.lastSequence + 1, Command(c), wall,
                                  Failed(FailureStage(row.kind), failure.code)));
      match t
      case Err(why) => Err(why)
      case Ok(u) => Ok(u.(commands := CancelOthers(u.commands, c, row.runId)))
  }

  /** The requeueing half of retryCommand. */
  function Halted(s: Store, c: Id, row: CommandRow, failure: Failure, wall: int): Tx {
    if Auxiliary(row.kind) || !failure.retryable || row.attempts == 0 then Ok(s)
    else if row.runId !in s.events then Err(RunMissing)
    else AppendEvent(s, HaltEvent(s.events[row.runId], c, row, failure, wall))
  }

  function RetryTx(s: Store, c: Id, token: Id, failure: Failure, now: int, wall: int): Tx {
    if !HoldsLease(s, c, token, now) then Err(StaleLease)
    else
      var row := RetriedRow(s.commands[c], failure, now);
      var t := s.(commands := s.commands[c := row]);
      match Halted(t, c, row, failure, wall)
      case Err(why) => Err(why)
      case Ok(u) => if Auxiliary(row.kind) || !failure.terminal then Ok(u) else FailRun(u, c, row, failure, wall)
  }

  /** `clock` is the service's, `availableAt` the transaction's own now(). */
  datatype NewRun = NewRun(
    runId: Id, commandId: Id, projectId: Id, key: string, fingerprint: nat, mode: Mode, clock: int, availableAt: int)

  function CreatedEvent(n: NewRun): Event {
    Event(n.runId, 1, Request(n.key), n.clock, Reached(RunCreated(n.fingerprint)))
  }

  predicate HasRun(s: Store, projectId: Id, key: string) {
    exists r :: r in s.runs && s.runs[r].projectId == projectId && s.runs[r].key == key
  }

  /** The three inserts of createRun; any unique violation rolls all of them back. */
  function CreateRunTx(s: Store, n: NewRun): Tx {
    if n.runId in s.runs || HasRun(s, n.projectId, n.key) then Err(UniqueViolation)
    else
      var event := CreatedEvent(n);
      var run := RunRow(n.projectId, n.key, n.fingerprint, n.mode, n.clock, 1, ProjectRun([event]));
      var command := CommandRow(n.projectId, n.runId, n.key + ":preflight", RunPreflight, [], Queued, 0, n.availableAt,
        None, None);
      if n.commandId in s.commands || HasIntent(s, n.projectId, command.key) then Err(UniqueViolation)
      else Ok(s.(runs := s.runs[n.runId := run], events := s.events[n.runId := [event]],
                 commands := s.commands[n.commandId := command]))
  }

  /** What the database holds after a transaction commits or rolls back. */
  function Committed(s: Store, t: Tx): Store {
    match t case Ok(u) => u case Err(_) => s
  }

  // --------------------------------------------------------------- repository

  class Repository {
    var store: Store

    constructor (s: Store)
      ensures store == s
    {
      store := s;
    }

    /** The loop of unresolvedRecoveryEvent. */
    static method UnresolvedRecoveryEvent(events: seq<Event>, c: Id) returns (unresolved: Option<Event>)
      ensures unresolved == Unresolved(events, Command(c))
    {
      unresolved := None;
      for i := 0 to |events|
        invariant unresolved == Unresolved(events[..i], Command(c))
      {
        var event := events[i];
        FrontLast(events[..i], event);
        assert events[..i + 1] == events[..i] + [event];
        if !IsRecovery(event) {
          unresolved := None;
          continue;
        }
        if event.source != Command(c) { continue; }
        unresolved := if event.body.Resumed? then None else Some(event);
      }
      assert events[..|events|] == events;
    }

    /** The loop of latestRecoveryEvent. */
    static method LatestRecoveryEvent(events: seq<Event>, c: Id) returns (latest: Option<Event>)
      ensures latest == Latest(events, Command(c))
    {
      latest := None;
      for i := 0 to |events|
        invariant latest == Latest(events[..i], Command(c))
      {
        var event := events[i];
        FrontLast(events[..i], event);
        assert events[..i + 1] == events[..i] + [event];
        if !IsRecovery(event) {
          latest := None;
          continue;
        }
        if event.source == Command(c) { latest := Some(event); }
      }
      assert events[..|events|] == events;
    }

    method RenewLease(c: Id, token: Id, now: int, interval: nat) returns (ok: bool)
      modifies this
      ensures ok == RenewTx(old(store), c, token, now, interval).Ok?
      ensures store == Committed(old(store), RenewTx(old(store), c, token, now, interval))
    {
      ok := HoldsLease(store, c, token, now);
      if ok {
        var row := store.commands[c].(lease := Some(Lease(token, now + interval)));
        store := store.(commands := store.commands[c := row]);
      }
    }

    /** The events a repeated claim appends: an unreported halt, then the resumption. */
    static method RecoveryEvents(events: seq<Event>, c: Id, row: CommandRow, wall: int) returns (drafts: seq<Event>)
      ensures drafts == ClaimEvents(events, c, row.runId, row.kind, row.attempts, wall)
    {
      hide Unresolved, Latest, FailureStage, RecoveryCheckpoint;
      var unresolved := UnresolvedRecoveryEvent(events, c);
      var scanned := LatestRecoveryEvent(events, c);
      var latest := if unresolved.Some? then unresolved else scanned;
      var stage, resumeFrom := FailureStage(row.kind), RecoveryCheckpoint(row.kind);
      var known := latest.Some? && IsRecovery(latest.value);
      if known {
        stage, resumeFrom := latest.value.body.stage, latest.value.body.resumeFrom;
      }
      var resumeSequence := |events| + 1;
      drafts := [];
      if row.attempts > 0 && unresolved.None? &&
         ((known && latest.value.body.Resumed? && latest.value.body.attempt == row.attempts - 1) ||
          (latest.None? && row.attempts == 2)) {
        drafts := [Event(row.runId, resumeSequence, Command(c), wall,
          RetryScheduled(stage, row.attempts - 1, resumeFrom, Schedule(wall, wall, LeaseExpired)))];
        resumeSequence := resumeSequence + 1;
      }
      if known || (latest.None? && row.attempts == 2) {
        drafts := drafts +
          [Event(row.runId, resumeSequence, Command(c), wall, Resumed(stage, row.attempts, resumeFrom))];
      }
    }

    method ClaimNextCommand(c: Id, token: Id, now: int, wall: int) returns (ok: bool)
      modifies this
      ensures ok == ClaimTx(old(store), c, token, now, wall).Ok?
      ensures store == Committed(old(store), ClaimTx(old(store), c, token, now, wall))
    {
      hide ClaimEvents, AppendEvents, Auxiliary;
      if c !in store.commands || !Claimable(store.commands[c], now) { return false; }
      var row := ClaimedRow(store.commands[c], token, now);
      var tx := store.(commands := store.commands[c := row]);
      if row.attempts > 1 && !Auxiliary(row.kind) {
        if row.runId !in tx.events { return false; }
        var drafts := RecoveryEvents(tx.events[row.runId], c, row, wall);
        var appended := AppendOutput(tx, drafts);
        if appended.Err? { return false; }
        tx := appended.value;
      }
      store := tx;
      ok := true;
    }

    /** The three loops of completeCommand, each on the transaction so far. */
    static method AppendOutput(s: Store, events: seq<Event>) returns (tx: Tx)
      ensures tx == AppendEvents(s, events)
    {
      hide AppendEvent;
      var u := s;
      for i := 0 to |events|
        invariant AppendEvents(s, events[..i]) == Ok(u)
      {
        assert events[..i + 1][..i] == events[..i];
        match AppendEvent(u, events[i]) {
          case Err(why) => FirstFailure(s, events, i + 1); return Err(why);
          case Ok(t) => u := t;
        }
      }
      assert events[..|events|] == events;
      tx := Ok(u);
    }

    static method StockOutput(s: Store, items: seq<Artifact>) returns (tx: Store)
      ensures tx == InsertArtifacts(s, items)
    {
      tx := s;
      for i := 0 to |items|
        invariant InsertArtifacts(s, items[..i]) == tx
      {
        assert items[..i + 1][..i] == items[..i];
        var a := items[i];
        if a.key !in tx.artifacts { tx := tx.(artifacts := tx.artifacts[a.key := a.bytes]); }
      }
      assert items[..|items|] == items;
    }

    static method InsertOutput(s: Store, items: seq<NewCommand>) returns (tx: Tx)
      ensures tx == InsertCommands(s, items)
    {
      hide InsertCommand;
      var u := s;
      for i := 0 to |items|
        invariant InsertCommands(s, items[..i]) == Ok(u)
      {
        assert items[..i + 1][..i] == items[..i];
        match InsertCommand(u, items[i].id, items[i].row) {
          case Err(why) => FirstRefusal(s, items, i + 1); return Err(why);
          case Ok(t) => u := t;
        }
      }
      assert items[..|items|] == items;
      tx := Ok(u);
    }

    method CompleteCommand(c: Id, token: Id, output: Output, now: int) returns (ok: bool)
      modifies this
      ensures ok == CompleteTx(old(store), c, token, output, now).Ok?
      ensures store == Committed(old(store), CompleteTx(old(store), c, token, output, now))
    {
      hide AppendEvents, InsertArtifacts, InsertCommands;
      var appended := AppendOutput(store, output.events);
      if appended.Err? { return false; }
      var stocked := StockOutput(appended.value, output.artifacts);
      var inserted := InsertOutput(stocked, output.next);
      if inserted.Err? { return false; }
      var tx := inserted.value;
      ok := HoldsLease(tx, c, token, now);
      if ok {
        var row := tx.commands[c].(status := Succeeded, lease := None);
        store := tx.(commands := tx.commands[c := row]);
      }
    }

    /** The halt event of a reported retry. */
    static method RecordHalt(s: Store, c: Id, row: CommandRow, failure: Failure, wall: int) returns (tx: Tx)
      ensures tx == Halted(s, c, row, failure, wall)
    {
      hide AppendEvent, HaltEvent;
      tx := Ok(s);
      if !Auxiliary(row.kind) && failure.retryable && row.attempts > 0 {
        if row.runId !in s.events { return Err(RunMissing); }
        tx := AppendEvent(s, HaltEvent(s.events[row.runId], c, row, failure, wall));
      }
    }

    /** The run failure of a terminal report, and the cancellations. */
    static method RecordFailure(s: Store, c: Id, row: CommandRow, failure: Failure, wall: int) returns (tx: Tx)
      ensures tx == FailRun(s, c, row, failure, wall)
    {
      hide AppendEvent, CancelOthers, FailureStage;
      if row.runId !in s.runs || row.runId !in s.events { return Err(RunMissing); }
      var run := s.runs[row.runId];
      var alreadyTerminal := run.projection.Some? && run.projection.value.terminal;
      tx := Ok(s);
      if !alreadyTerminal {
        tx := AppendEvent(s, Event(row.runId, run.lastSequence + 1, Command(c), wall,
                                   Failed(FailureStage(row.kind), failure.code)));
      }
      if tx.Ok? {
        tx := Ok(tx.value.(commands := CancelOthers(tx.value.commands, c, row.runId)));
      }
    }

    method RetryCommand(c: Id, token: Id, failure: Failure, now: int, wall: int) returns (ok: bool)
      modifies this
      ensures ok == RetryTx(old(store), c, token, failure, now, wall).Ok?
      ensures store == Committed(old(store), RetryTx(old(store), c, token, failure, now, wall))
    {
      hide Halted, FailRun, RetriedRow, Auxiliary;
      if !HoldsLease(store, c, token, now) { return false; }
      var row := RetriedRow(store.commands[c], failure, now);
      var tx := RecordHalt(store.(commands := store.commands[c := row]), c, row, failure, wall);
      if tx.Ok? && !Auxiliary(row.kind) && failure.terminal {
        tx := RecordFailure(tx.value, c, row, failure, wall);
      }
      ok := tx.Ok?;
      if ok { store := tx.value; }
    }
  }

  lemma {:induction false} SingleAppend(s: Store, es: seq<Event>)
    requires |es| <= 1
    ensures AppendEvents(s, es) == if es == [] then Ok(s) else AppendEvent(s, es[0])
  {
  }

  lemma {:induction false} HeadFails(s: Store, e: Event, es: seq<Event>)
    requires es != [] && es[0] == e && AppendEvent(s, e).Err?
    ensures AppendEvents(s, es).Err?
  {
    assert AppendEvents(s, es[..0]) == Ok(s);
    FirstFailure(s, es, 1);
  }

  /** A statement that fails fails the whole loop with its error. */
  lemma {:induction false} FirstFailure(s: Store, es: seq<Event>, n: nat)
    requires n <= |es| && AppendEvents(s, es[..n]).Err?
    ensures AppendEvents(s, es) == AppendEvents(s, es[..n])
    decreases |es|
  {
    hide AppendEvent;
    if n == |es| {
      assert es[..n] == es;
    } else {
      assert es[..|es| - 1][..n] == es[..n];
      FirstFailure(s, es[..|es| - 1], n);
    }
  }

  lemma {:induction false} FirstRefusal(s: Store, items: seq<NewCommand>, n: nat)
    requires n <= |items| && InsertCommands(s, items[..n]).Err?
    ensures InsertCommands(s, items) == InsertCommands(s, items[..n])
    decreases |items|
  {
    hide InsertCommand;
    if n == |items| {
      assert items[..n] == items;
    } else {
      assert items[..|items| - 1][..n] == items[..n];
      FirstRefusal(s, items[..|items| - 1], n);
    }
  }
}
