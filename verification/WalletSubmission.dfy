/**
 Wallet submissions: the recovery marker of src/services/run-client.ts and the
 submission authority of apps/api/src/production-service.ts, with reloads at any
 point and a wallet that decides whenever it likes. One tab, one run, one
 idempotency key.
*/
module WalletSubmission {
  import opened Wrappers
  import opened Journal
  import opened CommandQueue
  import opened QueueInvariants
  import opened QueueTheorems
  import opened Enqueue

  // -------------------------------------------------------------- the provider

  datatype Code = Number(n: int) | Text(s: string)

  /** What a rejected provider request throws: something with a code, something whose
      code cannot be read, an Error with a message, or anything else. */
  datatype Cause = Coded(code: Code) | Unreadable | Message(text: string) | Strange

  predicate StartsWith(text: string, word: string) {
    |word| <= |text| && forall i :: 0 <= i < |word| ==> Lower(text[i]) == word[i]
  }

  predicate Mentions(text: string, word: string) {
    exists i :: 0 <= i <= |text| && StartsWith(text[i..], word)
  }

  /** isUserRejectedProviderRequest */
  predicate UserRejected(cause: Cause) {
    match cause
    case Coded(code) => code == Number(4001) || code == Text("4001")
    case Unreadable => false
    case Message(text) => Mentions(text, "user rejected")
    case Strange => false
  }

  /** What a wallet says when the user has declined, whatever the client makes of it: the
      EIP-1193 code as a number or a string, or those words anywhere in a message. */
  ghost predicate SaysRejected(cause: Cause) {
    cause == Coded(Number(4001)) || cause == Coded(Text("4001")) ||
    (cause.Message? && exists i: nat :: Said(cause.text, i, "user rejected"))
  }

  /** These words stand at this place, in whatever case. */
  predicate Said(text: string, at: nat, words: string) {
    at + |words| <= |text| && forall k :: at <= k < at + |words| ==> Lower(text[k]) == words[k - at]
  }

  /** The client takes for a user's rejection exactly what says so. */
  lemma {:induction false} RejectedIff(cause: Cause)
    ensures UserRejected(cause) <==> SaysRejected(cause)
  {
    if cause.Message? {
      forall i | 0 <= i <= |cause.text|
        ensures StartsWith(cause.text[i..], "user rejected") <==> Said(cause.text, i, "user rejected")
      {
        SaidThere(cause.text, i, "user rejected");
      }
      hide StartsWith;
    }
  }

  lemma {:induction false} SaidThere(text: string, i: nat, words: string)
    requires i <= |text|
    ensures StartsWith(text[i..], words) <==> Said(text, i, words)
  {
    if StartsWith(text[i..], words) {
      forall k | i <= k < i + |words| ensures Lower(text[k]) == words[k - i] {
        assert text[i..][k - i] == text[k];
      }
    }
    if Said(text, i, words) {
      forall m | 0 <= m < |words| ensures Lower(text[i..][m]) == words[m] {
        assert text[i..][m] == text[i + m] && i <= i + m < i + |words|;
      }
    }
  }

  // ---------------------------------------------------------------- the client

  /** The stored marker: absent, the pending sentinel, a transaction hash, or a value
      that is neither. */
  datatype Marker = NoMarker | PendingMarker | Sent(hash: string) | Junk

  /** Where the one flight of this key waits. */
  datatype Stage =
    | Idle
    | Preparing
    | Answered(granted: bool)
    | Switching
    | Sending
    | Attaching(hash: string)

  datatype Client = Client(marker: Marker, stage: Stage)

  /** The wallet's reply; `kept` says whether the hash could be stored. */
  datatype Reply = Hash(hash: string, kept: bool) | NoHash | Error(cause: Cause)

  function Begin(c: Client): Client {
    match c.marker
    case PendingMarker => c
    case Sent(hash) => c.(stage := Attaching(hash))
    case Junk => Client(NoMarker, Preparing)
    case NoMarker => c.(stage := Preparing)
  }

  /** How the storage takes the probe: the marker is written and read back, or it is not
      written, or it is written and then not read back. */
  datatype Probe = Writable | NotWritten | NotReadBack

  function Probed(m: Marker, probe: Probe): Marker { if probe.NotWritten? then m else PendingMarker }

  /** The prepared transaction arrives; the marker is written before the wallet is asked. */
  function Arrive(c: Client, granted: bool, expectedChain: bool, probe: Probe): Client {
    if !granted || !expectedChain then c.(stage := Idle)
    else Client(Probed(c.marker, probe), if probe.Writable? then Switching else Idle)
  }

  function ClearPending(m: Marker): Marker { if m == PendingMarker then NoMarker else m }

  function Switched(c: Client, ok: bool): Client {
    if ok then c.(stage := Sending) else Client(ClearPending(c.marker), Idle)
  }

  function Replied(c: Client, reply: Reply): Client {
    match reply
    case Hash(hash, kept) => if kept then Client(Sent(hash), Attaching(hash)) else c.(stage := Idle)
    case NoHash => c.(stage := Idle)
    case Error(cause) => if UserRejected(cause) then Client(ClearPending(c.marker), Idle) else c.(stage := Idle)
  }

  predicate Persists(e: Event, hash: string) {
    e.body.Reached? && e.body.milestone.RequestSubmitted? && e.body.milestone.mode == "wallet" &&
    e.body.milestone.transactionHash == hash
  }

  /** reconcileWalletSubmission */
  function Reconciled(m: Marker, events: seq<Event>): Marker {
    if m.Sent? && (exists i :: 0 <= i < |events| && Persists(events[i], m.hash)) then NoMarker else m
  }

  class WalletClient {
    var marker: Marker
    var stage: Stage

    constructor (stored: Marker)
      ensures marker == stored && stage == Idle
    {
      marker, stage := stored, Idle;
    }

    function State(): Client
      reads this
    {
      Client(marker, stage)
    }

    /** The start of submitWithEip1193 up to its first await. */
    method Submit() returns (refused: bool)
      modifies this
      ensures State() == Begin(old(State())) && refused == old(marker).PendingMarker?
    {
      refused := marker.PendingMarker?;
      if refused { return; }
      if marker.Sent? {
        stage := Attaching(marker.hash);
        return;
      }
      if marker.Junk? { marker := NoMarker; }
      stage := Preparing;
    }

    method ProveRecoveryStorageWritable(probe: Probe) returns (ok: bool)
      modifies this`marker
      ensures ok <==> probe.Writable?
      ensures marker == Probed(old(marker), probe) && (ok ==> marker.PendingMarker?)
    {
      if probe.NotWritten? { return false; }
      marker := PendingMarker;
      ok := !probe.NotReadBack?;
    }

    method ClearPendingWalletMarker()
      modifies this`marker
      ensures marker == ClearPending(old(marker))
    {
      if marker == PendingMarker { marker := NoMarker; }
    }

    method OnPrepared(granted: bool, expectedChain: bool, probe: Probe)
      modifies this
      ensures State() == Arrive(old(State()), granted, expectedChain, probe)
    {
      stage := Idle;
      if granted && expectedChain {
        var ok := ProveRecoveryStorageWritable(probe);
        if ok { stage := Switching; }
      }
    }

    method OnSwitched(ok: bool)
      modifies this
      ensures State() == Switched(old(State()), ok)
    {
      if ok {
        stage := Sending;
      } else {
        ClearPendingWalletMarker();
        stage := Idle;
      }
    }

    method OnReply(reply: Reply)
      modifies this
      ensures State() == Replied(old(State()), reply)
    {
      stage := Idle;
      match reply {
        case Hash(hash, kept) => if kept { marker, stage := Sent(hash), Attaching(hash); }
        case NoHash =>
        case Error(cause) => if UserRejected(cause) { ClearPendingWalletMarker(); }
      }
    }

    method ReconcileWalletSubmission(events: seq<Event>) returns (cleared: bool)
      modifies this`marker
      ensures marker == Reconciled(old(marker), events) && cleared == (marker != old(marker))
    {
      if !marker.Sent? { return false; }
      var persisted := false;
      for i := 0 to |events|
        invariant persisted <==> exists k :: 0 <= k < i && Persists(events[k], marker.hash)
      {
        if Persists(events[i], marker.hash) { persisted := true; }
      }
      if persisted { marker := NoMarker; }
      cleared := persisted;
    }
  }

  // ---------------------------------------------------------------- the server

  predicate Owned(s: Store, projectId: Id, runId: Id) {
    runId in s.runs && s.runs[runId].projectId == projectId
  }

  /** createSubmission for a wallet: one read of the run with its preflight evidence, one
      of its submission commands. */
  function PrepareWallet(s: Store, prior: Store, projectId: Id, runId: Id, evidence: bool): Option<Denial> {
    if !Owned(s, projectId, runId) then Some(PreflightNotReady)
    else
      var run := s.runs[runId];
      if run.mode != Wallet then Some(ModeMismatch)
      else if IsTerminal(run) then Some(RunTerminal)
      else if !StageCompleted(run, 0) then Some(PreflightNotReady)
      else if run.projection.None? || |run.projection.value.stages| < 2 ||
              run.projection.value.stages[1] != StageStatus.Pending || HasSubmission(prior, runId)
      then Some(SubmissionTaken)
      else if !evidence then Some(PreflightNotReady)
      else None
  }

  ghost predicate Closed(s: Store, runId: Id) {
    runId in s.events && ProjectRun(s.events[runId]).Some? && SubmissionClosed(s.events[runId])
  }

  /** A run closed for submission is refused whatever else was read. */
  lemma {:induction false} ClosedRefuses(s: Store, prior: Store, projectId: Id, runId: Id, evidence: bool)
    requires Journaled(s) && Closed(s, runId)
    ensures PrepareWallet(s, prior, projectId, runId, evidence).Some?
  {
    if runId in s.runs {
      assert RunOk(runId, s.runs[runId], s.events[runId]);
      ProjectionTerminal(s.events[runId]);
    }
  }

  lemma {:induction false} ClosedForGood(s: Store, t: Store, runId: Id)
    requires Journaled(s) && Journaled(t) && Evolves(s, t) && Closed(s, runId)
    ensures Closed(t, runId)
  {
    assert RunOk(runId, t.runs[runId], t.events[runId]);
    ClosedStays(s.events[runId], t.events[runId]);
  }

  lemma {:induction false} PersistedCloses(s: Store, runId: Id, events: seq<Event>, hash: string)
    requires Journaled(s) && runId in s.events && events <= s.events[runId]
    requires exists i :: 0 <= i < |events| && Persists(events[i], hash)
    ensures Closed(s, runId)
  {
    assert RunOk(runId, s.runs[runId], s.events[runId]);
    var i :| 0 <= i < |events| && Persists(events[i], hash);
    SubmittedIsClosed(s.events[runId], i);
  }

  // ----------------------------------------------------------------- the world

  /** The wallet's side of the flight's request. */
  datatype Request = NoRequest | Undecided | Broadcast | Dropped

  /** `orphans` counts requests whose page is gone and that the wallet may still send;
      `lies` counts the replies that say the user rejected a request that was sent or
      still could be. */
  datatype World = World(
    client: Client, server: Store, request: Request, orphans: nat, broadcasts: nat, lies: nat)

  datatype Step =
    | Submit
    | ServerPrepares(prior: Store, evidence: bool)
    | PrepareFails
    | PreparedArrives(expectedChain: bool, probe: Probe)
    | SwitchDone(ok: bool)
    | WalletSends
    | WalletDrops
    | WalletReplies(reply: Reply)
    | OrphanSends
    | OrphanDrops
    | AttachDone
    | Reconcile(events: seq<Event>)
    | Reload
    | Serve(next: Store)

  datatype Names = Names(projectId: Id, runId: Id)

  function OrphansAfter(w: World): nat { w.orphans + (if w.request.Undecided? then 1 else 0) }

  ghost function Next(w: World, names: Names, step: Step): World {
    match step
    case Submit => if w.client.stage.Idle? then w.(client := Begin(w.client)) else w
    case ServerPrepares(prior, evidence) =>
      if w.client.stage.Preparing? then
        var denial := PrepareWallet(w.server, prior, names.projectId, names.runId, evidence);
        w.(client := w.client.(stage := Answered(denial.None?)))
      else w
    case PrepareFails => if w.client.stage.Preparing? then w.(client := w.client.(stage := Idle)) else w
    case PreparedArrives(expectedChain, probe) =>
      if w.client.stage.Answered?
      then w.(client := Arrive(w.client, w.client.stage.granted, expectedChain, probe)) else w
    case SwitchDone(ok) =>
      if w.client.stage.Switching?
      then w.(client := Switched(w.client, ok), request := if ok then Undecided else NoRequest) else w
    case WalletSends =>
      if w.request.Undecided? then w.(request := Broadcast, broadcasts := w.broadcasts + 1) else w
    case WalletDrops => if w.request.Undecided? then w.(request := Dropped) else w
    case WalletReplies(reply) =>
      if w.client.stage.Sending? then
        w.(client := Replied(w.client, reply), request := NoRequest, orphans := OrphansAfter(w),
           lies := w.lies + (if reply.Error? && SaysRejected(reply.cause) && !w.request.Dropped? then 1 else 0))
      else w
    case OrphanSends =>
      if w.orphans > 0 then w.(orphans := w.orphans - 1, broadcasts := w.broadcasts + 1) else w
    case OrphanDrops => if w.orphans > 0 then w.(orphans := w.orphans - 1) else w
    case AttachDone => if w.client.stage.Attaching? then w.(client := w.client.(stage := Idle)) else w
    case Reconcile(events) => w.(client := w.client.(marker := Reconciled(w.client.marker, events)))
    case Reload => w.(client := w.client.(stage := Idle), request := NoRequest, orphans := OrphansAfter(w))
    case Serve(next) => w.(server := next)
  }

  /** The server moves as the queue lets it, and the events the client reconciles with
      were read from the journal. */
  ghost predicate Allowed(w: World, names: Names, step: Step) {
    match step
    case Serve(next) => Evolves(w.server, next) && Journaled(next)
    case Reconcile(events) => names.runId in w.server.events && events <= w.server.events[names.runId]
    case _ => true
  }

  ghost predicate AllAllowed(w: World, names: Names, steps: seq<Step>)
    decreases |steps|
  {
    steps == [] || (Allowed(w, names, steps[0]) && AllAllowed(Next(w, names, steps[0]), names, steps[1..]))
  }

  ghost function After(w: World, names: Names, steps: seq<Step>): World
    decreases |steps|
  {
    if steps == [] then w else After(Next(w, names, steps[0]), names, steps[1..])
  }

  /** Transactions sent, or in the wallet's hands. */
  function Exposure(w: World): nat { w.broadcasts + OrphansAfter(w) }

  ghost predicate Safe(w: World, names: Names) {
    Journaled(w.server) &&
    Exposure(w) <= w.lies + 1 &&
    (w.client.marker.NoMarker? || w.client.marker.Junk? ==> Exposure(w) <= w.lies || Closed(w.server, names.runId)) &&
    (w.client.stage.Preparing? ==> w.client.marker.NoMarker?) &&
    (w.client.stage.Answered? ==> w.client.marker.NoMarker? && (w.client.stage.granted ==> Exposure(w) <= w.lies)) &&
    (w.client.stage.Switching? ==> w.client.marker.PendingMarker? && Exposure(w) <= w.lies) &&
    (w.client.stage.Sending? ==> w.client.marker.PendingMarker? && (w.request.Dropped? ==> Exposure(w) <= w.lies)) &&
    (w.client.stage.Sending? <==> !w.request.NoRequest?)
  }

  lemma {:induction false} SafeStep(w: World, names: Names, step: Step)
    requires Safe(w, names) && Allowed(w, names, step)
    ensures Safe(Next(w, names, step), names)
  {
    hide Journaled, Closed, PrepareWallet, Evolves, Persists, UserRejected, SaysRejected;
    match step {
      case WalletReplies(reply) => if reply.Error? { RejectedIff(reply.cause); }
      case ServerPrepares(prior, evidence) =>
        if Closed(w.server, names.runId) {
          ClosedRefuses(w.server, prior, names.projectId, names.runId, evidence);
        }
      case Reconcile(events) =>
        if w.client.marker.Sent? && (exists i :: 0 <= i < |events| && Persists(events[i], w.client.marker.hash)) {
          PersistedCloses(w.server, names.runId, events, w.client.marker.hash);
        }
      case Serve(next) =>
        if Closed(w.server, names.runId) {
          ClosedForGood(w.server, next, names.runId);
        }
      case _ =>
    }
  }

  lemma {:induction false} SafeRun(w: World, names: Names, steps: seq<Step>)
    requires Safe(w, names) && AllAllowed(w, names, steps)
    ensures Safe(After(w, names, steps), names)
    decreases |steps|
  {
    hide Safe, Allowed, Next;
    if steps != [] {
      SafeStep(w, names, steps[0]);
      SafeRun(Next(w, names, steps[0]), names, steps[1..]);
    }
  }

  /** A client that has submitted nothing yet, whatever its storage holds. */
  function Fresh(server: Store, stored: Marker): World {
    World(Client(stored, Idle), server, NoRequest, 0, 0, 0)
  }

  /** In every run, with reloads anywhere and the wallet deciding at any time, the wallet
      sends at most one transaction more than it falsely reports as rejected; a wallet
      whose user rejections are true sends at most one. */
  lemma {:induction false} AtMostOneBroadcast(server: Store, stored: Marker, names: Names, steps: seq<Step>)
    requires Journaled(server) && AllAllowed(Fresh(server, stored), names, steps)
    ensures var w := After(Fresh(server, stored), names, steps);
      w.broadcasts + OrphansAfter(w) <= w.lies + 1 && (w.lies == 0 ==> w.broadcasts <= 1)
  {
    hide Journaled, Closed, Allowed, Next;
    SafeRun(Fresh(server, stored), names, steps);
  }

  /** The wallet reports a rejection only for a request it has dropped. */
  ghost predicate Truthful(w: World, names: Names, steps: seq<Step>)
    decreases |steps|
  {
    steps == [] ||
    ((steps[0].WalletReplies? && steps[0].reply.Error? && SaysRejected(steps[0].reply.cause) ==> w.request.Dropped?) &&
     Truthful(Next(w, names, steps[0]), names, steps[1..]))
  }

  lemma {:induction false} TruthfulNeverLies(w: World, names: Names, steps: seq<Step>)
    requires Safe(w, names) && AllAllowed(w, names, steps) && Truthful(w, names, steps)
    ensures After(w, names, steps).lies == w.lies
    decreases |steps|
  {
    hide Journaled, Closed, Evolves, PrepareWallet, Persists, UserRejected, SaysRejected;
    if steps != [] {
      SafeStep(w, names, steps[0]);
      TruthfulNeverLies(Next(w, names, steps[0]), names, steps[1..]);
    }
  }

  /** Under a wallet that tells the truth about rejections at most one transaction is ever
      sent, with reloads, errors and lost replies anywhere. */
  lemma {:induction false} TruthfulWalletSendsOnce(server: Store, stored: Marker, names: Names, steps: seq<Step>)
    requires Journaled(server) && AllAllowed(Fresh(server, stored), names, steps)
    requires Truthful(Fresh(server, stored), names, steps)
    ensures After(Fresh(server, stored), names, steps).broadcasts <= 1
  {
    hide Journaled, Closed, Allowed, Next, Truthful;
    AtMostOneBroadcast(server, stored, names, steps);
    TruthfulNeverLies(Fresh(server, stored), names, steps);
  }

  lemma {:induction false} ClosedRun(w: World, names: Names, steps: seq<Step>)
    requires Journaled(w.server) && Closed(w.server, names.runId) && AllAllowed(w, names, steps)
    ensures var s := After(w, names, steps).server; Journaled(s) && Closed(s, names.runId)
    decreases |steps|
  {
    hide Journaled, Closed, Evolves, PrepareWallet, Persists, UserRejected, SaysRejected;
    if steps != [] {
      if steps[0].Serve? { ClosedForGood(w.server, steps[0].next, names.runId); }
      ClosedRun(Next(w, names, steps[0]), names, steps[1..]);
    }
  }

  /** Once reconciliation has cleared the marker, the server refuses to prepare another
      transaction, for good. */
  lemma {:induction false} ReconciledIsRefused(w: World, names: Names, events: seq<Event>, steps: seq<Step>,
      prior: Store, evidence: bool)
    requires Safe(w, names) && Allowed(w, names, Reconcile(events))
    requires Next(w, names, Reconcile(events)).client.marker != w.client.marker
    requires AllAllowed(Next(w, names, Reconcile(events)), names, steps)
    ensures PrepareWallet(After(Next(w, names, Reconcile(events)), names, steps).server, prior,
                          names.projectId, names.runId, evidence).Some?
  {
    hide Journaled, Closed, PrepareWallet, Persists;
    PersistedCloses(w.server, names.runId, events, w.client.marker.hash);
    ClosedRun(Next(w, names, Reconcile(events)), names, steps);
    ClosedRefuses(After(Next(w, names, Reconcile(events)), names, steps).server, prior,
                  names.projectId, names.runId, evidence);
  }

  // ---------------------------------------------------- what a reply leads to

  /** A submission from a client without a marker that counts reaches the wallet, if the
      server prepares it and the browser and the wallet go along. */
  function Attempt(prior: Store): seq<Step> {
    [Submit, ServerPrepares(prior, true), PreparedArrives(true, Writable), SwitchDone(true)]
  }

  lemma {:induction false} FirstStep(w: World, names: Names, steps: seq<Step>)
    requires steps != []
    ensures After(w, names, steps) == After(Next(w, names, steps[0]), names, steps[1..])
    ensures AllAllowed(w, names, steps) <==>
      Allowed(w, names, steps[0]) && AllAllowed(Next(w, names, steps[0]), names, steps[1..])
  {
  }

  lemma {:induction false} SubmissionReachesWallet(w: World, names: Names, prior: Store)
    requires w.client.stage.Idle? && (w.client.marker.NoMarker? || w.client.marker.Junk?) && w.request.NoRequest?
    requires PrepareWallet(w.server, prior, names.projectId, names.runId, true).None?
    ensures AllAllowed(w, names, Attempt(prior))
    ensures After(w, names, Attempt(prior)) == w.(client := Client(PendingMarker, Sending), request := Undecided)
  {
    hide PrepareWallet, Persists, After, AllAllowed;
    var steps := Attempt(prior);
    var w1 := Next(w, names, steps[0]);
    var w2 := Next(w1, names, steps[1]);
    var w3 := Next(w2, names, steps[2]);
    var w4 := Next(w3, names, steps[3]);
    FirstStep(w, names, steps);
    FirstStep(w1, names, steps[1..]);
    assert steps[1..][1..] == steps[2..] && steps[2..][1..] == steps[3..] && steps[3..][1..] == [];
    FirstStep(w2, names, steps[2..]);
    FirstStep(w3, names, steps[3..]);
    NoSteps(w4, names);
  }

  lemma {:induction false} NoSteps(w: World, names: Names)
    ensures After(w, names, []) == w && AllAllowed(w, names, [])
  {
  }

  lemma {:induction false} SubmissionStages(j: seq<Event>)
    requires Valid(j)
    ensures Fold(j).Some? && ProjectRun(j).Some? && |ProjectRun(j).value.stages| == 6
    ensures var p := ProjectRun(j).value;
      !p.terminal && p.stages[0] == Completed && p.stages[1] == StageStatus.Pending <==>
        !Terminal(j) && |Fold(j).value.lifecycle| == 2
  {
    ProjectionTerminal(j);
    hide Fold, Terminal;
  }

  /** The server prepares a transaction exactly for a live wallet run of the project whose
      preflight was accepted and nothing after it, with its evidence and no submission. */
  lemma {:induction false} PreparesIff(s: Store, prior: Store, projectId: Id, runId: Id, evidence: bool)
    requires Journaled(s)
    ensures PrepareWallet(s, prior, projectId, runId, evidence).None? <==>
      runId in s.runs && s.runs[runId].projectId == projectId && s.runs[runId].mode == Wallet &&
      !Terminal(s.events[runId]) && |Fold(s.events[runId]).value.lifecycle| == 2 && !HasSubmission(prior, runId) &&
      evidence
  {
    hide HasSubmission, Valid, Fold, Terminal, ProjectRun;
    if runId in s.runs {
      assert RunOk(runId, s.runs[runId], s.events[runId]);
      SubmissionStages(s.events[runId]);
    }
  }

  /** The transaction may have been sent, and nothing says which: the reply is no hash that
      could be stored and does not say that the user rejected, or the page is gone. */
  ghost predicate LeavesOpen(step: Step) {
    step.Reload? ||
    (step.WalletReplies? &&
     match step.reply
     case Hash(_, kept) => !kept
     case NoHash => true
     case Error(cause) => !SaysRejected(cause))
  }

  predicate Suspended(w: World) { w.client == Client(PendingMarker, Idle) && w.request.NoRequest? }

  lemma {:induction false} SuspendedRun(w: World, names: Names, steps: seq<Step>)
    requires Suspended(w)
    ensures var u := After(w, names, steps); Suspended(u) && u.broadcasts + u.orphans <= w.broadcasts + w.orphans
    decreases |steps|
  {
    hide PrepareWallet, Persists, SaysRejected;
    if steps != [] {
      SuspendedRun(Next(w, names, steps[0]), names, steps[1..]);
    }
  }

  /** After such an end of a request every later submission is refused, in every
      continuation, and nothing more reaches the wallet. */
  lemma {:induction false} OpenEndIsFinal(server: Store, stored: Marker, names: Names, before: seq<Step>, step: Step,
      after: seq<Step>)
    requires Journaled(server) && AllAllowed(Fresh(server, stored), names, before)
    requires After(Fresh(server, stored), names, before).client.stage.Sending? && LeavesOpen(step)
    ensures var t := Next(After(Fresh(server, stored), names, before), names, step); var u := After(t, names, after);
      t.client.marker == PendingMarker && Next(u, names, Submit) == u && u.client == t.client &&
      u.broadcasts + u.orphans <= t.broadcasts + t.orphans
  {
    hide Journaled, Closed, Allowed, UserRejected, SaysRejected, After, AllAllowed, PrepareWallet;
    SafeRun(Fresh(server, stored), names, before);
    var w := After(Fresh(server, stored), names, before);
    if step.WalletReplies? && step.reply.Error? { RejectedIff(step.reply.cause); }
    SuspendedRun(Next(w, names, step), names, after);
  }

  /** Nothing reaches the wallet when the transaction is not granted, is for another chain, or
      the storage does not take the marker; the marker is left only where it was written. */
  lemma {:induction false} ArrivalRefused(w: World, names: Names, expectedChain: bool, probe: Probe)
    requires w.client.stage.Answered?
    ensures var t := Next(w, names, PreparedArrives(expectedChain, probe));
      if w.client.stage.granted && expectedChain && probe == Writable
      then t == w.(client := Client(PendingMarker, Switching))
      else
        var left := w.client.stage.granted && expectedChain && probe == NotReadBack;
        t == w.(client := Client(if left then PendingMarker else w.client.marker, Idle))
  {
  }

  /** After a reply that says so the user can try again: the next submission reaches the
      wallet, if the server prepares it. The same holds after a failed switch of the chain. */
  lemma {:induction false} RejectionAllowsRetry(server: Store, stored: Marker, names: Names, before: seq<Step>,
      step: Step, prior: Store)
    requires Journaled(server) && AllAllowed(Fresh(server, stored), names, before)
    requires var w := After(Fresh(server, stored), names, before);
      (w.client.stage.Sending? && step.WalletReplies? && step.reply.Error? && SaysRejected(step.reply.cause)) ||
      (w.client.stage.Switching? && step == SwitchDone(false))
    requires PrepareWallet(After(Fresh(server, stored), names, before).server, prior, names.projectId, names.runId,
      true).None?
    ensures var t := Next(After(Fresh(server, stored), names, before), names, step);
      t.client == Client(NoMarker, Idle) &&
      After(t, names, Attempt(prior)).client.stage.Sending? && After(t, names, Attempt(prior)).request.Undecided?
  {
    hide Journaled, Closed, Allowed, UserRejected, SaysRejected, After, AllAllowed, PrepareWallet;
    SafeRun(Fresh(server, stored), names, before);
    var w := After(Fresh(server, stored), names, before);
    if step.WalletReplies? { RejectedIff(step.reply.cause); }
    SubmissionReachesWallet(Next(w, names, step), names, prior);
  }

  predicate Keeps(w: World, hash: string) {
    w.client.marker == Sent(hash) && w.request.NoRequest? && w.client.stage in {Idle, Attaching(hash)}
  }

  /** A hash that was stored stays the marker, and every later submission attaches it and
      asks the wallet for nothing, until a journal that holds the transaction is read. */
  lemma {:induction false} HashIsRecovered(w: World, names: Names, hash: string, steps: seq<Step>)
    requires Keeps(w, hash)
    requires forall step :: step in steps && step.Reconcile? ==>
      forall e :: e in step.events ==> e.body != Reached(RequestSubmitted("wallet", hash))
    ensures var u := After(w, names, steps);
      u.client.marker == Sent(hash) && u.broadcasts + u.orphans <= w.broadcasts + w.orphans &&
      Next(u, names, Submit).client == Client(Sent(hash), Attaching(hash))
    decreases |steps|
  {
    hide PrepareWallet, SaysRejected;
    if steps != [] {
      assert steps[0] in steps;
      HashIsRecovered(Next(w, names, steps[0]), names, hash, steps[1..]);
    }
  }

  lemma {:induction false} StoredHashIsKept(w: World, names: Names, hash: string)
    requires w.client.stage.Sending?
    ensures Keeps(Next(w, names, WalletReplies(Hash(hash, true))), hash)
  {
  }

  /** Reconciliation clears the marker if and only if the journal read holds its transaction. */
  lemma {:induction false} ReconcilesIff(w: World, names: Names, events: seq<Event>)
    ensures var m := w.client.marker; var t := Next(w, names, Reconcile(events)).client.marker;
      t == (if m.Sent? && (exists e :: e in events && e.body == Reached(RequestSubmitted("wallet", m.hash)))
            then NoMarker else m)
  {
    var m := w.client.marker;
    if m.Sent? {
      if exists e :: e in events && e.body == Reached(RequestSubmitted("wallet", m.hash)) {
        var e :| e in events && e.body == Reached(RequestSubmitted("wallet", m.hash));
        var i :| 0 <= i < |events| && events[i] == e;
        assert Persists(events[i], m.hash);
      } else {
        forall i | 0 <= i < |events| ensures !Persists(events[i], m.hash) {
          assert events[i] in events;
        }
      }
    }
  }

  // ------------------------------------------------------- the bound is reached

  /** One submission that the wallet sends and then reports as rejected by the user. */
  function FalseRejection(prior: Store): seq<Step> {
    [Submit, ServerPrepares(prior, true), PreparedArrives(true, Writable), SwitchDone(true), WalletSends,
     WalletReplies(Error(Coded(Number(4001))))]
  }

  function FalseRejections(prior: Store, n: nat): seq<Step> {
    if n == 0 then [] else FalseRejection(prior) + FalseRejections(prior, n - 1)
  }

  lemma {:induction false} AfterBoth(w: World, names: Names, first: seq<Step>, rest: seq<Step>)
    ensures After(w, names, first + rest) == After(After(w, names, first), names, rest)
    ensures AllAllowed(w, names, first + rest) <==>
      AllAllowed(w, names, first) && AllAllowed(After(w, names, first), names, rest)
    decreases |first|
  {
    hide Next, Allowed;
    if first == [] {
      assert first + rest == rest;
    } else {
      assert (first + rest)[1..] == first[1..] + rest;
      AfterBoth(Next(w, names, first[0]), names, first[1..], rest);
    }
  }

  lemma {:induction false} AfterFalseRejection(w: World, names: Names, prior: Store)
    requires w.client == Client(NoMarker, Idle) && w.request == NoRequest
    requires PrepareWallet(w.server, prior, names.projectId, names.runId, true).None?
    ensures var steps := FalseRejection(prior);
      AllAllowed(w, names, steps) &&
      After(w, names, steps) == w.(broadcasts := w.broadcasts + 1, lies := w.lies + 1)
  {
    hide PrepareWallet, Persists;
    var steps := FalseRejection(prior);
    var w1 := Next(w, names, steps[0]);
    var w2 := Next(w1, names, steps[1]);
    var w3 := Next(w2, names, steps[2]);
    var w4 := Next(w3, names, steps[3]);
    var w5 := Next(w4, names, steps[4]);
    var w6 := Next(w5, names, steps[5]);
    assert [steps[5]][1..] == [];
    assert After(w5, names, [steps[5]]) == w6 && AllAllowed(w5, names, [steps[5]]);
    assert steps[5..] == [steps[5]] && steps[4..][1..] == steps[5..] && steps[3..][1..] == steps[4..];
    assert steps[2..][1..] == steps[3..] && steps[1..][1..] == steps[2..];
    assert After(w4, names, steps[4..]) == w6 && AllAllowed(w4, names, steps[4..]);
    assert After(w3, names, steps[3..]) == w6 && AllAllowed(w3, names, steps[3..]);
    assert After(w2, names, steps[2..]) == w6 && AllAllowed(w2, names, steps[2..]);
    assert After(w1, names, steps[1..]) == w6 && AllAllowed(w1, names, steps[1..]);
  }

  /** The bound cannot be lowered: with n false rejections there is a run of n broadcasts
      that leaves the client ready to submit once more. */
  lemma {:induction false} FalseRejectionsRebroadcast(w: World, names: Names, prior: Store, n: nat)
    requires w.client == Client(NoMarker, Idle) && w.request == NoRequest
    requires PrepareWallet(w.server, prior, names.projectId, names.runId, true).None?
    ensures var steps := FalseRejections(prior, n);
      AllAllowed(w, names, steps) &&
      After(w, names, steps) == w.(broadcasts := w.broadcasts + n, lies := w.lies + n)
    decreases n
  {
    hide PrepareWallet, Next, Allowed, FalseRejection;
    if n > 0 {
      AfterFalseRejection(w, names, prior);
      var t := After(w, names, FalseRejection(prior));
      FalseRejectionsRebroadcast(t, names, prior, n - 1);
      AfterBoth(w, names, FalseRejection(prior), FalseRejections(prior, n - 1));
    }
  }

  // ------------------------------------------------------------- recovery keys

  predicate Unreserved(b: Byte) {
    var c := b as char;
    'A' <= c <= 'Z' || 'a' <= c <= 'z' || '0' <= c <= '9' || c in "-_.!~*'()"
  }

  function HexDigit(n: nat): char
    requires n < 16
  {
    "0123456789ABCDEF"[n]
  }

  /** encodeURIComponent on the UTF-8 bytes of a string. */
  function Encode(s: seq<Byte>): string {
    if s == [] then []
    else (if Unreserved(s[0]) then [s[0] as char] else ['%', HexDigit(s[0] / 16), HexDigit(s[0] % 16)]) + Encode(s[1..])
  }

  function RecoveryKey(runId: seq<Byte>, key: seq<Byte>): string {
    "proofline:" + Encode(runId) + ":wallet:" + Encode(key)
  }

  lemma {:induction false} NoColon(s: seq<Byte>)
    ensures ':' !in Encode(s)
  {
    if s != [] {
      NoColon(s[1..]);
    }
  }

  lemma {:induction false} EncodeInjective(a: seq<Byte>, b: seq<Byte>)
    requires Encode(a) == Encode(b)
    ensures a == b
  {
    if a != [] && b != [] {
      assert Encode(a)[0] == Encode(b)[0];
      assert Unreserved(a[0]) == Unreserved(b[0]);
      if !Unreserved(a[0]) {
        assert Encode(a)[1] == Encode(b)[1] && Encode(a)[2] == Encode(b)[2];
        HexInjective(a[0] / 16, b[0] / 16);
        HexInjective(a[0] % 16, b[0] % 16);
        assert Encode(a)[3..] == Encode(a[1..]) && Encode(b)[3..] == Encode(b[1..]);
      } else {
        assert Encode(a)[1..] == Encode(a[1..]) && Encode(b)[1..] == Encode(b[1..]);
      }
      EncodeInjective(a[1..], b[1..]);
      assert a == [a[0]] + a[1..] && b == [b[0]] + b[1..];
    }
  }

  lemma {:induction false} HexInjective(n: nat, m: nat)
    requires n < 16 && m < 16 && HexDigit(n) == HexDigit(m)
    ensures n == m
  {
  }

  function BeforeColon(s: string): string {
    if s == [] || s[0] == ':' then [] else [s[0]] + BeforeColon(s[1..])
  }

  lemma {:induction false} BeforeColonIs(a: string, rest: string)
    requires ':' !in a
    ensures BeforeColon(a + [':'] + rest) == a
  {
    if a == [] {
      assert (a + [':'] + rest)[0] == ':';
    } else {
      assert (a + [':'] + rest)[0] == a[0] && (a + [':'] + rest)[1..] == a[1..] + [':'] + rest;
      BeforeColonIs(a[1..], rest);
    }
  }

  lemma {:induction false} SplitAtColon(a: string, b: string, rest: string, tail: string)
    requires ':' !in a && ':' !in b && a + [':'] + rest == b + [':'] + tail
    ensures a == b && rest == tail
  {
    BeforeColonIs(a, rest);
    BeforeColonIs(b, tail);
    Cancel(a + [':'], rest, tail);
  }

  lemma {:induction false} Cancel(prefix: string, a: string, b: string)
    requires prefix + a == prefix + b
    ensures a == b
  {
    assert a == (prefix + a)[|prefix|..] && b == (prefix + b)[|prefix|..];
  }

  lemma {:induction false} Regroup(head: string, a: string, middle: string, b: string)
    ensures head + a + ([':'] + middle) + b == head + (a + [':'] + (middle + b))
  {
  }

  /** Two submissions share a marker only if they are for the same run and key. */
  lemma {:induction false} RecoveryKeysDistinct(runId: seq<Byte>, key: seq<Byte>, otherRun: seq<Byte>,
      otherKey: seq<Byte>)
    requires RecoveryKey(runId, key) == RecoveryKey(otherRun, otherKey)
    ensures runId == otherRun && key == otherKey
  {
    hide Encode;
    NoColon(runId);
    NoColon(otherRun);
    assert ":wallet:" == [':'] + "wallet:";
    Regroup("proofline:", Encode(runId), "wallet:", Encode(key));
    Regroup("proofline:", Encode(otherRun), "wallet:", Encode(otherKey));
    Cancel("proofline:", Encode(runId) + [':'] + ("wallet:" + Encode(key)),
           Encode(otherRun) + [':'] + ("wallet:" + Encode(otherKey)));
    SplitAtColon(Encode(runId), Encode(otherRun), "wallet:" + Encode(key), "wallet:" + Encode(otherKey));
    Cancel("wallet:", Encode(key), Encode(otherKey));
    EncodeInjective(runId, otherRun);
    EncodeInjective(key, otherKey);
  }
}
