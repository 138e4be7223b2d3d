/**
 The wallet session controller of src/services/wallet-session-controller.ts: its
 closure variables, its three flights, and completions that may come late.
*/
module SessionController {
  import opened Wrappers

  datatype Persistence = InSession | InMemory

  datatype Operation = RestoreOperation | SignOutOperation

  datatype FailureKind = Http | Transport | Contract | BadInput

  /** A failure after normalizedFailure. */
  datatype Failure = Failure(kind: FailureKind, status: int, code: string)

  datatype Snapshot =
    | Anonymous
    | Restoring
    | CreatingSession
    | Authenticated(persistence: Persistence, wallet: nat, project: nat, account: Option<nat>)
    | SigningOut(persistence: Persistence)
    | Unavailable(operation: Operation, offline: bool, code: string, persistence: Persistence)
    | Closed

  /** The closure variables; a flight is named by the revision it was started under.
      `stored` is what the browser's storage holds. */
  datatype Controller = Controller(
    state: Snapshot, token: Option<string>, persistence: Persistence, authenticated: Option<Snapshot>, closed: bool,
    revision: nat, restoreFlight: Option<nat>, createFlight: Option<nat>, signOutFlight: Option<nat>,
    stored: Option<string>)

  /** What a flight captured when it began. */
  datatype Flight =
    | RestoreFlight(stored: string)
    | CreateFlight(token: Option<string>, persistence: Persistence, authenticated: Option<Snapshot>)
    | SignOutFlight

  datatype Outcome =
    | Account(wallet: nat, project: nat, account: nat)
    | Session(token: string, wallet: nat, project: nat, writable: bool)
    | Revoked
    | Failed(failure: Failure)

  predicate ProjectToken(s: string) {
    "project_" <= s && |s| == 72 && forall c :: c in s[8..] ==> LowerHex(c)
  }

  predicate InvalidAuthority(f: Failure) {
    f.status == 401 || (f.status == 403 && f.code == "ACCOUNT_SESSION_REQUIRED")
  }

  const Initial := Controller(Anonymous, None, InSession, None, false, 0, None, None, None, None)

  // ----------------------------------------------------------- specifications

  function Invalidated(c: Controller): Controller {
    c.(revision := c.revision + 1, restoreFlight := None, createFlight := None, signOutFlight := None)
  }

  function RemoveStored(stored: Option<string>, removable: bool): Option<string> {
    if removable then None else stored
  }

  function Cleared(c: Controller, removable: bool): Controller {
    c.(token := None, authenticated := None, persistence := InSession, stored := RemoveStored(c.stored, removable),
       state := if c.closed then c.state else Anonymous)
  }

  function Current(c: Controller, attempt: nat): bool { !c.closed && c.revision == attempt }

  function ShownOr(authenticated: Option<Snapshot>): Snapshot {
    if authenticated.Some? then authenticated.value else Anonymous
  }

  /** restore, and the flight it leaves running if any. */
  function Restore(c: Controller, readable: bool, removable: bool): (Controller, Option<Flight>) {
    if c.closed || c.restoreFlight.Some? then (c, None)
    else
      var d := Invalidated(c);
      if !readable || d.stored.None? then (d.(state := Anonymous, token := None, authenticated := None), None)
      else if !ProjectToken(d.stored.value) then (Cleared(d, removable), None)
      else
        (d.(token := d.stored, persistence := InSession, state := Restoring, restoreFlight := Some(d.revision)),
         Some(RestoreFlight(d.stored.value)))
  }

  function CreateSession(c: Controller, validRequest: bool): (Controller, Option<Flight>) {
    if c.closed || c.createFlight.Some? || !validRequest then (c, None)
    else
      var d := Invalidated(c);
      (d.(state := CreatingSession, createFlight := Some(d.revision)),
       Some(CreateFlight(c.token, c.persistence, c.authenticated)))
  }

  function SignOut(c: Controller): (Controller, Option<Flight>) {
    if c.closed || c.signOutFlight.Some? then (c, None)
    else if c.token.None? then
      (if c.restoreFlight.Some? || c.createFlight.Some? then Invalidated(c).(state := Anonymous) else c, None)
    else
      var d := Invalidated(c);
      (d.(state := SigningOut(d.persistence), signOutFlight := Some(d.revision)), Some(SignOutFlight))
  }

  function Retry(c: Controller, readable: bool, removable: bool): (Controller, Option<Flight>) {
    if !c.state.Unavailable? then (c, None)
    else if c.state.operation.RestoreOperation? then Restore(c, readable, removable) else SignOut(c)
  }

  function ForgetBrowser(c: Controller, removable: bool): Controller {
    if c.closed then c else Cleared(Invalidated(c), removable)
  }

  function CancelPending(c: Controller): Controller {
    if c.closed then c else Invalidated(c).(state := ShownOr(c.authenticated))
  }

  function Close(c: Controller): Controller {
    if c.closed then c else Invalidated(c).(closed := true, token := None, authenticated := None, state := Closed)
  }

  function Failing(c: Controller, operation: Operation, f: Failure, removable: bool): Controller {
    if InvalidAuthority(f) then Cleared(c, removable)
    else c.(state := Unavailable(operation, f.kind.Transport?, f.code, c.persistence))
  }

  function Settled(flight: Option<nat>, attempt: nat): Option<nat> {
    if flight == Some(attempt) then None else flight
  }

  /** The rest of a restore flight after its answer. */
  function Restored(c: Controller, attempt: nat, outcome: Outcome, removable: bool): Controller {
    var d :=
      if !Current(c, attempt) then c
      else match outcome
        case Account(wallet, project, account) =>
          var shown := Authenticated(InSession, wallet, project, Some(account));
          c.(authenticated := Some(shown), state := shown)
        case Failed(f) => Failing(c, RestoreOperation, f, removable)
        case _ => c;
    d.(restoreFlight := Settled(d.restoreFlight, attempt))
  }

  function Created(c: Controller, attempt: nat, flight: Flight, outcome: Outcome, removable: bool): Controller
    requires flight.CreateFlight?
  {
    var d :=
      if !Current(c, attempt) then c
      else match outcome
        case Session(token, wallet, project, writable) =>
          var kept := if writable then InSession else InMemory;
          var shown := Authenticated(kept, wallet, project, None);
          c.(stored := if writable then Some(token) else RemoveStored(c.stored, removable),
             token := Some(token), persistence := kept, authenticated := Some(shown), state := shown)
        case Failed(_) =>
          c.(token := flight.token, persistence := flight.persistence, authenticated := flight.authenticated,
             state := ShownOr(flight.authenticated))
        case _ => c;
    d.(createFlight := Settled(d.createFlight, attempt))
  }

  function SignedOut(c: Controller, attempt: nat, outcome: Outcome, removable: bool): Controller {
    var d :=
      if !Current(c, attempt) then c
      else match outcome
        case Revoked => Cleared(c, removable)
        case Failed(f) => Failing(c, SignOutOperation, f, removable)
        case _ => c;
    d.(signOutFlight := Settled(d.signOutFlight, attempt))
  }

  // ------------------------------------------------------------------ the class

  class WalletSessionController {
    var state: Snapshot
    var projectToken: Option<string>
    var persistence: Persistence
    var authenticated: Option<Snapshot>
    var closed: bool
    var revision: nat
    var restoreFlight: Option<nat>
    var createFlight: Option<nat>
    var signOutFlight: Option<nat>
    var stored: Option<string>

    constructor (browser: Option<string>)
      ensures View() == Initial.(stored := browser)
    {
      state, projectToken, persistence, authenticated, closed := Anonymous, None, InSession, None, false;
      revision, restoreFlight, createFlight, signOutFlight, stored := 0, None, None, None, browser;
    }

    function View(): Controller
      reads this
    {
      Controller(state, projectToken, persistence, authenticated, closed, revision,
                 restoreFlight, createFlight, signOutFlight, stored)
    }

    method RemoveStoredToken(removable: bool)
      modifies this`stored
      ensures stored == RemoveStored(old(stored), removable)
    {
      if removable { stored := None; }
    }

    method ClearAuthority(removable: bool)
      modifies this
      ensures View() == Cleared(old(View()), removable)
    {
      projectToken, authenticated, persistence := None, None, InSession;
      RemoveStoredToken(removable);
      if !closed { state := Anonymous; }
    }

    method InvalidateFlights() returns (attempt: nat)
      modifies this
      ensures View() == Invalidated(old(View())) && attempt == revision
    {
      revision := revision + 1;
      restoreFlight, createFlight, signOutFlight := None, None, None;
      attempt := revision;
    }

    method BeginRestore(readable: bool, removable: bool) returns (started: Option<Flight>)
      modifies this
      ensures (View(), started) == Restore(old(View()), readable, removable)
    {
      if closed || restoreFlight.Some? { return None; }
      var attempt := InvalidateFlights();
      if !readable || stored.None? {
        state, projectToken, authenticated := Anonymous, None, None;
        return None;
      }
      if !ProjectToken(stored.value) {
        ClearAuthority(removable);
        return None;
      }
      projectToken, persistence, state := stored, InSession, Restoring;
      restoreFlight := Some(attempt);
      started := Some(RestoreFlight(stored.value));
    }

    method BeginCreateSession(validRequest: bool) returns (started: Option<Flight>)
      modifies this
      ensures (View(), started) == CreateSession(old(View()), validRequest)
    {
      if closed || createFlight.Some? || !validRequest { return None; }
      var flight := CreateFlight(projectToken, persistence, authenticated);
      var attempt := InvalidateFlights();
      state := CreatingSession;
      createFlight := Some(attempt);
      started := Some(flight);
    }

    method BeginSignOut() returns (started: Option<Flight>)
      modifies this
      ensures (View(), started) == SignOut(old(View()))
    {
      if closed || signOutFlight.Some? { return None; }
      if projectToken.None? {
        if restoreFlight.Some? || createFlight.Some? {
          var _ := InvalidateFlights();
          state := Anonymous;
        }
        return None;
      }
      var attempt := InvalidateFlights();
      state := SigningOut(persistence);
      signOutFlight := Some(attempt);
      started := Some(SignOutFlight);
    }

    method BeginRetry(readable: bool, removable: bool) returns (started: Option<Flight>)
      modifies this
      ensures (View(), started) == Retry(old(View()), readable, removable)
    {
      if !state.Unavailable? { return None; }
      if state.operation.RestoreOperation? {
        started := BeginRestore(readable, removable);
      } else {
        started := BeginSignOut();
      }
    }

    method Forget(removable: bool)
      modifies this
      ensures View() == ForgetBrowser(old(View()), removable)
    {
      if closed { return; }
      var _ := InvalidateFlights();
      ClearAuthority(removable);
    }

    method Cancel()
      modifies this
      ensures View() == CancelPending(old(View()))
    {
      if closed { return; }
      var _ := InvalidateFlights();
      state := if authenticated.Some? then authenticated.value else Anonymous;
    }

    method Shut()
      modifies this
      ensures View() == Close(old(View()))
    {
      if closed { return; }
      var _ := InvalidateFlights();
      closed := true;
      projectToken, authenticated, state := None, None, Closed;
    }

    method Fail(operation: Operation, f: Failure, removable: bool)
      modifies this
      ensures View() == Failing(old(View()), operation, f, removable)
    {
      if InvalidAuthority(f) {
        ClearAuthority(removable);
      } else {
        state := Unavailable(operation, f.kind.Transport?, f.code, persistence);
      }
    }

    method OnRestored(attempt: nat, outcome: Outcome, removable: bool)
      modifies this
      ensures View() == Restored(old(View()), attempt, outcome, removable)
    {
      if !closed && revision == attempt {
        match outcome {
          case Account(wallet, project, account) =>
            authenticated := Some(Authenticated(InSession, wallet, project, Some(account)));
            state := authenticated.value;
          case Failed(f) => Fail(RestoreOperation, f, removable);
          case _ =>
        }
      }
      if restoreFlight == Some(attempt) { restoreFlight := None; }
    }

    method OnCreated(attempt: nat, flight: Flight, outcome: Outcome, removable: bool)
      requires flight.CreateFlight?
      modifies this
      ensures View() == Created(old(View()), attempt, flight, outcome, removable)
    {
      if !closed && revision == attempt {
        match outcome {
          case Session(token, wallet, project, writable) =>
            var nextPersistence := InSession;
            if writable {
              stored := Some(token);
            } else {
              nextPersistence := InMemory;
              RemoveStoredToken(removable);
            }
            projectToken, persistence := Some(token), nextPersistence;
            authenticated := Some(Authenticated(nextPersistence, wallet, project, None));
            state := authenticated.value;
          case Failed(_) =>
            projectToken, persistence, authenticated := flight.token, flight.persistence, flight.authenticated;
            state := if flight.authenticated.Some? then flight.authenticated.value else Anonymous;
          case _ =>
        }
      }
      if createFlight == Some(attempt) { createFlight := None; }
    }

    method OnSignedOut(attempt: nat, outcome: Outcome, removable: bool)
      modifies this
      ensures View() == SignedOut(old(View()), attempt, outcome, removable)
    {
      if !closed && revision == attempt {
        match outcome {
          case Revoked => ClearAuthority(removable);
          case Failed(f) => Fail(SignOutOperation, f, removable);
          case _ =>
        }
      }
      if signOutFlight == Some(attempt) { signOutFlight := None; }
    }
  }

  // --------------------------------------------------------------------- runs

  /** The controller and the flights whose answer has not come. */
  datatype World = World(c: Controller, running: map<nat, Flight>)

  datatype Step =
    | DoRestore(readable: bool, removable: bool)
    | DoCreate(validRequest: bool)
    | DoSignOut
    | DoRetry(readable: bool, removable: bool)
    | DoForget(removable: bool)
    | DoCancel
    | DoClose
    | Complete(attempt: nat, outcome: Outcome, removable: bool)

  function Started(w: World, result: (Controller, Option<Flight>)): World {
    World(result.0, if result.1.Some? then w.running[result.0.revision := result.1.value] else w.running)
  }

  function Answered(c: Controller, attempt: nat, flight: Flight, outcome: Outcome, removable: bool): Controller {
    match flight
    case RestoreFlight(_) => Restored(c, attempt, outcome, removable)
    case CreateFlight(_, _, _) => Created(c, attempt, flight, outcome, removable)
    case SignOutFlight => SignedOut(c, attempt, outcome, removable)
  }

  predicate Answers(flight: Flight, outcome: Outcome) {
    outcome.Failed? ||
    match flight
    case RestoreFlight(_) => outcome.Account?
    case CreateFlight(_, _, _) => outcome.Session? && ProjectToken(outcome.token)
    case SignOutFlight => outcome.Revoked?
  }

  function Next(w: World, step: Step): World {
    match step
    case DoRestore(readable, removable) => Started(w, Restore(w.c, readable, removable))
    case DoCreate(validRequest) => Started(w, CreateSession(w.c, validRequest))
    case DoSignOut => Started(w, SignOut(w.c))
    case DoRetry(readable, removable) => Started(w, Retry(w.c, readable, removable))
    case DoForget(removable) => w.(c := ForgetBrowser(w.c, removable))
    case DoCancel => w.(c := CancelPending(w.c))
    case DoClose => w.(c := Close(w.c))
    case Complete(attempt, outcome, removable) =>
      if attempt !in w.running || !Answers(w.running[attempt], outcome) then w
      else World(Answered(w.c, attempt, w.running[attempt], outcome, removable), w.running - {attempt})
  }

  function After(w: World, steps: seq<Step>): World
    decreases |steps|
  {
    if steps == [] then w else After(Next(w, steps[0]), steps[1..])
  }

  function Start(browser: Option<string>): World { World(Initial.(stored := browser), map[]) }

  predicate Holds(flight: Option<nat>, w: World) {
    flight.Some? ==> flight.value == w.c.revision && flight.value in w.running && !w.c.closed
  }

  ghost predicate OneFlight(w: World) {
    Holds(w.c.restoreFlight, w) && Holds(w.c.createFlight, w) && Holds(w.c.signOutFlight, w) &&
    (w.c.restoreFlight.Some? ==> w.c.createFlight.None? && w.running[w.c.revision].RestoreFlight?) &&
    (w.c.createFlight.Some? ==> w.c.signOutFlight.None? && w.running[w.c.revision].CreateFlight?) &&
    (w.c.signOutFlight.Some? ==> w.c.restoreFlight.None? && w.running[w.c.revision].SignOutFlight?) &&
    (forall a :: a in w.running ==> a <= w.c.revision) &&
    (w.c.revision in w.running && !w.c.closed ==>
      w.c.restoreFlight.Some? || w.c.createFlight.Some? || w.c.signOutFlight.Some?)
  }

  predicate NeedsToken(s: Snapshot) { s.Authenticated? || s.Restoring? || s.SigningOut? || s.Unavailable? }

  /** What the variables owe each other. */
  ghost predicate Authority(w: World) {
    (NeedsToken(w.c.state) ==> w.c.token.Some?) &&
    (w.c.authenticated.Some? ==> w.c.token.Some? && w.c.authenticated.value.Authenticated?) &&
    (w.c.token.Some? ==> ProjectToken(w.c.token.value)) &&
    (w.c.token.Some? && w.c.persistence.InSession? ==> w.c.stored == w.c.token) &&
    (w.c.closed ==> w.c.state == Closed && w.c.token.None?) &&
    (w.c.closed <==> w.c.state.Closed?) &&
    (w.c.restoreFlight.Some? ==> w.c.state == Restoring) &&
    (w.c.createFlight.Some? ==> w.c.state == CreatingSession) &&
    (w.c.signOutFlight.Some? ==> w.c.state.SigningOut?)
  }

  /** What a pending creation would put back is what is there. */
  ghost predicate Captured(w: World) {
    w.c.createFlight.Some? && w.c.revision in w.running ==>
      w.running[w.c.revision] == CreateFlight(w.c.token, w.c.persistence, w.c.authenticated)
  }

  ghost predicate WorldOk(w: World) { OneFlight(w) && Authority(w) && Captured(w) }

  lemma {:induction false} WorldStep(w: World, step: Step)
    requires WorldOk(w)
    ensures WorldOk(Next(w, step))
  {
    hide WorldOk, Next;
    match step {
      case Complete(attempt, outcome, removable) => CompleteKeeps(w, attempt, outcome, removable);
      case _ => if step.DoRetry? { RetryKeeps(w, step); } else { CallKeeps(w, step); }
    }
  }

  lemma {:induction false} CallKeeps(w: World, step: Step)
    requires WorldOk(w) && !step.Complete? && !step.DoRetry?
    ensures WorldOk(Next(w, step))
  {
    hide ProjectToken, InvalidAuthority;
  }

  lemma {:induction false} RetryKeeps(w: World, step: Step)
    requires WorldOk(w) && step.DoRetry?
    ensures WorldOk(Next(w, step))
  {
    hide ProjectToken, InvalidAuthority;
  }

  lemma {:induction false} CompleteKeeps(w: World, attempt: nat, outcome: Outcome, removable: bool)
    requires WorldOk(w)
    ensures WorldOk(Next(w, Complete(attempt, outcome, removable)))
  {
    hide ProjectToken, InvalidAuthority;
    if attempt in w.running && attempt != w.c.revision {
      StaleChangesNothing(w, attempt, outcome, removable);
    }
  }

  lemma {:induction false} WorldRun(w: World, steps: seq<Step>)
    requires WorldOk(w)
    ensures WorldOk(After(w, steps))
    decreases |steps|
  {
    hide WorldOk, Next;
    if steps != [] {
      WorldStep(w, steps[0]);
      WorldRun(Next(w, steps[0]), steps[1..]);
    }
  }

  lemma {:induction false} StartOk(browser: Option<string>)
    ensures WorldOk(Start(browser))
  {
  }

  // ----------------------------------------------------------------- theorems

  /** A completion under an older revision, or after closing, changes no token, snapshot,
      flight or storage. */
  lemma {:induction false} StaleChangesNothing(w: World, attempt: nat, outcome: Outcome, removable: bool)
    requires OneFlight(w) && attempt in w.running && (attempt != w.c.revision || w.c.closed)
    ensures Next(w, Complete(attempt, outcome, removable)).c == w.c
  {
  }

  /** In every reachable state at most one flight is pending and it carries the current
      revision; a state that shows a session holds its token; a token kept for the session
      is the stored one, so that a reload can restore it. */
  lemma {:induction false} ReachableStates(browser: Option<string>, steps: seq<Step>)
    ensures var c := After(Start(browser), steps).c;
      (c.restoreFlight.Some? ==>
        c.createFlight.None? && c.signOutFlight.None? && c.restoreFlight.value == c.revision) &&
      (c.createFlight.Some? ==> c.restoreFlight.None? && c.signOutFlight.None? && c.createFlight.value == c.revision) &&
      (c.signOutFlight.Some? ==>
        c.restoreFlight.None? && c.createFlight.None? && c.signOutFlight.value == c.revision) &&
      (NeedsToken(c.state) ==> c.token.Some?) &&
      (c.token.Some? && c.persistence.InSession? ==> c.stored == c.token)
  {
    hide Next, ProjectToken;
    WorldRun(Start(browser), steps);
  }

  /** A failed creation of a session leaves token, persistence, authenticated record and
      storage as they were when it began, unless it had been overtaken; then it does not
      touch them at all. */
  lemma {:induction false} FailedCreationRestores(browser: Option<string>, before: seq<Step>, validRequest: bool,
      between: seq<Step>, attempt: nat, f: Failure, removable: bool)
    requires var w := After(Start(browser), before);
      CreateSession(w.c, validRequest).1.Some? && attempt == w.c.revision + 1
    requires var w := After(Next(After(Start(browser), before), DoCreate(validRequest)), between);
      attempt in w.running
    ensures var w := After(Start(browser), before).c;
      var u := After(Next(After(Start(browser), before), DoCreate(validRequest)), between);
      var t := Next(u, Complete(attempt, Failed(f), removable)).c;
      t.token == u.c.token && t.persistence == u.c.persistence && t.authenticated == u.c.authenticated &&
      t.stored == u.c.stored &&
      (u.c.revision == attempt && !u.c.closed ==>
        t.token == w.token && t.persistence == w.persistence && t.authenticated == w.authenticated &&
        t.state == ShownOr(w.authenticated))
  {
    hide Next, ProjectToken, WorldOk;
    StartOk(browser);
    WorldRun(Start(browser), before);
    var w := After(Start(browser), before);
    var v := Next(w, DoCreate(validRequest));
    WorldStep(w, DoCreate(validRequest));
    WorldRun(v, between);
    CreationStarts(w, validRequest);
    FlightKept(v, between, attempt);
    CreationFails(After(v, between), attempt, f, removable);
  }

  lemma {:induction false} CreationStarts(w: World, validRequest: bool)
    requires CreateSession(w.c, validRequest).1.Some?
    ensures var v := Next(w, DoCreate(validRequest));
      v.c.revision == w.c.revision + 1 && v.c.revision in v.running &&
      v.running[v.c.revision] == CreateFlight(w.c.token, w.c.persistence, w.c.authenticated)
  {
  }

  lemma {:induction false} CreationFails(u: World, attempt: nat, f: Failure, removable: bool)
    requires WorldOk(u) && attempt in u.running && u.running[attempt].CreateFlight?
    ensures var t := Next(u, Complete(attempt, Failed(f), removable)).c;
      t.token == u.c.token && t.persistence == u.c.persistence && t.authenticated == u.c.authenticated &&
      t.stored == u.c.stored &&
      (u.c.revision == attempt && !u.c.closed ==>
        t.token == u.running[attempt].token && t.persistence == u.running[attempt].persistence &&
        t.authenticated == u.running[attempt].authenticated && t.state == ShownOr(u.running[attempt].authenticated))
  {
    hide ProjectToken, InvalidAuthority;
  }

  /** A running flight keeps what it captured; revisions are not used twice. */
  lemma {:induction false} FlightKept(w: World, steps: seq<Step>, attempt: nat)
    requires WorldOk(w) && attempt in w.running && attempt <= w.c.revision
    ensures attempt in After(w, steps).running ==> After(w, steps).running[attempt] == w.running[attempt]
    decreases |steps|
  {
    hide WorldOk, Next;
    if steps != [] {
      WorldStep(w, steps[0]);
      RevisionGrows(w, steps[0], attempt);
      if attempt in Next(w, steps[0]).running {
        FlightKept(Next(w, steps[0]), steps[1..], attempt);
      } else {
        FlightGone(Next(w, steps[0]), steps[1..], attempt);
      }
    }
  }

  lemma {:induction false} FlightGone(w: World, steps: seq<Step>, attempt: nat)
    requires attempt !in w.running && attempt <= w.c.revision
    ensures attempt !in After(w, steps).running
    decreases |steps|
  {
    hide Next;
    if steps != [] {
      RevisionGrows(w, steps[0], attempt);
      FlightGone(Next(w, steps[0]), steps[1..], attempt);
    }
  }

  lemma {:induction false} RevisionGrows(w: World, step: Step, attempt: nat)
    requires attempt <= w.c.revision
    ensures attempt <= Next(w, step).c.revision
    ensures attempt in Next(w, step).running ==>
      attempt in w.running && Next(w, step).running[attempt] == w.running[attempt]
  {
    hide ProjectToken, InvalidAuthority;
  }

  /** Closing is final: no step changes anything any more, and no token is left. */
  lemma {:induction false} ClosedIsFinal(w: World, steps: seq<Step>)
    requires WorldOk(w) && w.c.closed
    ensures After(w, steps).c == w.c && w.c.token.None? && w.c.state == Closed
    decreases |steps|
  {
    hide ProjectToken, InvalidAuthority;
    if steps != [] {
      WorldStep(w, steps[0]);
      if steps[0].Complete? && steps[0].attempt in w.running {
        StaleChangesNothing(w, steps[0].attempt, steps[0].outcome, steps[0].removable);
      }
      ClosedIsFinal(Next(w, steps[0]), steps[1..]);
    }
  }

  // ------------------------------------------------------ what the answers do

  /** The flight of this attempt is the one the controller waits for. */
  predicate Awaited(w: World, attempt: nat) { attempt in w.running && attempt == w.c.revision && !w.c.closed }

  /** A failure that says the token has no authority any more. */
  predicate Unauthorized(f: Failure) {
    f.status == 401 || (f.status == 403 && f.code == "ACCOUNT_SESSION_REQUIRED")
  }

  /** Steps that leave the browser without authority: the answer that a session was revoked,
      an answer to a restore or sign-out that the token has none, and forgetting. */
  predicate DropsAuthority(w: World, step: Step) {
    match step
    case DoForget(_) => !w.c.closed
    case Complete(attempt, outcome, _) =>
      Awaited(w, attempt) && !w.running[attempt].CreateFlight? &&
      ((outcome.Revoked? && w.running[attempt].SignOutFlight?) || (outcome.Failed? && Unauthorized(outcome.failure)))
    case _ => false
  }

  /** Nothing of a session is left, in memory or in storage, and nothing is under way. */
  predicate SignedOff(w: World) {
    w.c.token.None? && w.c.authenticated.None? && w.c.stored.None? && (w.c.state.Anonymous? || w.c.state.Closed?) &&
    w.c.restoreFlight.None? && w.c.createFlight.None? && w.c.signOutFlight.None? &&
    (w.c.revision in w.running ==> w.c.closed) && forall a :: a in w.running ==> a <= w.c.revision
  }

  /** Such a step leaves no token, no record and, if storage lets go of it, nothing stored. */
  lemma {:induction false} AuthorityIsDropped(browser: Option<string>, before: seq<Step>, step: Step)
    requires DropsAuthority(After(Start(browser), before), step)
    ensures var w := After(Start(browser), before); var c := Next(w, step).c;
      c.token == None && c.authenticated == None && c.state == Anonymous && c.persistence == InSession &&
      c.stored == (if step.removable then None else w.c.stored) && (step.removable ==> SignedOff(Next(w, step)))
  {
    hide ProjectToken;
    StartOk(browser);
    WorldRun(Start(browser), before);
  }

  /** From then on, in every continuation, no session is shown and no token is there, until
      one is created: neither restoring nor any late answer brings one back. */
  lemma {:induction false} SignedOffStays(w: World, steps: seq<Step>)
    requires WorldOk(w) && SignedOff(w) && forall step :: step in steps ==> !step.DoCreate?
    ensures SignedOff(After(w, steps)) && !After(w, steps).c.state.Authenticated?
    decreases |steps|
  {
    hide ProjectToken, InvalidAuthority, WorldOk;
    if steps != [] {
      assert steps[0] in steps;
      WorldStep(w, steps[0]);
      SignedOffStep(w, steps[0]);
      SignedOffStays(Next(w, steps[0]), steps[1..]);
    }
  }

  lemma {:induction false} SignedOffStep(w: World, step: Step)
    requires OneFlight(w) && SignedOff(w) && !step.DoCreate?
    ensures SignedOff(Next(w, step))
  {
    hide ProjectToken, InvalidAuthority, Answers;
    if step.Complete? && step.attempt in w.running {
      StaleChangesNothing(w, step.attempt, step.outcome, step.removable);
    }
  }

  /** Any other failure keeps token, record and storage, and offers to repeat the operation. */
  lemma {:induction false} OtherFailuresKeep(browser: Option<string>, before: seq<Step>, attempt: nat, f: Failure,
      removable: bool)
    requires var w := After(Start(browser), before);
      Awaited(w, attempt) && !w.running[attempt].CreateFlight? && !Unauthorized(f)
    ensures var w := After(Start(browser), before); var c := Next(w, Complete(attempt, Failed(f), removable)).c;
      c.token == w.c.token && c.authenticated == w.c.authenticated && c.stored == w.c.stored && c.token.Some? &&
      c.state == Unavailable(if w.running[attempt].RestoreFlight? then RestoreOperation else SignOutOperation,
                             f.kind == Transport, f.code, c.persistence) &&
      c.persistence == w.c.persistence
  {
    hide ProjectToken;
    StartOk(browser);
    WorldRun(Start(browser), before);
  }

  /** Repeating it asks again: a restore if the token is still stored, a sign-out always. */
  lemma {:induction false} RetryRepeats(w: World, readable: bool, removable: bool)
    requires WorldOk(w) && w.c.state.Unavailable?
    requires w.c.state.operation.RestoreOperation? ==>
      readable && w.c.stored.Some? && ProjectToken(w.c.stored.value) && w.c.restoreFlight.None?
    requires w.c.state.operation.SignOutOperation? ==> w.c.signOutFlight.None?
    ensures var t := Next(w, DoRetry(readable, removable));
      Awaited(t, t.c.revision) && t.c.revision == w.c.revision + 1 &&
      (if w.c.state.operation.RestoreOperation?
       then t.running[t.c.revision] == RestoreFlight(w.c.stored.value) && t.c.token == w.c.stored
       else t.running[t.c.revision].SignOutFlight? && t.c.token == w.c.token)
  {
    hide ProjectToken;
  }

  /** A restore asks under the stored token; the answer shows the account, with that token. */
  lemma {:induction false} RestoreShows(w: World, wallet: nat, project: nat, account: nat, removable: bool)
    requires WorldOk(w) && !w.c.closed && w.c.restoreFlight.None?
    requires w.c.stored.Some? && ProjectToken(w.c.stored.value)
    ensures var t := Next(w, DoRestore(true, removable));
      Awaited(t, t.c.revision) && t.running[t.c.revision] == RestoreFlight(w.c.stored.value) && t.c.state == Restoring
    ensures var t := Next(w, DoRestore(true, removable));
      var u := Next(t, Complete(t.c.revision, Account(wallet, project, account), removable)).c;
      u.state == Authenticated(InSession, wallet, project, Some(account)) && u.authenticated == Some(u.state) &&
      u.token == w.c.stored == u.stored && u.persistence == InSession
  {
    hide ProjectToken;
  }

  /** What is stored when it is no token is dropped; without anything stored nothing is shown. */
  lemma {:induction false} NothingToRestore(w: World, readable: bool, removable: bool)
    requires WorldOk(w) && !w.c.closed && w.c.restoreFlight.None?
    requires !readable || w.c.stored.None? || !ProjectToken(w.c.stored.value)
    ensures var c := Next(w, DoRestore(readable, removable)).c;
      c.state == Anonymous && c.token == None && c.authenticated == None && c.restoreFlight == None &&
      c.stored == if readable && removable then None else w.c.stored
  {
    hide ProjectToken;
  }

  /** A session that was created is shown under its token; kept in storage, a new page
      restores it under the same token, and otherwise no other token is left there. */
  lemma {:induction false} CreatedIsShown(browser: Option<string>, before: seq<Step>, attempt: nat, token: string,
      wallet: nat, project: nat, writable: bool, removable: bool)
    requires var w := After(Start(browser), before);
      Awaited(w, attempt) && w.running[attempt].CreateFlight? && ProjectToken(token)
    ensures var w := After(Start(browser), before);
      var c := Next(w, Complete(attempt, Session(token, wallet, project, writable), removable)).c;
      c.state == Authenticated(if writable then InSession else InMemory, wallet, project, None) &&
      c.authenticated == Some(c.state) && c.token == Some(token) &&
      (writable ==> c.stored == Some(token)) &&
      (writable ==> Next(Start(c.stored), DoRestore(true, removable)).running[1] == RestoreFlight(token)) &&
      (!writable && removable ==> c.stored == None)
  {
    hide ProjectToken;
    StartOk(browser);
    WorldRun(Start(browser), before);
  }

  /** Cancelling shows the session there was before, if any, and lets no answer change it. */
  lemma {:induction false} CancelShowsLast(w: World, attempt: nat, outcome: Outcome, removable: bool)
    requires WorldOk(w) && !w.c.closed && attempt in w.running
    ensures var t := Next(w, DoCancel);
      t.c.state == (if w.c.authenticated.Some? then w.c.authenticated.value else Anonymous) &&
      t.c.token == w.c.token && t.c.stored == w.c.stored &&
      Next(t, Complete(attempt, outcome, removable)).c == t.c
  {
    hide ProjectToken, InvalidAuthority;
    var t := Next(w, DoCancel);
    WorldStep(w, DoCancel);
    StaleChangesNothing(t, attempt, outcome, removable);
  }

  /** A token is 64 lower-case hex digits after "project_". */
  lemma {:induction false} TokenIff(s: string)
    ensures ProjectToken(s) <==>
      exists digits: string :: s == "project_" + digits && |digits| == 64 && forall c :: c in digits ==> LowerHex(c)
  {
    if ProjectToken(s) {
      assert s == "project_" + s[8..];
    }
    if digits: string :| s == "project_" + digits && |digits| == 64 && forall c :: c in digits ==> LowerHex(c) {
      assert s[8..] == digits;
    }
  }

  /** While an operation is under way the same call joins it: nothing starts anew. */
  lemma {:induction false} RepeatedCallsJoin(w: World, readable: bool, removable: bool, validRequest: bool)
    ensures w.c.restoreFlight.Some? ==> Next(w, DoRestore(readable, removable)) == w
    ensures w.c.createFlight.Some? ==> Next(w, DoCreate(validRequest)) == w
    ensures w.c.signOutFlight.Some? ==> Next(w, DoSignOut) == w
  {
  }

  /** Otherwise a valid request starts a creation, whatever else is under way; an invalid one
      does nothing. Token, record and storage stay until it is answered. */
  lemma {:induction false} CreateAsks(w: World, validRequest: bool)
    requires WorldOk(w) && !w.c.closed && w.c.createFlight.None?
    ensures var t := Next(w, DoCreate(validRequest));
      if !validRequest then t == w
      else
        Awaited(t, t.c.revision) && t.running[t.c.revision].CreateFlight? && t.c.revision == w.c.revision + 1 &&
        t.c.state == CreatingSession && t.c.token == w.c.token && t.c.authenticated == w.c.authenticated &&
        t.c.stored == w.c.stored && t.c.restoreFlight.None? && t.c.signOutFlight.None?
  {
    hide ProjectToken;
  }

  /** With a token a sign-out is asked for, whatever else is under way; without one a restore
      or creation under way is given up and nothing is shown, and otherwise nothing happens. */
  lemma {:induction false} SignOutAsks(w: World)
    requires WorldOk(w) && !w.c.closed && w.c.signOutFlight.None?
    ensures var t := Next(w, DoSignOut);
      if w.c.token.Some? then
        Awaited(t, t.c.revision) && t.running[t.c.revision].SignOutFlight? && t.c.revision == w.c.revision + 1 &&
        t.c.state == SigningOut(w.c.persistence) && t.c.token == w.c.token && t.c.stored == w.c.stored &&
        t.c.restoreFlight.None? && t.c.createFlight.None?
      else if w.c.createFlight.Some? || w.c.restoreFlight.Some? then
        t.c.state == Anonymous && t.c.createFlight.None? && t.c.restoreFlight.None? &&
        t.c.revision == w.c.revision + 1 && t.c.stored == w.c.stored && t.running == w.running
      else t == w
  {
    hide ProjectToken;
  }

  /** Closing drops token and record at once and leaves what is stored to the next page. */
  lemma {:induction false} CloseEnds(w: World)
    requires !w.c.closed
    ensures var t := Next(w, DoClose);
      t.c.closed && t.c.state == Closed && t.c.token == None && t.c.authenticated == None && t.c.stored == w.c.stored &&
      t.c.restoreFlight.None? && t.c.createFlight.None? && t.c.signOutFlight.None?
  {
  }

  /** A page: sign in, keep the token, and on the next page restore it and sign out. */
  lemma {:induction false} SignInToSignOut(token: string, wallet: nat, project: nat, account: nat)
    requires ProjectToken(token)
    ensures var first := After(Start(None), [DoCreate(true), Complete(1, Session(token, wallet, project, true), true)]);
      var next := After(Start(first.c.stored),
                        [DoRestore(true, true), Complete(1, Account(wallet, project, account), true)]);
      var last := After(next, [DoSignOut, Complete(2, Revoked, true)]);
      first.c.state == Authenticated(InSession, wallet, project, None) &&
      next.c.state == Authenticated(InSession, wallet, project, Some(account)) && next.c.token == Some(token) &&
      last.c.state == Anonymous && last.c.token == None && last.c.stored == None
  {
    hide ProjectToken;
    var first := Next(Next(Start(None), DoCreate(true)), Complete(1, Session(token, wallet, project, true), true));
    TwoSteps(Start(None), DoCreate(true), Complete(1, Session(token, wallet, project, true), true));
    TwoSteps(Start(first.c.stored), DoRestore(true, true), Complete(1, Account(wallet, project, account), true));
    var next := Next(Next(Start(first.c.stored), DoRestore(true, true)),
                     Complete(1, Account(wallet, project, account), true));
    TwoSteps(next, DoSignOut, Complete(2, Revoked, true));
  }

  lemma {:induction false} TwoSteps(w: World, a: Step, b: Step)
    ensures After(w, [a, b]) == Next(Next(w, a), b)
  {
    hide Next;
    assert [a, b][1..] == [b] && [b][1..] == [];
    assert After(Next(w, a), [b]) == After(Next(Next(w, a), b), []);
    assert After(Next(Next(w, a), b), []) == Next(Next(w, a), b);
  }
}
