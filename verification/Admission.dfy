/**
 Run admission: createRun of apps/api/src/production-service.ts over the stored tables
 and the shared quota windows, interleaved with everything the queue does.
*/
module Admission {
  import opened Wrappers
  import opened Journal
  import opened CommandQueue
  import opened QueueInvariants
  import opened QueueTheorems
  import opened QuotaWindows

  datatype Policy = Policy(runsPerDay: nat, activeLive: nat)

  datatype Db = Db(store: Store, windows: Windows)

  datatype Refusal = IdempotencyConflict | RunQuotaExhausted(retryAfter: int) | ActiveLiveLimit | Internal

  datatype Answer = Accepted(runId: Id) | Denied(why: Refusal)

  /** One call. The clock of the run is the one its day was reserved under; each later
      statement reads the database clock again. */
  datatype Call = Call(run: NewRun, policy: Option<Policy>, liveClock: int, rejectClock: int)

  predicate IsRunOf(s: Store, r: Id, projectId: Id, key: string) {
    r in s.runs && s.runs[r].projectId == projectId && s.runs[r].key == key
  }

  function Judge(s: Store, r: Id, n: NewRun): Answer
    requires r in s.runs
  {
    if s.runs[r].fingerprint == n.fingerprint then Accepted(r) else Denied(IdempotencyConflict)
  }

  /** The select by project and idempotency key, and the answer a found row gives. */
  ghost function Recorded(s: Store, n: NewRun): Option<Answer> {
    if HasRun(s, n.projectId, n.key) then
      var r :| r in s.runs && s.runs[r].projectId == n.projectId && s.runs[r].key == n.key;
      Some(Judge(s, r, n))
    else None
  }

  ghost function Reconcile(s: Store, n: NewRun): Answer {
    var found := Recorded(s, n);
    if found.Some? then found.value else Denied(IdempotencyConflict)
  }

  predicate Live(run: RunRow) {
    !run.mode.Replay? && !(run.projection.Some? && run.projection.value.terminal)
  }

  function LiveRuns(s: Store, projectId: Id): set<Id> {
    set r | r in s.runs && s.runs[r].projectId == projectId && Live(s.runs[r])
  }

  function RunsOfDay(s: Store, projectId: Id, day: int): set<Id> {
    set r | r in s.runs && s.runs[r].projectId == projectId && WindowStart(RunDay, s.runs[r].createdClock) == day
  }

  function DayKey(n: NewRun): WindowKey { KeyAt(RunDay, Project(n.projectId), n.clock) }

  /** reserveProjectDailyQuota */
  function ReserveDay(w: Windows, n: NewRun, policy: Policy, rejectClock: int): Result<Windows, Refusal> {
    match Reserve(w, DayKey(n), policy.runsPerDay)
    case Reserved(v) => Ok(v)
    case CheckViolation => Err(Internal)
    case Exhausted =>
      var stored := KeyAt(RunDay, Project(n.projectId), rejectClock);
      if stored in w then Err(RunQuotaExhausted(RetryAfterSeconds(rejectClock, End(stored), 86_400)))
      else Err(Internal)
  }

  /** enforceActiveLiveQuota: the day's first caller stores the limit that counts. */
  function EnforceLive(s: Store, w: Windows, n: NewRun, policy: Policy, liveClock: int): Result<Windows, Refusal> {
    var key := KeyAt(ActiveLive, Project(n.projectId), liveClock);
    if key !in w && policy.activeLive == 0 then Err(Internal)
    else
      var v := if key in w then w else w[key := Window(policy.activeLive, 0)];
      if |LiveRuns(s, n.projectId)| >= v[key].limit then Err(ActiveLiveLimit) else Ok(v)
  }

  /** The inserts; a unique violation rolls everything back and reads once more. */
  ghost function InsertRun(db: Db, later: Store, n: NewRun, w: Windows): (Db, Answer) {
    match CreateRunTx(db.store, n)
    case Ok(t) => (Db(t, w), Accepted(n.runId))
    case Err(_) => (db, Reconcile(later, n))
  }

  /** createRun. Its first read may have seen an earlier store than the one its locked
      part runs on, and its reconciling read a later one. */
  ghost function Admit(seen: Store, db: Db, later: Store, c: Call): (Db, Answer) {
    var n := c.run;
    var first := Recorded(seen, n);
    if first.Some? then (db, first.value)
    else if c.policy.None? then InsertRun(db, later, n, db.windows)
    else
      var raced := Recorded(db.store, n);
      if raced.Some? then (db, raced.value)
      else match ReserveDay(db.windows, n, c.policy.value, c.rejectClock)
        case Err(why) => (db, Denied(why))
        case Ok(w) =>
          if n.mode.Replay? then InsertRun(db, later, n, w)
          else match EnforceLive(db.store, w, n, c.policy.value, c.liveClock)
            case Err(why) => (db, Denied(why))
            case Ok(v) => InsertRun(db, later, n, v)
  }

  // ----------------------------------------------------------------- one call

  lemma {:induction false} RecordedIs(s: Store, r: Id, n: NewRun)
    requires KeysUnique(s) && IsRunOf(s, r, n.projectId, n.key)
    ensures Recorded(s, n) == Some(Judge(s, r, n))
  {
    var q :| q in s.runs && s.runs[q].projectId == n.projectId && s.runs[q].key == n.key &&
      Recorded(s, n) == Some(Judge(s, q, n));
    assert q == r;
  }

  /** A run keeps its key for good, so an earlier read that found the key found this run. */
  lemma {:induction false} SeenBefore(seen: Store, s: Store, r: Id, n: NewRun)
    requires Evolves(seen, s) && KeysUnique(s) && IsRunOf(s, r, n.projectId, n.key)
    ensures Recorded(seen, n).None? || Recorded(seen, n) == Some(Judge(s, r, n))
  {
    if HasRun(seen, n.projectId, n.key) {
      var q :| q in seen.runs && seen.runs[q].projectId == n.projectId && seen.runs[q].key == n.key &&
        Recorded(seen, n) == Some(Judge(seen, q, n));
      assert SameRun(seen.runs[q], s.runs[q]);
      assert IsRunOf(s, q, n.projectId, n.key);
    }
  }

  /** Repeating a call whose run exists returns that run, or the conflict if the request
      differs, and consumes nothing, whatever its reads saw. */
  lemma {:induction false} ReplayConsumesNothing(seen: Store, db: Db, later: Store, c: Call, r: Id)
    requires KeysUnique(db.store) && KeysUnique(later) && Evolves(seen, db.store) && Evolves(db.store, later)
    requires IsRunOf(db.store, r, c.run.projectId, c.run.key)
    ensures Admit(seen, db, later, c) == (db, Judge(db.store, r, c.run))
  {
    hide KeysUnique, ReserveDay, EnforceLive, Recorded;
    SeenBefore(seen, db.store, r, c.run);
    RecordedIs(db.store, r, c.run);
    assert SameRun(db.store.runs[r], later.runs[r]);
    RecordedIs(later, r, c.run);
    assert HasRun(db.store, c.run.projectId, c.run.key);
  }

  /** A refused call changes nothing; an accepted one changes nothing or adds its run. */
  lemma {:induction false} AllOrNothing(seen: Store, db: Db, later: Store, c: Call)
    ensures var (after, answer) := Admit(seen, db, later, c);
      after == db || (CreateRunTx(db.store, c.run) == Ok(after.store) && answer == Accepted(c.run.runId))
  {
    hide Recorded, ReserveDay, EnforceLive, CreateRunTx, Reconcile;
  }

  /** A new key is admitted exactly when its day has room, the live limit has room, and
      neither the new ids nor the derived preflight key is taken. */
  lemma {:induction false} FreshKeyAdmitted(db: Db, later: Store, c: Call)
    requires c.policy.Some? && !HasRun(db.store, c.run.projectId, c.run.key) && Lawful(db.windows)
    requires c.policy.value.runsPerDay > 0 && c.policy.value.activeLive > 0
    ensures var (after, answer) := Admit(db.store, db, later, c);
      var n, p := c.run, c.policy.value;
      after != db <==>
        Used(db.windows, DayKey(n)) < LimitOf(db.windows, DayKey(n), p.runsPerDay) &&
        (n.mode.Replay? ||
         |LiveRuns(db.store, n.projectId)| < LimitOf(db.windows,
           KeyAt(ActiveLive, Project(n.projectId), c.liveClock), p.activeLive)) &&
        n.runId !in db.store.runs && n.commandId !in db.store.commands &&
        !HasIntent(db.store, n.projectId, n.key + ":preflight")
  {
    hide HasIntent, LiveRuns, ProjectRun, Reconcile;
    var n := c.run;
    if CreateRunTx(db.store, n).Ok? {
      assert n.runId in CreateRunTx(db.store, n).value.runs;
    }
  }

  /** The day, the live limit and the new ids leave room for the call. */
  predicate HasRoom(db: Db, c: Call)
    requires c.policy.Some?
  {
    var n, p := c.run, c.policy.value;
    p.runsPerDay > 0 && p.activeLive > 0 &&
    Used(db.windows, DayKey(n)) < LimitOf(db.windows, DayKey(n), p.runsPerDay) &&
    (n.mode.Replay? ||
     |LiveRuns(db.store, n.projectId)| <
       LimitOf(db.windows, KeyAt(ActiveLive, Project(n.projectId), c.liveClock), p.activeLive)) &&
    n.runId !in db.store.runs && n.commandId !in db.store.commands
  }

  /** A call with a new key and room is answered with its new run, unless its derived
      preflight key is taken: then it is answered with the idempotency conflict, although
      no run has its key, and nothing changes. */
  lemma {:induction false} FreshKeyAnswered(seen: Store, db: Db, later: Store, c: Call)
    requires c.policy.Some? && Lawful(db.windows) && HasRoom(db, c)
    requires !HasRun(seen, c.run.projectId, c.run.key) && !HasRun(db.store, c.run.projectId, c.run.key)
    ensures var (after, answer) := Admit(seen, db, later, c);
      if HasIntent(db.store, c.run.projectId, c.run.key + ":preflight")
      then after == db && (!HasRun(later, c.run.projectId, c.run.key) ==> answer == Denied(IdempotencyConflict))
      else CreateRunTx(db.store, c.run) == Ok(after.store) && answer == Accepted(c.run.runId)
  {
    hide HasIntent, LiveRuns, ProjectRun, HasRun, WindowStart;
  }

  /** A call with a new key is refused for the day first, with the delay into the day after the
      refusal if that day has a window, and then, for a live run, for the live limit; a limit
      of none that nothing is stored for is an internal error. */
  lemma {:induction false} FreshKeyRefused(seen: Store, db: Db, later: Store, c: Call)
    requires c.policy.Some? && Lawful(db.windows)
    requires !HasRun(seen, c.run.projectId, c.run.key) && !HasRun(db.store, c.run.projectId, c.run.key)
    ensures var n, p := c.run, c.policy.value;
      var (after, answer) := Admit(seen, db, later, c);
      var live := KeyAt(ActiveLive, Project(n.projectId), c.liveClock);
      var today := KeyAt(RunDay, Project(n.projectId), c.rejectClock);
      if DayKey(n) !in db.windows && p.runsPerDay == 0 then (after, answer) == (db, Denied(Internal))
      else if Used(db.windows, DayKey(n)) >= LimitOf(db.windows, DayKey(n), p.runsPerDay) then
        (after, answer) == (db, Denied(
          if today in db.windows
          then RunQuotaExhausted(RetryAfterSeconds(c.rejectClock, today.start + 86_400_000, 86_400)) else Internal)) &&
        (WindowStart(RunDay, c.rejectClock) == WindowStart(RunDay, n.clock) ==> today in db.windows)
      else if !n.mode.Replay? && live !in db.windows && p.activeLive == 0 then (after, answer) == (db, Denied(Internal))
      else if !n.mode.Replay? && |LiveRuns(db.store, n.projectId)| >= LimitOf(db.windows, live, p.activeLive) then
        (after, answer) == (db, Denied(ActiveLiveLimit))
      else !answer.Denied? || answer.why in {IdempotencyConflict, Internal}
  {
    hide HasIntent, LiveRuns, ProjectRun, HasRun, WindowStart, CreateRunTx, RetryAfterSeconds, Lawful;
    var n := c.run;
    RecordedNone(seen, n);
    RecordedNone(db.store, n);
    RecordedAnswers(later, n);
    DayIsFull(db.windows, DayKey(n), c.policy.value.runsPerDay);
  }

  lemma {:induction false} RecordedNone(s: Store, n: NewRun)
    requires !HasRun(s, n.projectId, n.key)
    ensures Recorded(s, n).None?
  {
  }

  lemma {:induction false} DayIsFull(w: Windows, key: WindowKey, limit: nat)
    requires Lawful(w)
    ensures Used(w, key) >= LimitOf(w, key, limit) && (key in w || limit > 0) ==>
      key in w && Reserve(w, key, limit).Exhausted?
    ensures Used(w, key) < LimitOf(w, key, limit) ==> Reserve(w, key, limit).Reserved?
    ensures key !in w && limit == 0 ==> Reserve(w, key, limit).CheckViolation?
  {
  }

  /** The delay a refused call names leads exactly into the next day, counted from the
      clock of the refusal. */
  lemma {:induction false} RefusalNamesDelay(seen: Store, db: Db, later: Store, c: Call)
    ensures var answer := Admit(seen, db, later, c).1;
      answer.Denied? && answer.why.RunQuotaExhausted? ==>
        1 <= answer.why.retryAfter <= 86_400 &&
        WindowStart(RunDay, c.rejectClock + 1_000 * answer.why.retryAfter) == WindowStart(RunDay, c.rejectClock) + DAY
  {
    hide Recorded, CreateRunTx, EnforceLive, WindowStart, RetryAfterSeconds;
    DelayIsLeast(RunDay, c.rejectClock);
    RecordedAnswers(seen, c.run);
    RecordedAnswers(db.store, c.run);
    RecordedAnswers(later, c.run);
    LiveRefusals(db.store, c);
  }

  lemma {:induction false} RecordedAnswers(s: Store, n: NewRun)
    ensures Recorded(s, n).Some? ==>
      Recorded(s, n).value.Accepted? || Recorded(s, n).value == Denied(IdempotencyConflict)
  {
  }

  lemma {:induction false} LiveRefusals(s: Store, c: Call)
    ensures forall w, p :: EnforceLive(s, w, c.run, p, c.liveClock).Err? ==>
      !EnforceLive(s, w, c.run, p, c.liveClock).error.RunQuotaExhausted?
  {
    hide LiveRuns, WindowStart;
  }

  // ------------------------------------------------------------------ service

  class AdmissionService {
    var db: Db

    constructor (d: Db)
      ensures db == d
    {
      db := d;
    }

    static method SelectRun(s: Store, n: NewRun) returns (found: Option<Answer>)
      requires KeysUnique(s)
      ensures found == Recorded(s, n)
    {
      if HasRun(s, n.projectId, n.key) {
        var r :| r in s.runs && s.runs[r].projectId == n.projectId && s.runs[r].key == n.key;
        RecordedIs(s, r, n);
        found := Some(Judge(s, r, n));
      } else {
        found := None;
      }
    }

    method CreateRun(seen: Store, later: Store, c: Call) returns (answer: Answer)
      requires KeysUnique(seen) && KeysUnique(db.store) && KeysUnique(later)
      modifies this
      ensures (db, answer) == Admit(seen, old(db), later, c)
    {
      var n := c.run;
      var existing := SelectRun(seen, n);
      if existing.Some? { return existing.value; }
      var windows := db.windows;
      if c.policy.Some? {
        var raced := SelectRun(db.store, n);
        if raced.Some? { return raced.value; }
        match ReserveDay(windows, n, c.policy.value, c.rejectClock) {
          case Err(why) => return Denied(why);
          case Ok(reserved) => windows := reserved;
        }
        if !n.mode.Replay? {
          match EnforceLive(db.store, windows, n, c.policy.value, c.liveClock) {
            case Err(why) => return Denied(why);
            case Ok(stored) => windows := stored;
          }
        }
      }
      match CreateRunTx(db.store, n) {
        case Ok(store) =>
          db := Db(store, windows);
          answer := Accepted(n.runId);
        case Err(_) =>
          var found := SelectRun(later, n);
          answer := if found.Some? then found.value else Denied(IdempotencyConflict);
      }
    }
  }

  // --------------------------------------------------------------------- runs

  /** The tables and the latest time a cleanup has run at. */
  datatype World = World(db: Db, cleanedTo: int)

  datatype Step =
    | Create(seen: Store, later: Store, call: Call)
    | Work(action: Action)
    | Clean(victims: set<WindowKey>, now: int)

  ghost function Next(w: World, step: Step): World {
    match step
    case Create(seen, later, c) => w.(db := Admit(seen, w.db, later, c).0)
    case Work(a) => w.(db := w.db.(store := Apply(w.db.store, a)))
    case Clean(victims, now) =>
      World(w.db.(windows := Remove(w.db.windows, victims)), Max(w.cleanedTo, now))
  }

  ghost predicate Allowed(w: World, step: Step) {
    match step
    case Create(_, _, c) => c.policy.Some?
    case Work(a) => !a.CreateRun? && Admissible(w.db.store, a)
    case Clean(victims, now) => Removable(w.db.windows, victims, now)
  }

  ghost function After(w: World, steps: seq<Step>): World
    decreases |steps|
  {
    if steps == [] then w else After(Next(w, steps[0]), steps[1..])
  }

  ghost predicate AllAllowed(w: World, steps: seq<Step>)
    decreases |steps|
  {
    steps == [] || (Allowed(w, steps[0]) && AllAllowed(Next(w, steps[0]), steps[1..]))
  }

  predicate IsDay(day: int) { WindowStart(RunDay, day) == day }

  ghost predicate DaysCounted(w: World) {
    forall p: Id, day: int :: IsDay(day) && Young(WindowKey(RunDay, Project(p), day), w.cleanedTo) ==>
      |RunsOfDay(w.db.store, p, day)| == Used(w.db.windows, WindowKey(RunDay, Project(p), day))
  }

  ghost predicate WorldOk(w: World) {
    Inv(w.db.store) && Lawful(w.db.windows) && DaysCounted(w)
  }

  const Start := World(Db(Empty, map[]), 0)

  lemma {:induction false} StartOk()
    ensures WorldOk(Start)
  {
    EmptyKeeps();
    forall p: Id, day: int ensures RunsOfDay(Empty, p, day) == {} {
    }
  }

  // ------------------------------------------------------- sets of runs, moved

  /** No transaction of the queue creates a run or changes what admission reads of one. */
  lemma {:induction false} RunsStay(s: Store, a: Action)
    requires Inv(s) && Admissible(s, a) && !a.CreateRun?
    ensures SameRuns(s, Apply(s, a))
  {
    hide Inv, ClaimTx, RetryTx, CompleteTx, InsertCommand;
    if Transaction(s, a).Ok? {
      match a {
        case Insert(id, row) => InsertShape(s, id, row);
        case Claim(c, token, now, wall) =>
          ClaimOkIsClaimable(s, c, token, now, wall);
          ClaimFacts(s, c, token, now, wall);
        case Renew(c, token, now, interval) =>
        case Complete(c, token, output, now) => CompleteFacts(s, c, token, output, now);
        case Retry(c, token, failure, now, wall) => RetryFacts(s, c, token, failure, now, wall);
      }
    }
  }

  lemma {:induction false} SameDays(s: Store, t: Store, p: Id, day: int)
    requires SameRuns(s, t)
    ensures RunsOfDay(t, p, day) == RunsOfDay(s, p, day)
  {
  }

  lemma {:induction false} CreatedRow(s: Store, n: NewRun)
    requires CreateRunTx(s, n).Ok?
    ensures var t := CreateRunTx(s, n).value;
      n.runId !in s.runs && n.runId in t.runs && t.runs == s.runs[n.runId := t.runs[n.runId]] &&
      t.runs[n.runId].projectId == n.projectId && t.runs[n.runId].key == n.key &&
      t.runs[n.runId].fingerprint == n.fingerprint && t.runs[n.runId].createdClock == n.clock &&
      t.runs[n.runId].mode == n.mode
  {
    hide ProjectRun, HasIntent, HasRun;
  }

  lemma {:induction false} CreatedDays(s: Store, n: NewRun, p: Id, day: int)
    requires CreateRunTx(s, n).Ok?
    ensures var t := CreateRunTx(s, n).value;
      |RunsOfDay(t, p, day)| == |RunsOfDay(s, p, day)| +
        (if p == n.projectId && day == WindowStart(RunDay, n.clock) then 1 else 0)
  {
    hide CreateRunTx, WindowStart;
    CreatedRow(s, n);
    var t := CreateRunTx(s, n).value;
    if p == n.projectId && day == WindowStart(RunDay, n.clock) {
      assert RunsOfDay(t, p, day) == RunsOfDay(s, p, day) + {n.runId};
    } else {
      assert RunsOfDay(t, p, day) == RunsOfDay(s, p, day);
    }
  }

  lemma {:induction false} ReservedDay(w: Windows, n: NewRun, policy: Policy, rejectClock: int)
    requires Lawful(w) && ReserveDay(w, n, policy, rejectClock).Ok?
    ensures var v := ReserveDay(w, n, policy, rejectClock).value;
      Lawful(v) && Used(v, DayKey(n)) == Used(w, DayKey(n)) + 1 && v.Keys == w.Keys + {DayKey(n)} &&
      v[DayKey(n)].limit == LimitOf(w, DayKey(n), policy.runsPerDay) &&
      (forall k :: k in w && k != DayKey(n) ==> v[k] == w[k])
  {
    ReserveFacts(w, DayKey(n), policy.runsPerDay);
  }

  lemma {:induction false} EnforcedLive(s: Store, w: Windows, n: NewRun, policy: Policy, liveClock: int)
    requires Lawful(w) && EnforceLive(s, w, n, policy, liveClock).Ok?
    ensures var v := EnforceLive(s, w, n, policy, liveClock).value;
      var key := KeyAt(ActiveLive, Project(n.projectId), liveClock);
      Lawful(v) && v.Keys == w.Keys + {key} && v[key].limit == LimitOf(w, key, policy.activeLive) &&
      |LiveRuns(s, n.projectId)| < v[key].limit &&
      (forall k :: k in w ==> v[k] == w[k])
  {
    hide LiveRuns;
  }

  /** What a committed creation did to the windows: one reservation, and perhaps the
      stored live limit of the day. */
  ghost predicate Charged(w: Windows, v: Windows, c: Call) {
    Lawful(v) && c.policy.Some? &&
    Used(v, DayKey(c.run)) == Used(w, DayKey(c.run)) + 1 &&
    (forall k: WindowKey :: k.kind.RunDay? && k != DayKey(c.run) ==> Used(v, k) == Used(w, k)) &&
    (forall k :: k in w ==> k in v && v[k].limit == w[k].limit) &&
    (forall k :: k in v && k !in w ==>
      (k.kind.RunDay? && v[k].limit == c.policy.value.runsPerDay) ||
      (k.kind.ActiveLive? && v[k].limit == c.policy.value.activeLive))
  }

  lemma {:induction false} CreatedWindows(seen: Store, db: Db, later: Store, c: Call)
    requires Lawful(db.windows) && c.policy.Some? && Admit(seen, db, later, c).0 != db
    ensures var after := Admit(seen, db, later, c).0;
      CreateRunTx(db.store, c.run).Ok? && after.store == CreateRunTx(db.store, c.run).value &&
      Charged(db.windows, after.windows, c) &&
      (!c.run.mode.Replay? ==>
        KeyAt(ActiveLive, Project(c.run.projectId), c.liveClock) in after.windows &&
        |LiveRuns(db.store, c.run.projectId)| < after.windows[KeyAt(ActiveLive, Project(c.run.projectId),
          c.liveClock)].limit)
  {
    hide Recorded, CreateRunTx, Reconcile, LiveRuns, ReserveDay, EnforceLive, Lawful, WindowStart;
    ReservedDay(db.windows, c.run, c.policy.value, c.rejectClock);
    var w := ReserveDay(db.windows, c.run, c.policy.value, c.rejectClock).value;
    if !c.run.mode.Replay? {
      EnforcedLive(db.store, w, c.run, c.policy.value, c.liveClock);
    }
  }

  lemma {:induction false} CreateCounted(w: World, seen: Store, later: Store, c: Call)
    requires WorldOk(w) && c.policy.Some?
    ensures WorldOk(Next(w, Create(seen, later, c)))
  {
    hide Inv, Lawful, Admit, CreateRunTx, RunsOfDay, WindowStart;
    var db := Admit(seen, w.db, later, c).0;
    if db != w.db {
      CreatedWindows(seen, w.db, later, c);
      CreateKeeps(w.db.store, c.run);
      forall p: Id, day: int | IsDay(day) && Young(WindowKey(RunDay, Project(p), day), w.cleanedTo)
        ensures |RunsOfDay(db.store, p, day)| == Used(db.windows, WindowKey(RunDay, Project(p), day))
      {
        CreatedDays(w.db.store, c.run, p, day);
      }
    }
  }

  lemma {:induction false} WorldStep(w: World, step: Step)
    requires WorldOk(w) && Allowed(w, step)
    ensures WorldOk(Next(w, step))
  {
    hide Inv, Lawful, Admit, Admissible, Apply, RunsOfDay, Removable;
    match step {
      case Create(seen, later, c) => CreateCounted(w, seen, later, c);
      case Work(a) =>
        StepKeeps(w.db.store, a);
        RunsStay(w.db.store, a);
        forall p: Id, day: int ensures RunsOfDay(Apply(w.db.store, a), p, day) == RunsOfDay(w.db.store, p, day) {
          SameDays(w.db.store, Apply(w.db.store, a), p, day);
        }
      case Clean(victims, now) =>
        RemoveFacts(w.db.windows, victims, now);
        forall p: Id, day: int | Young(WindowKey(RunDay, Project(p), day), Max(w.cleanedTo, now))
          ensures Used(Remove(w.db.windows, victims), WindowKey(RunDay, Project(p), day)) ==
            Used(w.db.windows, WindowKey(RunDay, Project(p), day))
        {
          assert Young(WindowKey(RunDay, Project(p), day), w.cleanedTo);
        }
    }
  }

  lemma {:induction false} WorldRun(w: World, steps: seq<Step>)
    requires WorldOk(w) && AllAllowed(w, steps)
    ensures WorldOk(After(w, steps))
    decreases |steps|
  {
    hide WorldOk, Allowed, Next;
    if steps != [] {
      WorldStep(w, steps[0]);
      WorldRun(Next(w, steps[0]), steps[1..]);
    }
  }

  /** In every reachable state the daily counter of a project is the number of runs whose
      creation clock lies in that day, and never more than the limit stored with it. */
  lemma {:induction false} DailyCountIsExact(steps: seq<Step>, p: Id, day: int)
    requires AllAllowed(Start, steps)
    requires IsDay(day) && Young(WindowKey(RunDay, Project(p), day), After(Start, steps).cleanedTo)
    ensures var db := After(Start, steps).db; var key := WindowKey(RunDay, Project(p), day);
      |RunsOfDay(db.store, p, day)| == Used(db.windows, key) &&
      (key in db.windows ==> 1 <= |RunsOfDay(db.store, p, day)| <= db.windows[key].limit)
  {
    hide Next, Allowed, Inv;
    StartOk();
    WorldRun(Start, steps);
  }

  // --------------------------------------------------------------- live limit

  ghost predicate Constant(step: Step, policy: Policy) {
    step.Create? ==> step.call.policy == Some(policy)
  }

  ghost predicate LiveBounded(w: World, limit: nat) {
    (forall k :: k in w.db.windows && k.kind.ActiveLive? ==> w.db.windows[k].limit == limit) &&
    (forall p: Id :: |LiveRuns(w.db.store, p)| <= limit)
  }

  lemma {:induction false} TerminalStays(j: seq<Event>, k: seq<Event>)
    requires j <= k
    ensures Terminal(j) ==> Terminal(k)
  {
    if Terminal(j) {
      var i :| 0 <= i < |j| && Ends(j[i]);
      assert Ends(k[i]);
    }
  }

  /** A run that has ended never becomes live again. */
  lemma {:induction false} LiveShrinks(s: Store, t: Store, p: Id)
    requires Journaled(s) && Journaled(t) && SameRuns(s, t) && Evolves(s, t)
    ensures LiveRuns(t, p) <= LiveRuns(s, p)
  {
    forall r | r in LiveRuns(t, p) ensures r in LiveRuns(s, p) {
      assert RunOk(r, s.runs[r], s.events[r]) && RunOk(r, t.runs[r], t.events[r]);
      ProjectionTerminal(s.events[r]);
      ProjectionTerminal(t.events[r]);
      TerminalStays(s.events[r], t.events[r]);
    }
  }

  lemma {:induction false} CreatedLive(s: Store, n: NewRun, p: Id)
    requires CreateRunTx(s, n).Ok?
    ensures var t := CreateRunTx(s, n).value;
      |LiveRuns(t, p)| <= |LiveRuns(s, p)| + (if p == n.projectId && !n.mode.Replay? then 1 else 0)
  {
    hide CreateRunTx;
    CreatedRow(s, n);
    var t := CreateRunTx(s, n).value;
    SubsetIsSmaller(LiveRuns(t, p), if p == n.projectId &&
      !n.mode.Replay? then LiveRuns(s, p) + {n.runId} else LiveRuns(s, p));
  }

  lemma {:induction false} LiveStep(w: World, step: Step, policy: Policy)
    requires WorldOk(w) && Allowed(w, step) && Constant(step, policy) && LiveBounded(w, policy.activeLive)
    ensures LiveBounded(Next(w, step), policy.activeLive)
  {
    hide Lawful, Admit, Admissible, Apply, LiveRuns, CreateRunTx, Removable, CommandsOk, Attributed, KeysUnique, RunOk;
    match step {
      case Create(seen, later, c) =>
        if Admit(seen, w.db, later, c).0 != w.db {
          CreatedWindows(seen, w.db, later, c);
          forall p: Id ensures |LiveRuns(CreateRunTx(w.db.store, c.run).value, p)| <= policy.activeLive {
            CreatedLive(w.db.store, c.run, p);
          }
        }
      case Work(a) =>
        StepKeeps(w.db.store, a);
        RunsStay(w.db.store, a);
        forall p: Id ensures |LiveRuns(Apply(w.db.store, a), p)| <= policy.activeLive {
          LiveShrinks(w.db.store, Apply(w.db.store, a), p);
          SubsetIsSmaller(LiveRuns(Apply(w.db.store, a), p), LiveRuns(w.db.store, p));
        }
      case Clean(victims, now) =>
    }
  }

  lemma {:induction false} LiveRunBounded(w: World, steps: seq<Step>, policy: Policy)
    requires WorldOk(w) && AllAllowed(w, steps) && LiveBounded(w, policy.activeLive)
    requires forall step :: step in steps ==> Constant(step, policy)
    ensures LiveBounded(After(w, steps), policy.activeLive)
    decreases |steps|
  {
    hide WorldOk, Allowed, Next, LiveBounded, Constant;
    if steps != [] {
      WorldStep(w, steps[0]);
      LiveStep(w, steps[0], policy);
      LiveRunBounded(Next(w, steps[0]), steps[1..], policy);
    }
  }

  /** With one policy everywhere, no project ever has more live wallet and relayer runs
      than the policy allows, at whatever times the calls read their clocks. */
  lemma {:induction false} LiveLimitHolds(steps: seq<Step>, policy: Policy, p: Id)
    requires AllAllowed(Start, steps) && forall step :: step in steps ==> Constant(step, policy)
    ensures |LiveRuns(After(Start, steps).db.store, p)| <= policy.activeLive
  {
    hide Next, Allowed, Inv;
    StartOk();
    assert LiveBounded(Start, policy.activeLive) by {
      forall q: Id ensures LiveRuns(Empty, q) == {} {
      }
    }
    LiveRunBounded(Start, steps, policy);
  }

  // ------------------------------------------------- a taken preflight key

  /** An intent enqueued on the run of `first` under the key that `second` will derive. */
  function PreflightIntent(first: Call, second: Call): CommandRow {
    CommandRow(first.run.projectId, first.run.runId, second.run.key + ":preflight", VerifyConsumer,
               [Field("consumer", "canonical-safe")], Queued, 0, first.run.availableAt, None, None)
  }

  lemma {:induction false} SameSuffix(a: string, b: string, suffix: string)
    requires a + suffix == b + suffix
    ensures a == b
  {
    assert a == (a + suffix)[..|a|] && b == (b + suffix)[..|b|];
  }

  /** Such a store is reached by two ordinary requests of the project, and the run of
      `second` is then refused under a key that no run has. */
  lemma {:induction false} PreflightKeyTaken(first: Call, id: Id, second: Call, policy: Policy)
    requires first.policy == Some(policy) && second.policy == Some(policy)
    requires policy.runsPerDay > 1 && policy.activeLive > 0
    requires first.run.mode.Replay? && second.run.mode.Replay? && first.run.projectId == second.run.projectId
    requires first.run.key != second.run.key && first.run.runId != second.run.runId
    requires first.run.commandId != id && second.run.commandId !in {first.run.commandId, id}
    ensures var create := Create(Empty, Empty, first);
      var enqueue := Work(QueueInvariants.Insert(id, PreflightIntent(first, second)));
      var w := Next(Next(Start, create), enqueue);
      Allowed(Start, create) && Allowed(Next(Start, create), enqueue) &&
      !HasRun(w.db.store, second.run.projectId, second.run.key) &&
      Admit(w.db.store, w.db, w.db.store, second) == (w.db, Denied(IdempotencyConflict))
  {
    hide Admit, ProjectRun, WindowStart;
    var s := CreateRunTx(Empty, first.run).value;
    FirstAdmitted(first, policy);
    OneWindow(DayKey(first.run), policy.runsPerDay, first.run.clock);
    var w1 := Next(Start, Create(Empty, Empty, first));
    var row := PreflightIntent(first, second);
    if first.run.key + ":preflight" == row.key {
      SameSuffix(first.run.key, second.run.key, ":preflight");
    }
    CreatedOnly(first.run);
    assert !HasIntent(s, row.projectId, row.key);
    var t := s.(commands := s.commands[id := row]);
    assert InsertCommand(s, id, row) == Ok(t);
    assert t.commands[id] == row && HasIntent(t, second.run.projectId, row.key);
    FreshKeyAnswered(t, Db(t, w1.db.windows), t, second);
  }

  lemma {:induction false} OneWindow(key: WindowKey, limit: nat, clock: int)
    requires limit > 0 && key.kind.RunDay? && key.start == WindowStart(RunDay, clock)
    ensures Lawful(map[key := Window(limit, 1)])
  {
  }

  lemma {:induction false} FirstAdmitted(first: Call, policy: Policy)
    requires first.policy == Some(policy) && policy.runsPerDay > 1 && policy.activeLive > 0 && first.run.mode.Replay?
    ensures CreateRunTx(Empty, first.run).Ok?
    ensures Admit(Empty, Start.db, Empty, first).0 ==
      Db(CreateRunTx(Empty, first.run).value, map[DayKey(first.run) := Window(policy.runsPerDay, 1)])
  {
    hide ProjectRun, WindowStart;
  }

  lemma {:induction false} CreatedOnly(n: NewRun)
    ensures CreateRunTx(Empty, n).Ok?
    ensures var s := CreateRunTx(Empty, n).value;
      s.runs.Keys == {n.runId} && s.commands.Keys == {n.commandId} && s.runs[n.runId].projectId == n.projectId &&
      s.runs[n.runId].key == n.key && s.commands[n.commandId].projectId == n.projectId &&
      s.commands[n.commandId].key == n.key + ":preflight"
  {
    hide ProjectRun;
  }

  // -------------------------------------------------------------- key for good

  lemma {:induction false} KeyStep(w: World, step: Step)
    requires WorldOk(w) && Allowed(w, step)
    ensures Evolves(w.db.store, Next(w, step).db.store)
  {
    hide Admit, Admissible, Apply, Evolves, Inv, Lawful, DaysCounted, CreateRunTx;
    EvolvesReflexive(w.db.store);
    match step {
      case Create(seen, later, c) => AllOrNothing(seen, w.db, later, c);
        if Admit(seen, w.db, later, c).0 != w.db { CreateStep(w.db.store, c.run); }
      case Work(a) => StepKeeps(w.db.store, a);
      case Clean(victims, now) =>
    }
  }

  lemma {:induction false} KeyRun(w: World, steps: seq<Step>)
    requires WorldOk(w) && AllAllowed(w, steps)
    ensures Evolves(w.db.store, After(w, steps).db.store)
    decreases |steps|
  {
    hide WorldOk, Allowed, Next, Evolves;
    if steps == [] {
      assert Inv(w.db.store) by { WorldInv(w); }
      EvolvesReflexive(w.db.store);
    } else {
      WorldStep(w, steps[0]);
      KeyStep(w, steps[0]);
      KeyRun(Next(w, steps[0]), steps[1..]);
      EvolvesTransitive(w.db.store, Next(w, steps[0]).db.store, After(w, steps).db.store);
    }
  }

  lemma {:induction false} WorldInv(w: World)
    requires WorldOk(w)
    ensures Inv(w.db.store)
  {
    hide Inv;
  }

  /** Once a call created run r, every later call with that project, key and request is
      answered with r and changes nothing; with another request it is refused. */
  lemma {:induction false} OneRunPerKey(before: seq<Step>, create: Step, between: seq<Step>, seen: Store,
      later: Store, c: Call)
    requires AllAllowed(Start, before) && Allowed(After(Start, before), create) && create.Create?
    requires var w := After(Start, before);
      Admit(create.seen, w.db, create.later, create.call).1 == Accepted(create.call.run.runId) && Next(w, create) != w
    requires AllAllowed(Next(After(Start, before), create), between)
    requires c.run.projectId == create.call.run.projectId && c.run.key == create.call.run.key
    requires var w := After(Next(After(Start, before), create), between);
      Evolves(seen, w.db.store) && Evolves(w.db.store, later) && KeysUnique(later)
    ensures var w := After(Next(After(Start, before), create), between);
      Admit(seen, w.db, later, c) ==
        (w.db, if c.run.fingerprint == create.call.run.fingerprint then Accepted(create.call.run.runId)
               else Denied(IdempotencyConflict))
  {
    hide Admit, Allowed, AllAllowed, After, WorldOk, Inv, Evolves;
    StartOk();
    WorldRun(Start, before);
    var w := After(Start, before);
    WorldStep(w, create);
    var t := Next(w, create);
    AllOrNothing(create.seen, w.db, create.later, create.call);
    CreatedRow(w.db.store, create.call.run);
    WorldRun(t, between);
    KeyRun(t, between);
    var u := After(t, between);
    KeptRow(t.db.store, u.db.store, create.call.run.runId);
    UniqueIn(u);
    ReplayConsumesNothing(seen, u.db, later, c, create.call.run.runId);
  }

  lemma {:induction false} KeptRow(s: Store, t: Store, r: Id)
    requires Evolves(s, t) && r in s.runs
    ensures r in t.runs && SameRun(s.runs[r], t.runs[r])
  {
  }

  lemma {:induction false} UniqueIn(w: World)
    requires WorldOk(w)
    ensures KeysUnique(w.db.store)
  {
    hide Lawful, DaysCounted, CommandsOk, Attributed, Journaled;
  }
}
