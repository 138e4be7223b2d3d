/**
 Relayer transactions: signed, attempted, broadcast. The repository operations of
 apps/api/src/postgres.ts over their table and audit log, the broadcasting handler
 of apps/worker/src/worker.ts, and the counts getRun reports
 (apps/api/src/production-service.ts).
*/
module Relayer {
  import opened Wrappers
  import opened Journal
  import opened QuotaWindows

  // ------------------------------------------------------------------- tables

  /** The signed identity; byte strings stand for themselves. */
  datatype Signed = Signed(
    nonce: nat, target: nat, calldataHash: nat, fingerprint: string, valueWei: nat, raw: nat, hash: nat)

  datatype Row = Row(
    runId: Id, from: nat, signed: Signed, createdAt: int, attemptedAt: Option<int>, broadcastAt: Option<int>)

  datatype AuditKind = SignedEvent | AttemptEvent | BroadcastEvent

  datatype Audit = Audit(projectId: Id, runId: Id, kind: AuditKind)

  /** Rows by idempotency key; `projects` is the project of every run. */
  datatype Ledger = Ledger(projects: map<Id, Id>, rows: map<string, Row>, audit: seq<Audit>)

  datatype TxPolicy = TxPolicy(projectFeeCapWei: int, globalFeeCapWei: int, quotaRemaining: int, balanceFloorWei: int)

  datatype Value = Value(
    projectId: Option<Id>, runId: Option<Id>, key: string, chainId: int, from: Option<nat>, nonce: int,
    target: nat, calldataHash: nat, valueWei: int, raw: nat, hash: nat, fingerprint: Option<string>,
    policy: Option<TxPolicy>)

  datatype RelayerError =
    | IncompleteIdentity | InvalidChain | InvalidFingerprint | PolicyRejects | QuotaExhausted
    | IdentityConflict | UniqueViolation | MarkerConflict

  // --------------------------------------------------------------- operations

  predicate HexDigest(s: string) {
    |s| == 64 && forall c :: c in s ==> LowerHex(c)
  }

  function StripPrefix(s: string): string { if "sha256:" <= s then s[7..] else s }

  /** The checks before the transaction begins. */
  function Check(v: Value): Result<(Id, Row), RelayerError> {
    if v.projectId.None? || v.runId.None? || v.from.None? || v.fingerprint.None? || v.fingerprint.value == ""
    then Err(IncompleteIdentity)
    else if v.chainId != 114 || v.valueWei < 0 || v.nonce < 0 then Err(InvalidChain)
    else if !HexDigest(StripPrefix(v.fingerprint.value)) then Err(InvalidFingerprint)
    else if v.policy.Some? &&
            (v.policy.value.projectFeeCapWei < v.valueWei || v.policy.value.globalFeeCapWei < v.valueWei ||
             v.policy.value.balanceFloorWei < 0)
    then Err(PolicyRejects)
    else if v.policy.Some? && v.policy.value.quotaRemaining <= 0 then Err(QuotaExhausted)
    else Ok((v.projectId.value, Row(v.runId.value, v.from.value,
      Signed(v.nonce, v.target, v.calldataHash, StripPrefix(v.fingerprint.value), v.valueWei, v.raw, v.hash),
      0, None, None)))
  }

  /** `matches`: every signed field and the run; the sender is not compared. */
  predicate Matches(l: Ledger, key: string, row: Row) {
    key in l.rows && l.rows[key].runId == row.runId && l.rows[key].signed == row.signed
  }

  predicate HasRow(l: Ledger, key: string, runId: Id) {
    key in l.rows || exists k :: k in l.rows && l.rows[k].runId == runId
  }

  /** The unique indexes other than the one on the idempotency key. */
  predicate Clashes(a: Row, b: Row) {
    a.runId == b.runId || a.signed.hash == b.signed.hash || (a.from == b.from && a.signed.nonce == b.signed.nonce)
  }

  predicate ProjectOf(l: Ledger, runId: Id, projectId: Id) {
    runId in l.projects && l.projects[runId] == projectId
  }

  function UsedSince(l: Ledger, projectId: Id, start: int): set<string> {
    set k | k in l.rows && ProjectOf(l, l.rows[k].runId, projectId) && l.rows[k].createdAt >= start
  }

  /** persistRelayerTransaction. Its first read may have seen an earlier ledger; of two
      rows found by key and by run, neither can match, so which comes first is the same.
      `today` is the start of the day of `now` in the session's time zone. */
  function Persist(seen: Ledger, l: Ledger, quota: Option<nat>, v: Value, now: int, today: int)
    : Result<Ledger, RelayerError>
  {
    match Check(v)
    case Err(why) => Err(why)
    case Ok((projectId, draft)) =>
      var row := draft.(createdAt := now);
      if HasRow(seen, v.key, row.runId) then (if Matches(seen, v.key, row) then Ok(l) else Err(IdentityConflict))
      else if v.policy.Some? && quota.Some? && |UsedSince(l, projectId, today)| >= quota.value
      then Err(QuotaExhausted)
      else if v.key in l.rows then (if Matches(l, v.key, row) then Ok(l) else Err(IdentityConflict))
      else if row.runId !in l.projects || (exists k :: k in l.rows && Clashes(l.rows[k], row)) then Err(UniqueViolation)
      else Ok(l.(rows := l.rows[v.key := row], audit := l.audit + [Audit(projectId, row.runId, SignedEvent)]))
  }

  predicate Attemptable(l: Ledger, key: string, hash: nat) {
    key in l.rows && l.rows[key].signed.hash == hash && l.rows[key].attemptedAt.None? && l.rows[key].broadcastAt.None?
  }

  function Logged(l: Ledger, runId: Id, kind: AuditKind): seq<Audit> {
    if runId in l.projects then l.audit + [Audit(l.projects[runId], runId, kind)] else l.audit
  }

  /** claimRelayerBroadcastAttempt */
  function Attempt(l: Ledger, key: string, hash: nat, now: int): (Ledger, bool) {
    if !Attemptable(l, key, hash) then (l, false)
    else
      var row := l.rows[key];
      (l.(rows := l.rows[key := row.(attemptedAt := Some(now))], audit := Logged(l, row.runId, AttemptEvent)), true)
  }

  /** markRelayerBroadcast */
  function Mark(l: Ledger, key: string, hash: nat, now: int): Result<Ledger, RelayerError> {
    if key in l.rows && l.rows[key].signed.hash == hash && l.rows[key].attemptedAt.Some? &&
      l.rows[key].broadcastAt.None?
    then
      var row := l.rows[key];
      Ok(l.(rows := l.rows[key := row.(broadcastAt := Some(now))], audit := Logged(l, row.runId, BroadcastEvent)))
    else if key in l.rows && l.rows[key].broadcastAt.Some? && l.rows[key].signed.hash == hash then Ok(l)
    else Err(MarkerConflict)
  }

  function Committed(l: Ledger, r: Result<Ledger, RelayerError>): Ledger {
    match r case Ok(t) => t case Err(_) => l
  }

  // --------------------------------------------------------------- repository

  class RelayerRepository {
    var ledger: Ledger
    const dailyProjectQuota: Option<nat>

    constructor (l: Ledger, quota: Option<nat>)
      ensures ledger == l && dailyProjectQuota == quota
    {
      ledger, dailyProjectQuota := l, quota;
    }

    method PersistRelayerTransaction(seen: Ledger, v: Value, now: int, today: int) returns (ok: bool)
      modifies this
      ensures ok == Persist(seen, old(ledger), dailyProjectQuota, v, now, today).Ok?
      ensures ledger == Committed(old(ledger), Persist(seen, old(ledger), dailyProjectQuota, v, now, today))
    {
      var checked := Check(v);
      if checked.Err? { return false; }
      var (projectId, draft) := checked.value;
      var row := draft.(createdAt := now);
      if HasRow(seen, v.key, row.runId) {
        ok := Matches(seen, v.key, row);
        return;
      }
      if v.policy.Some? && dailyProjectQuota.Some? {
        var usedToday := |UsedSince(ledger, projectId, today)|;
        if usedToday >= dailyProjectQuota.value { return false; }
      }
      if v.key in ledger.rows {
        ok := Matches(ledger, v.key, row);
        return;
      }
      if row.runId !in ledger.projects || exists k :: k in ledger.rows && Clashes(ledger.rows[k], row) { return false; }
      var tx := ledger.(rows := ledger.rows[v.key := row]);
      tx := tx.(audit := tx.audit + [Audit(projectId, row.runId, SignedEvent)]);
      ledger := tx;
      ok := true;
    }

    method ClaimRelayerBroadcastAttempt(key: string, hash: nat, now: int) returns (claimed: bool)
      modifies this
      ensures (ledger, claimed) == Attempt(old(ledger), key, hash, now)
    {
      claimed := Attemptable(ledger, key, hash);
      if claimed {
        var row := ledger.rows[key].(attemptedAt := Some(now));
        var tx := ledger.(rows := ledger.rows[key := row]);
        if row.runId in tx.projects {
          tx := tx.(audit := tx.audit + [Audit(tx.projects[row.runId], row.runId, AttemptEvent)]);
        }
        ledger := tx;
      }
    }

    method MarkRelayerBroadcast(key: string, hash: nat, now: int) returns (ok: bool)
      modifies this
      ensures ok == Mark(old(ledger), key, hash, now).Ok?
      ensures ledger == Committed(old(ledger), Mark(old(ledger), key, hash, now))
    {
      if key in ledger.rows && ledger.rows[key].signed.hash == hash &&
         ledger.rows[key].attemptedAt.Some? && ledger.rows[key].broadcastAt.None? {
        var row := ledger.rows[key].(broadcastAt := Some(now));
        var tx := ledger.(rows := ledger.rows[key := row]);
        if row.runId in tx.projects {
          tx := tx.(audit := tx.audit + [Audit(tx.projects[row.runId], row.runId, BroadcastEvent)]);
        }
        ledger := tx;
        ok := true;
      } else {
        ok := key in ledger.rows && ledger.rows[key].broadcastAt.Some? && ledger.rows[key].signed.hash == hash;
      }
    }
  }

  // --------------------------------------------------------------------- runs

  /** The ledger, the permissions to broadcast that handlers hold, and what was sent, each
      counted by idempotency key; and the keys whose insert was checked against a quota. */
  datatype World = World(ledger: Ledger, permits: multiset<string>, sent: multiset<string>, limited: set<string>)

  datatype Step =
    | AddRun(runId: Id, projectId: Id)
    | PersistStep(seen: Ledger, quota: Option<nat>, value: Value, now: int, today: int)
    | AttemptStep(key: string, hash: nat, now: int)
    | SendStep(key: string)
    | HandlerDies(key: string)
    | MarkStep(key: string, hash: nat, now: int)

  function Next(w: World, step: Step): World {
    match step
    case AddRun(runId, projectId) =>
      if runId in w.ledger.projects then w
      else w.(ledger := w.ledger.(projects := w.ledger.projects[runId := projectId]))
    case PersistStep(seen, quota, v, now, today) =>
      var l := Committed(w.ledger, Persist(seen, w.ledger, quota, v, now, today));
      w.(ledger := l, limited := if l != w.ledger && v.policy.Some? &&
        quota.Some? then w.limited + {v.key} else w.limited)
    case AttemptStep(key, hash, now) =>
      var (l, claimed) := Attempt(w.ledger, key, hash, now);
      w.(ledger := l, permits := if claimed then w.permits + multiset{key} else w.permits)
    case SendStep(key) =>
      if key in w.permits then w.(permits := w.permits - multiset{key}, sent := w.sent + multiset{key}) else w
    case HandlerDies(key) => w.(permits := w.permits - multiset{key})
    case MarkStep(key, hash, now) => w.(ledger := Committed(w.ledger, Mark(w.ledger, key, hash, now)))
  }

  function After(w: World, steps: seq<Step>): World
    decreases |steps|
  {
    if steps == [] then w else After(Next(w, steps[0]), steps[1..])
  }

  const Start := World(Ledger(map[], map[], []), multiset{}, multiset{}, {})

  // --------------------------------------------------------------- invariants

  function Count(audit: seq<Audit>, runId: Id, kind: AuditKind): nat {
    if audit == [] then 0
    else Count(audit[..|audit| - 1], runId, kind) +
         (if audit[|audit| - 1].runId == runId && audit[|audit| - 1].kind == kind then 1 else 0)
  }

  predicate Reached(row: Row, kind: AuditKind) {
    match kind
    case SignedEvent => true
    case AttemptEvent => row.attemptedAt.Some?
    case BroadcastEvent => row.broadcastAt.Some?
  }

  predicate RunReached(l: Ledger, runId: Id, kind: AuditKind) {
    exists k :: k in l.rows && l.rows[k].runId == runId && Reached(l.rows[k], kind)
  }

  ghost predicate Distinct(l: Ledger) {
    forall k, m :: k in l.rows && m in l.rows && k != m ==> !Clashes(l.rows[k], l.rows[m])
  }

  ghost predicate Ordered(l: Ledger) {
    forall k :: k in l.rows ==>
      l.rows[k].runId in l.projects && (l.rows[k].broadcastAt.Some? ==> l.rows[k].attemptedAt.Some?)
  }

  /** The audit log holds each state a run's transaction has reached once, and no other. */
  ghost predicate Audited(l: Ledger) {
    forall r, kind :: Count(l.audit, r, kind) == if RunReached(l, r, kind) then 1 else 0
  }

  ghost predicate LedgerOk(l: Ledger) { Distinct(l) && Ordered(l) && Audited(l) }

  ghost predicate Permitted(w: World) {
    forall k :: w.sent[k] + w.permits[k] <= if k in w.ledger.rows && w.ledger.rows[k].attemptedAt.Some? then 1 else 0
  }

  ghost predicate WorldOk(w: World) { LedgerOk(w.ledger) && Permitted(w) }

  predicate RowEvolves(a: Row, b: Row) {
    b == a.(attemptedAt := b.attemptedAt, broadcastAt := b.broadcastAt) &&
    (a.attemptedAt.Some? ==> b.attemptedAt == a.attemptedAt) && (a.broadcastAt.Some? ==> b.broadcastAt == a.broadcastAt)
  }

  ghost predicate LedgerEvolves(l: Ledger, t: Ledger) {
    (forall k :: k in l.rows ==> k in t.rows && RowEvolves(l.rows[k], t.rows[k])) && l.audit <= t.audit
  }

  lemma {:induction false} CountPush(audit: seq<Audit>, a: Audit, runId: Id, kind: AuditKind)
    ensures Count(audit + [a], runId, kind) ==
      Count(audit, runId, kind) + (if a.runId == runId && a.kind == kind then 1 else 0)
  {
    assert (audit + [a])[..|audit|] == audit;
  }

  lemma {:induction false} PersistKeeps(seen: Ledger, l: Ledger, quota: Option<nat>, v: Value, now: int, today: int)
    requires LedgerOk(l) && Persist(seen, l, quota, v, now, today).Ok?
    ensures var t := Persist(seen, l, quota, v, now, today).value;
      LedgerOk(t) && LedgerEvolves(l, t) &&
      (t == l || (v.key !in l.rows && t.rows == l.rows[v.key := t.rows[v.key]] && t.projects == l.projects &&
                  t.rows[v.key].attemptedAt.None? && t.rows[v.key].createdAt == now && v.runId.Some? &&
                  t.rows[v.key].runId == v.runId.value))
  {
    hide UsedSince, Check, HasRow, Matches;
    CheckedRow(v);
    var t := Persist(seen, l, quota, v, now, today).value;
    if t != l {
      var row := t.rows[v.key];
      var a := t.audit[|l.audit|];
      assert forall k :: k in l.rows ==> !Clashes(l.rows[k], row);
      forall r, kind ensures Count(t.audit, r, kind) == if RunReached(t, r, kind) then 1 else 0 {
        CountPush(l.audit, a, r, kind);
        RowAdded(l, t, v.key, r, kind);
      }
    }
  }

  lemma {:induction false} CheckedRow(v: Value)
    ensures Check(v).Ok? ==>
      Check(v).value.1.attemptedAt.None? && Check(v).value.1.broadcastAt.None? &&
      v.runId == Some(Check(v).value.1.runId) && v.projectId == Some(Check(v).value.0)
  {
  }

  lemma {:induction false} RowAdded(l: Ledger, t: Ledger, key: string, r: Id, kind: AuditKind)
    requires key !in l.rows && key in t.rows && t.rows == l.rows[key := t.rows[key]]
    requires t.rows[key].attemptedAt.None? && t.rows[key].broadcastAt.None?
    requires forall k :: k in l.rows ==> l.rows[k].runId != t.rows[key].runId
    ensures RunReached(t, r, kind) <==> RunReached(l, r, kind) || (r == t.rows[key].runId && kind == SignedEvent)
    ensures r == t.rows[key].runId ==> !RunReached(l, r, kind)
  {
    if r == t.rows[key].runId && kind == SignedEvent {
      assert Reached(t.rows[key], kind);
    }
    if RunReached(l, r, kind) {
      var k :| k in l.rows && l.rows[k].runId == r && Reached(l.rows[k], kind);
      assert t.rows[k] == l.rows[k];
    }
  }

  /** A row that moves one state on, with its audit row. */
  lemma {:induction false} Advances(l: Ledger, key: string, row: Row, kind: AuditKind)
    requires LedgerOk(l) && key in l.rows && RowEvolves(l.rows[key], row)
    requires !Reached(l.rows[key], kind) && Reached(row, kind)
    requires forall other :: other != kind ==> Reached(row, other) == Reached(l.rows[key], other)
    requires row.broadcastAt.Some? ==> row.attemptedAt.Some?
    ensures var t := l.(rows := l.rows[key := row], audit := Logged(l, row.runId, kind));
      LedgerOk(t) && LedgerEvolves(l, t)
  {
    var t := l.(rows := l.rows[key := row], audit := Logged(l, row.runId, kind));
    forall k, m | k in t.rows && m in t.rows && k != m ensures !Clashes(t.rows[k], t.rows[m]) {
      assert !Clashes(l.rows[k], l.rows[m]);
    }
    forall r, other ensures Count(t.audit, r, other) == if RunReached(t, r, other) then 1 else 0 {
      CountPush(l.audit, Audit(l.projects[row.runId], row.runId, kind), r, other);
      RowMoved(l, key, row, kind, r, other);
    }
  }

  lemma {:induction false} RowMoved(l: Ledger, key: string, row: Row, kind: AuditKind, r: Id, other: AuditKind)
    requires Distinct(l) && key in l.rows && RowEvolves(l.rows[key], row)
    requires !Reached(l.rows[key], kind) && Reached(row, kind)
    requires forall k :: k != kind ==> Reached(row, k) == Reached(l.rows[key], k)
    ensures var t := l.(rows := l.rows[key := row]);
      (RunReached(t, r, other) <==> RunReached(l, r, other) || (r == row.runId && other == kind))
    ensures r == row.runId && other == kind ==> !RunReached(l, r, other)
  {
    var t := l.(rows := l.rows[key := row]);
    if RunReached(l, r, other) {
      var k :| k in l.rows && l.rows[k].runId == r && Reached(l.rows[k], other);
      assert k != key ==> !Clashes(l.rows[k], l.rows[key]);
      assert t.rows[k].runId == r && Reached(t.rows[k], other);
    }
    if RunReached(t, r, other) {
      var k :| k in t.rows && t.rows[k].runId == r && Reached(t.rows[k], other);
      if k != key || other != kind {
        assert l.rows[k].runId == r && Reached(l.rows[k], other);
      }
    }
    if r == row.runId && other == kind {
      assert t.rows[key].runId == r && Reached(t.rows[key], other);
    }
  }

  lemma {:induction false} AttemptKeeps(l: Ledger, key: string, hash: nat, now: int)
    requires LedgerOk(l)
    ensures LedgerOk(Attempt(l, key, hash, now).0) && LedgerEvolves(l, Attempt(l, key, hash, now).0)
  {
    hide LedgerOk;
    Reflexive(l);
    if Attemptable(l, key, hash) {
      Advances(l, key, l.rows[key].(attemptedAt := Some(now)), AttemptEvent);
    }
  }

  lemma {:induction false} MarkKeeps(l: Ledger, key: string, hash: nat, now: int)
    requires LedgerOk(l)
    ensures var t := Committed(l, Mark(l, key, hash, now)); LedgerOk(t) && LedgerEvolves(l, t)
  {
    hide LedgerOk;
    Reflexive(l);
    if Committed(l, Mark(l, key, hash, now)) != l {
      Advances(l, key, l.rows[key].(broadcastAt := Some(now)), BroadcastEvent);
    }
  }

  lemma {:induction false} Reflexive(l: Ledger)
    ensures LedgerEvolves(l, l)
  {
  }

  lemma {:induction false} EvolvesOn(l: Ledger, t: Ledger, u: Ledger)
    requires LedgerEvolves(l, t) && LedgerEvolves(t, u)
    ensures LedgerEvolves(l, u)
  {
    forall k | k in l.rows ensures k in u.rows && RowEvolves(l.rows[k], u.rows[k]) {
      assert RowEvolves(l.rows[k], t.rows[k]) && RowEvolves(t.rows[k], u.rows[k]);
    }
  }

  lemma {:induction false} AddRunKeeps(l: Ledger, runId: Id, projectId: Id)
    requires LedgerOk(l)
    ensures LedgerOk(l.(projects := l.projects[runId := projectId]))
  {
    var t := l.(projects := l.projects[runId := projectId]);
    forall r, kind ensures RunReached(t, r, kind) == RunReached(l, r, kind) {
    }
  }

  lemma {:induction false} LedgerStep(w: World, step: Step)
    requires LedgerOk(w.ledger)
    ensures LedgerOk(Next(w, step).ledger) && LedgerEvolves(w.ledger, Next(w, step).ledger)
  {
    hide LedgerOk, Persist, Attempt, Mark;
    Reflexive(w.ledger);
    match step {
      case AddRun(runId, projectId) => AddRunKeeps(w.ledger, runId, projectId);
      case PersistStep(seen, quota, v, now, today) =>
        if Persist(seen, w.ledger, quota, v, now, today).Ok? { PersistKeeps(seen, w.ledger, quota, v, now, today); }
      case AttemptStep(key, hash, now) => AttemptKeeps(w.ledger, key, hash, now);
      case MarkStep(key, hash, now) => MarkKeeps(w.ledger, key, hash, now);
      case _ =>
    }
  }

  lemma {:induction false} PermittedOn(w: World, t: World)
    requires Permitted(w) && LedgerEvolves(w.ledger, t.ledger)
    requires forall k :: t.sent[k] + t.permits[k] <= w.sent[k] + w.permits[k]
    ensures Permitted(t)
  {
    forall k ensures t.sent[k] + t.permits[k] <= if k in t.ledger.rows &&
      t.ledger.rows[k].attemptedAt.Some? then 1 else 0 {
      assert w.sent[k] + w.permits[k] <= if k in w.ledger.rows && w.ledger.rows[k].attemptedAt.Some? then 1 else 0;
      assert k in w.ledger.rows ==> k in t.ledger.rows && RowEvolves(w.ledger.rows[k], t.ledger.rows[k]);
    }
  }

  lemma {:induction false} AttemptPermits(w: World, key: string, hash: nat, now: int)
    requires Permitted(w)
    ensures Permitted(Next(w, AttemptStep(key, hash, now)))
  {
    var t := Next(w, AttemptStep(key, hash, now));
    forall k ensures t.sent[k] + t.permits[k] <= if k in t.ledger.rows &&
      t.ledger.rows[k].attemptedAt.Some? then 1 else 0 {
      assert w.sent[k] + w.permits[k] <= if k in w.ledger.rows && w.ledger.rows[k].attemptedAt.Some? then 1 else 0;
    }
  }

  lemma {:induction false} WorldStep(w: World, step: Step)
    requires WorldOk(w)
    ensures WorldOk(Next(w, step)) && LedgerEvolves(w.ledger, Next(w, step).ledger)
  {
    hide LedgerOk, Permitted, LedgerEvolves, Persist, Mark, Attempt;
    LedgerStep(w, step);
    match step {
      case AttemptStep(key, hash, now) => AttemptPermits(w, key, hash, now);
      case _ => PermittedOn(w, Next(w, step));
    }
  }

  lemma {:induction false} WorldRun(w: World, steps: seq<Step>)
    requires WorldOk(w)
    ensures WorldOk(After(w, steps)) && LedgerEvolves(w.ledger, After(w, steps).ledger)
    decreases |steps|
  {
    hide WorldOk, Next, LedgerEvolves;
    if steps == [] {
      Reflexive(w.ledger);
    } else {
      WorldStep(w, steps[0]);
      WorldRun(Next(w, steps[0]), steps[1..]);
      EvolvesOn(w.ledger, Next(w, steps[0]).ledger, After(w, steps).ledger);
    }
  }

  lemma {:induction false} StartOk()
    ensures WorldOk(Start)
  {
  }

  // ----------------------------------------------------------------- theorems

  /** One signed transaction per run, key, hash and nonce, and it never changes: later
      states only fill in its two markers, attempt before broadcast. */
  lemma {:induction false} OneImmutableTransaction(before: seq<Step>, after: seq<Step>, k: string, m: string)
    requires k in After(Start, before).ledger.rows
    ensures var l, t := After(Start, before).ledger, After(After(Start, before), after).ledger;
      k in t.rows && RowEvolves(l.rows[k], t.rows[k]) &&
      (t.rows[k].broadcastAt.Some? ==> t.rows[k].attemptedAt.Some?) &&
      (m in t.rows && m != k ==>
        t.rows[m].runId != t.rows[k].runId && t.rows[m].signed.hash != t.rows[k].signed.hash &&
        (t.rows[m].from, t.rows[m].signed.nonce) != (t.rows[k].from, t.rows[k].signed.nonce))
  {
    hide Next, Audited, Permitted;
    StartOk();
    WorldRun(Start, before);
    WorldRun(After(Start, before), after);
    var t := After(After(Start, before), after).ledger;
    if m in t.rows && m != k {
      assert !Clashes(t.rows[m], t.rows[k]);
    }
  }

  function ClaimsGranted(w: World, steps: seq<Step>, key: string): nat
    decreases |steps|
  {
    if steps == [] then 0
    else (if steps[0].AttemptStep? && steps[0].key == key && Attempt(w.ledger, key, steps[0].hash, steps[0].now).1
          then 1 else 0) + ClaimsGranted(Next(w, steps[0]), steps[1..], key)
  }

  /** However many handlers ask, in whatever order, the broadcast attempt of a transaction
      is granted at most once, and never after it was recorded as attempted. */
  lemma {:induction false} GrantedAtMostOnce(w: World, steps: seq<Step>, key: string)
    requires WorldOk(w)
    ensures ClaimsGranted(w, steps, key) <=
      if key in w.ledger.rows && w.ledger.rows[key].attemptedAt.Some? then 0 else 1
    decreases |steps|
  {
    hide LedgerOk, Permitted, Persist, Mark;
    if steps != [] {
      WorldStep(w, steps[0]);
      GrantedAtMostOnce(Next(w, steps[0]), steps[1..], key);
      if key in w.ledger.rows {
        assert RowEvolves(w.ledger.rows[key], Next(w, steps[0]).ledger.rows[key]);
      }
    }
  }

  /** An attempt is granted exactly for a stored row of that hash without a marker, and
      then the row carries the attempt. */
  lemma {:induction false} GrantedIff(l: Ledger, key: string, hash: nat, now: int)
    ensures Attempt(l, key, hash, now).1 <==>
      key in l.rows && l.rows[key].signed.hash == hash && l.rows[key].attemptedAt == None &&
      l.rows[key].broadcastAt == None
    ensures Attempt(l, key, hash, now).1 ==>
      Attempt(l, key, hash, now).0.rows == l.rows[key := l.rows[key].(attemptedAt := Some(now))]
    ensures !Attempt(l, key, hash, now).1 ==> Attempt(l, key, hash, now).0 == l
  {
  }

  /** A broadcast is recorded or confirmed exactly for a stored row of that hash that was
      attempted; the first time stays. */
  lemma {:induction false} MarkedIff(l: Ledger, key: string, hash: nat, now: int)
    requires LedgerOk(l)
    ensures Mark(l, key, hash, now).Ok? <==>
      key in l.rows && l.rows[key].signed.hash == hash && l.rows[key].attemptedAt.Some?
    ensures Mark(l, key, hash, now).Ok? ==>
      var row := Mark(l, key, hash, now).value.rows[key];
      row.broadcastAt == if l.rows[key].broadcastAt.Some? then l.rows[key].broadcastAt else Some(now)
  {
    hide Distinct, Audited;
  }

  predicate AsksFor(step: Step, key: string, hash: nat) {
    step.AttemptStep? && step.key == key && step.hash == hash
  }

  /** In every run from a stored row that was never attempted, the attempt is granted once
      if anyone asks for it under its hash, and not at all otherwise. */
  lemma {:induction false} GrantedOnceIffAsked(w: World, steps: seq<Step>, key: string)
    requires WorldOk(w) && key in w.ledger.rows && w.ledger.rows[key].attemptedAt.None?
    ensures ClaimsGranted(w, steps, key) ==
      if exists i :: 0 <= i < |steps| && AsksFor(steps[i], key, w.ledger.rows[key].signed.hash) then 1 else 0
    decreases |steps|
  {
    hide LedgerOk, Permitted, Next, Attempt;
    if steps != [] {
      var t := Next(w, steps[0]);
      var hash := w.ledger.rows[key].signed.hash;
      WorldStep(w, steps[0]);
      assert RowEvolves(w.ledger.rows[key], t.ledger.rows[key]);
      assert forall i :: 0 < i < |steps| ==> steps[i] == steps[1..][i - 1];
      AttemptedBy(w, steps[0], key);
      if AsksFor(steps[0], key, hash) {
        GrantedAtMostOnce(t, steps[1..], key);
      } else {
        GrantedOnceIffAsked(t, steps[1..], key);
        assert (exists i :: 0 <= i < |steps| && AsksFor(steps[i], key, hash)) <==>
               (exists i :: 0 <= i < |steps[1..]| && AsksFor(steps[1..][i], key, hash)) by {
          if i :| 0 <= i < |steps| && AsksFor(steps[i], key, hash) {
            assert AsksFor(steps[1..][i - 1], key, hash);
          }
        }
      }
    }
  }

  /** A row that was not attempted becomes so exactly when it is asked for. */
  lemma {:induction false} AttemptedBy(w: World, step: Step, key: string)
    requires LedgerOk(w.ledger) && key in w.ledger.rows && w.ledger.rows[key].attemptedAt.None?
    ensures key in Next(w, step).ledger.rows
    ensures Next(w, step).ledger.rows[key].attemptedAt.Some? <==> AsksFor(step, key, w.ledger.rows[key].signed.hash)
    ensures step.AttemptStep? && step.key == key ==>
      (Attempt(w.ledger, key, step.hash, step.now).1 <==> AsksFor(step, key, w.ledger.rows[key].signed.hash))
  {
    hide Distinct, Audited, Persist;
    if step.PersistStep? && Persist(step.seen, w.ledger, step.quota, step.value, step.now, step.today).Ok? {
      PersistKeeps(step.seen, w.ledger, step.quota, step.value, step.now, step.today);
    }
  }

  /** Two sent transactions of one run. */
  predicate SentFor(w: World, k: string, m: string) {
    k in w.sent && m in w.sent && k in w.ledger.rows && m in w.ledger.rows &&
    w.ledger.rows[k].runId == w.ledger.rows[m].runId
  }

  /** With handlers crashing and racing at will, no transaction is sent twice, and no run
      sends two transactions. */
  lemma {:induction false} SentAtMostOnce(steps: seq<Step>, k: string, m: string)
    ensures var w := After(Start, steps);
      w.sent[k] <= 1 &&
      (SentFor(w, k, m) ==> k == m) &&
      (k in w.sent ==> k in w.ledger.rows && w.ledger.rows[k].attemptedAt.Some?)
  {
    hide Next, Audited;
    StartOk();
    WorldRun(Start, steps);
    var w := After(Start, steps);
    assert w.sent[k] + w.permits[k] <= if k in w.ledger.rows && w.ledger.rows[k].attemptedAt.Some? then 1 else 0;
    if k in w.ledger.rows && m in w.ledger.rows && k != m {
      assert !Clashes(w.ledger.rows[k], w.ledger.rows[m]);
    }
  }

  /** getRun: broadcast_attempt_count and broadcast_count_after_recorded_hash. */
  function BroadcastAttemptCount(l: Ledger, runId: Id): nat { Count(l.audit, runId, AttemptEvent) }

  function BroadcastCountAfterRecordedHash(l: Ledger, runId: Id): Option<int> {
    if exists k :: k in l.rows && l.rows[k].runId == runId && l.rows[k].broadcastAt.Some?
    then Some(Max(Count(l.audit, runId, BroadcastEvent) - 1, 0)) else None
  }

  /** What a run reports: one attempt exactly when its transaction was attempted, and no
      further broadcast ever. */
  lemma {:induction false} ReportedCounts(steps: seq<Step>, runId: Id)
    ensures var l := After(Start, steps).ledger;
      BroadcastAttemptCount(l, runId) == (if RunReached(l, runId, AttemptEvent) then 1 else 0) &&
      (BroadcastCountAfterRecordedHash(l, runId).Some? <==> RunReached(l, runId, BroadcastEvent)) &&
      (BroadcastCountAfterRecordedHash(l, runId).Some? ==>
        BroadcastCountAfterRecordedHash(l, runId).value == 0 && BroadcastAttemptCount(l, runId) == 1)
  {
    hide Next, Distinct, Permitted;
    StartOk();
    WorldRun(Start, steps);
    var l := After(Start, steps).ledger;
    if BroadcastCountAfterRecordedHash(l, runId).Some? {
      var k :| k in l.rows && l.rows[k].runId == runId && l.rows[k].broadcastAt.Some?;
      assert Reached(l.rows[k], BroadcastEvent) && Reached(l.rows[k], AttemptEvent);
    }
    if RunReached(l, runId, BroadcastEvent) {
      var k :| k in l.rows && l.rows[k].runId == runId && Reached(l.rows[k], BroadcastEvent);
      assert l.rows[k].broadcastAt.Some?;
    }
  }

  /** Nothing but the quota stands in the way of this value: its key, run, hash, and sender
      with nonce are all new, and its run exists. */
  predicate Insertable(seen: Ledger, l: Ledger, v: Value) {
    Check(v).Ok? && v.runId.Some? && v.runId.value in l.projects &&
    (forall k :: k in seen.rows ==> k != v.key && seen.rows[k].runId != v.runId.value) &&
    (forall k :: k in l.rows ==>
      k != v.key && l.rows[k].runId != v.runId.value && l.rows[k].signed.hash != v.hash &&
      !(v.from == Some(l.rows[k].from) && l.rows[k].signed.nonce == v.nonce))
  }

  /** Whatever the day has seen, a transaction that is otherwise possible is stored if and
      only if it carries no policy, or no quota is configured, or the quota is not reached. */
  lemma {:induction false} StoredIff(seen: Ledger, l: Ledger, quota: Option<nat>, v: Value, now: int, today: int)
    requires Insertable(seen, l, v)
    ensures var done := Persist(seen, l, quota, v, now, today);
      (done.Ok? && v.key in done.value.rows) <==>
        v.policy.None? || quota.None? || |UsedSince(l, Check(v).value.0, today)| < quota.value
  {
    var row := Check(v).value.1;
    assert !HasRow(seen, v.key, row.runId);
    assert forall k :: k in l.rows ==> !Clashes(l.rows[k], row.(createdAt := now));
    hide Check, HexDigest, HasRow, Clashes;
  }

  /** The stored row carries what the value says. */
  predicate SameSigned(row: Row, v: Value) {
    v.runId == Some(row.runId) && v.fingerprint.Some? && row.signed.fingerprint == StripPrefix(v.fingerprint.value) &&
    row.signed.nonce == v.nonce && row.signed.target == v.target && row.signed.calldataHash == v.calldataHash &&
    row.signed.valueWei == v.valueWei && row.signed.raw == v.raw && row.signed.hash == v.hash
  }

  /** When the key or the run of a value is stored already, nothing is stored, and the call
      is confirmed exactly when the row under the key carries the same run and signed fields;
      a quota that has been reached is no obstacle to one that saw the row. */
  lemma {:induction false} RepeatedIff(seen: Ledger, l: Ledger, quota: Option<nat>, v: Value, now: int, today: int)
    requires Check(v).Ok? && LedgerEvolves(seen, l)
    requires v.key in seen.rows || exists k :: k in seen.rows && Some(seen.rows[k].runId) == v.runId
    ensures var done := Persist(seen, l, quota, v, now, today);
      done == if v.key in seen.rows && SameSigned(l.rows[v.key], v) then Ok(l) else Err(IdentityConflict)
  {
    hide HexDigest, UsedSince, StripPrefix;
    if v.key in seen.rows { assert RowEvolves(seen.rows[v.key], l.rows[v.key]); }
  }

  /** A call whose read came too early for a row under its key that it races with is
      confirmed or refused in the same way, if the quota lets it get that far. */
  lemma {:induction false} RacedIff(seen: Ledger, l: Ledger, quota: Option<nat>, v: Value, now: int, today: int)
    requires Check(v).Ok? && v.key in l.rows
    requires forall k :: k in seen.rows ==> k != v.key && Some(seen.rows[k].runId) != v.runId
    ensures var done := Persist(seen, l, quota, v, now, today);
      done ==
        if v.policy.Some? && quota.Some? && |UsedSince(l, v.projectId.value, today)| >= quota.value
        then Err(QuotaExhausted)
        else if SameSigned(l.rows[v.key], v) then Ok(l) else Err(IdentityConflict)
  {
    CheckedRow(v);
    hide HexDigest, UsedSince, StripPrefix;
    assert !HasRow(seen, v.key, v.runId.value);
  }

  /** A value is checked exactly for a complete identity on Coston2 with a SHA-256 digest,
      whose policy, if it carries one, has quota left and caps no lower than its cost. */
  lemma {:induction false} CheckedIff(v: Value)
    ensures Check(v).Ok? <==>
      v.projectId != None && v.runId != None && v.from != None && v.chainId == 114 && 0 <= v.valueWei && 0 <= v.nonce &&
      v.fingerprint != None && IsDigest(v.fingerprint.value) &&
      (v.policy.Some? ==>
        v.valueWei <= v.policy.value.projectFeeCapWei && v.valueWei <= v.policy.value.globalFeeCapWei &&
        0 <= v.policy.value.balanceFloorWei && 1 <= v.policy.value.quotaRemaining)
  {
    if v.fingerprint.Some? { DigestIff(v.fingerprint.value); }
    hide HexDigest, StripPrefix, IsDigest;
  }

  /** 64 lower-case hex digits, after "sha256:" or alone. */
  ghost predicate IsDigest(s: string) {
    exists digits: string :: (s == digits || s == "sha256:" + digits) && |digits| == 64 &&
      forall c :: c in digits ==> c in "0123456789abcdef"
  }

  lemma {:induction false} DigestIff(s: string)
    ensures IsDigest(s) <==> HexDigest(StripPrefix(s))
    ensures IsDigest(s) ==> s != ""
  {
    if HexDigest(StripPrefix(s)) {
      var digits := StripPrefix(s);
      if "sha256:" <= s { assert s == "sha256:" + s[7..]; }
      forall c | c in digits ensures c in "0123456789abcdef" { HexDigitIs(c); }
    }
    if IsDigest(s) {
      var digits :| (s == digits || s == "sha256:" + digits) && |digits| == 64 &&
        forall c :: c in digits ==> c in "0123456789abcdef";
      forall c | c in digits ensures LowerHex(c) { HexDigitIs(c); }
      if s == digits {
        assert digits[0] in digits;
      } else {
        assert s[7..] == digits;
      }
    }
  }

  lemma {:induction false} HexDigitIs(c: char)
    ensures c in "0123456789abcdef" <==> LowerHex(c)
  {
    if LowerHex(c) {
      assert c in "0123456789abcdef" by {
        var all := "0123456789abcdef";
        var i := if c <= '9' then c as int - '0' as int else c as int - 'a' as int + 10;
        assert all[i] == c;
      }
    }
  }

  /** What is stored is what was given: no more than both caps allow, under a policy. */
  lemma {:induction false} StoredAsGiven(seen: Ledger, l: Ledger, quota: Option<nat>, v: Value, now: int, today: int)
    requires v.key !in l.rows && Persist(seen, l, quota, v, now, today).Ok?
    requires v.key in Persist(seen, l, quota, v, now, today).value.rows
    ensures var t := Persist(seen, l, quota, v, now, today).value; var row := t.rows[v.key];
      t.rows == l.rows[v.key := row] && v.runId == Some(row.runId) && v.from == Some(row.from) &&
      row.signed.hash == v.hash && row.signed.raw == v.raw && row.signed.nonce == v.nonce &&
      row.signed.target == v.target && row.signed.calldataHash == v.calldataHash && row.signed.valueWei == v.valueWei &&
      row.createdAt == now && row.attemptedAt == None && row.broadcastAt == None &&
      (v.policy.Some? ==>
        row.signed.valueWei <= v.policy.value.projectFeeCapWei && row.signed.valueWei <= v.policy.value.globalFeeCapWei)
  {
    hide HexDigest, StripPrefix, UsedSince, HasRow, Matches, Clashes;
  }

  /** What a handler does with a transaction that was just signed. */
  function Relaying(seen: Ledger, quota: Option<nat>, v: Value, now: int, today: int): seq<Step> {
    [PersistStep(seen, quota, v, now, today), AttemptStep(v.key, v.hash, now), SendStep(v.key),
     MarkStep(v.key, v.hash, now)]
  }

  /** From every reachable state a value that can be stored is stored with its own fields,
      granted, sent once and recorded, and its run reports one attempt and no further
      broadcast. */
  lemma {:induction false} RelayedOnce(before: seq<Step>, seen: Ledger, quota: Option<nat>, v: Value, now: int,
      today: int)
    requires var l := After(Start, before).ledger;
      Insertable(seen, l, v) &&
      (v.policy.None? || quota.None? || |UsedSince(l, Check(v).value.0, today)| < quota.value)
    ensures var w := After(After(Start, before), Relaying(seen, quota, v, now, today));
      v.key in w.ledger.rows && w.sent[v.key] == 1 &&
      (var row := w.ledger.rows[v.key];
       row.runId == v.runId.value && row.signed.hash == v.hash && row.broadcastAt == Some(now)) &&
      BroadcastAttemptCount(w.ledger, v.runId.value) == 1 &&
      BroadcastCountAfterRecordedHash(w.ledger, v.runId.value) == Some(0)
  {
    hide Distinct, Audited, Next, Insertable, Check, After;
    StartOk();
    WorldRun(Start, before);
    var w := After(Start, before);
    var steps := Relaying(seen, quota, v, now, today);
    Relays(w, seen, quota, v, now, today);
    WorldRun(w, steps);
    FourSteps(w, steps);
    var t := After(w, steps);
    RunReportsOnce(t, v.key);
  }

  lemma {:induction false} FourSteps(w: World, steps: seq<Step>)
    requires |steps| == 4
    ensures After(w, steps) == Next(Next(Next(Next(w, steps[0]), steps[1]), steps[2]), steps[3])
  {
    hide Next;
    FirstOf(w, steps);
    FirstOf(Next(w, steps[0]), steps[1..]);
    assert steps[1..][1..] == steps[2..] && steps[2..][1..] == steps[3..] && steps[3..][1..] == [];
    FirstOf(Next(Next(w, steps[0]), steps[1]), steps[2..]);
    FirstOf(Next(Next(Next(w, steps[0]), steps[1]), steps[2]), steps[3..]);
    assert After(Next(Next(Next(Next(w, steps[0]), steps[1]), steps[2]), steps[3]), []) ==
      Next(Next(Next(Next(w, steps[0]), steps[1]), steps[2]), steps[3]);
  }

  lemma {:induction false} FirstOf(w: World, steps: seq<Step>)
    requires steps != []
    ensures After(w, steps) == After(Next(w, steps[0]), steps[1..])
  {
  }

  lemma {:induction false} Relays(w: World, seen: Ledger, quota: Option<nat>, v: Value, now: int, today: int)
    requires WorldOk(w) && Insertable(seen, w.ledger, v)
    requires v.policy.None? || quota.None? || |UsedSince(w.ledger, Check(v).value.0, today)| < quota.value
    ensures v.runId.Some?
    ensures var steps := Relaying(seen, quota, v, now, today);
      var t := Next(Next(Next(Next(w, steps[0]), steps[1]), steps[2]), steps[3]);
      v.key in t.ledger.rows && t.sent[v.key] == 1 && t.ledger.rows[v.key].runId == v.runId.value &&
      t.ledger.rows[v.key].signed.hash == v.hash && t.ledger.rows[v.key].broadcastAt == Some(now)
  {
    hide LedgerOk, Check, UsedSince, Persist, Insertable, Permitted;
    NothingYet(w, seen, v);
    StoredIff(seen, w.ledger, quota, v, now, today);
    StoredAsGiven(seen, w.ledger, quota, v, now, today);
    var stored := Next(w, PersistStep(seen, quota, v, now, today));
    FreshIsSent(stored, v.key, now);
  }

  lemma {:induction false} NothingYet(w: World, seen: Ledger, v: Value)
    requires WorldOk(w) && Insertable(seen, w.ledger, v)
    ensures v.key !in w.ledger.rows && w.sent[v.key] == 0 && w.permits[v.key] == 0 && v.runId.Some?
  {
    CheckedRow(v);
    hide LedgerOk, Check;
    assert w.sent[v.key] + w.permits[v.key] == 0;
  }

  /** A stored row without markers is attempted, sent and recorded by one handler. */
  lemma {:induction false} FreshIsSent(w: World, key: string, now: int)
    requires key in w.ledger.rows && w.ledger.rows[key].attemptedAt.None? && w.ledger.rows[key].broadcastAt.None?
    requires w.sent[key] == 0 && w.permits[key] == 0
    ensures var hash := w.ledger.rows[key].signed.hash;
      var t := Next(Next(Next(w, AttemptStep(key, hash, now)), SendStep(key)), MarkStep(key, hash, now));
      t.sent[key] == 1 && key in t.ledger.rows &&
      t.ledger.rows[key] == w.ledger.rows[key].(attemptedAt := Some(now), broadcastAt := Some(now))
  {
  }

  lemma {:induction false} RunReportsOnce(w: World, key: string)
    requires WorldOk(w) && key in w.ledger.rows && w.ledger.rows[key].broadcastAt.Some?
    ensures BroadcastAttemptCount(w.ledger, w.ledger.rows[key].runId) == 1
    ensures BroadcastCountAfterRecordedHash(w.ledger, w.ledger.rows[key].runId) == Some(0)
  {
    var r := w.ledger.rows[key].runId;
    assert Reached(w.ledger.rows[key], AttemptEvent) && Reached(w.ledger.rows[key], BroadcastEvent);
    assert RunReached(w.ledger, r, AttemptEvent) && RunReached(w.ledger, r, BroadcastEvent);
    hide Distinct, Permitted;
  }

  // -------------------------------------------------------------- daily quota

  /** The transactions of a project and day that were checked against the quota; `zone`
      gives the start of a time's day. */
  function LimitedOn(w: World, zone: int -> int, projectId: Id, day: int): set<string> {
    set k | k in w.limited && k in w.ledger.rows && ProjectOf(w.ledger, w.ledger.rows[k].runId, projectId) &&
            zone(w.ledger.rows[k].createdAt) == day
  }

  function RowsOn(w: World, zone: int -> int, projectId: Id, day: int): set<string> {
    set k | k in w.ledger.rows && ProjectOf(w.ledger, w.ledger.rows[k].runId, projectId) &&
            zone(w.ledger.rows[k].createdAt) == day
  }

  /** One configured quota, days of one time zone, and the project of the run, which the
      worker passes from the run's own context (apps/worker/src/worker.ts:1609-1615). */
  ghost predicate Configured(w: World, step: Step, quota: nat, zone: int -> int) {
    step.PersistStep? ==>
      step.quota == Some(quota) && step.today == zone(step.now) &&
      (step.value.projectId.Some? && step.value.runId.Some? ==>
        ProjectOf(w.ledger, step.value.runId.value, step.value.projectId.value))
  }

  ghost predicate AllConfigured(w: World, steps: seq<Step>, quota: nat, zone: int -> int)
    decreases |steps|
  {
    steps == [] ||
    (Configured(w, steps[0], quota, zone) && AllConfigured(Next(w, steps[0]), steps[1..], quota, zone))
  }

  ghost predicate WithinQuota(w: World, quota: nat, zone: int -> int) {
    forall p: Id, day: int :: |LimitedOn(w, zone, p, day)| <= quota
  }

  /** A day starts no later than any of its times. */
  ghost predicate StartsDays(zone: int -> int) {
    forall t: int :: zone(t) <= t
  }

  lemma {:induction false} NoMoreRows(w: World, t: World, zone: int -> int, p: Id, day: int)
    requires t.limited == w.limited
    requires forall k :: k in t.ledger.rows && k in w.limited ==>
      k in w.ledger.rows && RowEvolves(w.ledger.rows[k], t.ledger.rows[k]) &&
      w.ledger.rows[k].runId in w.ledger.projects
    requires forall r :: r in w.ledger.projects ==>
      r in t.ledger.projects && t.ledger.projects[r] == w.ledger.projects[r]
    ensures |LimitedOn(t, zone, p, day)| <= |LimitedOn(w, zone, p, day)|
  {
    SubsetIsSmaller(LimitedOn(t, zone, p, day), LimitedOn(w, zone, p, day));
  }

  lemma {:induction false} PersistCounted(seen: Ledger, l: Ledger, quota: nat, v: Value, now: int, today: int)
    requires Persist(seen, l, Some(quota), v, now, today).Ok? && Persist(seen, l, Some(quota), v, now, today).value != l
    ensures v.projectId.Some? && v.runId.Some?
    ensures v.policy.Some? ==> |UsedSince(l, v.projectId.value, today)| < quota
  {
    hide UsedSince, Clashes, HexDigest;
  }

  /** Transactions of the day are among those counted since its start. */
  lemma {:induction false} DayIsCounted(w: World, zone: int -> int, p: Id, now: int)
    requires StartsDays(zone)
    ensures |LimitedOn(w, zone, p, zone(now))| <= |UsedSince(w.ledger, p, zone(now))|
  {
    forall k | k in LimitedOn(w, zone, p, zone(now)) ensures k in UsedSince(w.ledger, p, zone(now)) {
      assert zone(w.ledger.rows[k].createdAt) <= w.ledger.rows[k].createdAt;
    }
    SubsetIsSmaller(LimitedOn(w, zone, p, zone(now)), UsedSince(w.ledger, p, zone(now)));
  }

  ghost predicate LimitedStored(w: World) { forall k :: k in w.limited ==> k in w.ledger.rows }

  lemma {:induction false} PersistWithin(w: World, step: Step, quota: nat, zone: int -> int, p: Id, day: int)
    requires LedgerOk(w.ledger) && LimitedStored(w) && WithinQuota(w, quota, zone) && StartsDays(zone)
    requires step.PersistStep? && Configured(w, step, quota, zone)
    ensures |LimitedOn(Next(w, step), zone, p, day)| <= quota
  {
    hide LedgerOk, LedgerEvolves, Persist, UsedSince, Clashes;
    var v := step.value;
    var t := Next(w, step);
    assert |LimitedOn(w, zone, p, day)| <= quota;
    if t.ledger != w.ledger {
      PersistKeeps(step.seen, w.ledger, step.quota, v, step.now, step.today);
      PersistCounted(step.seen, w.ledger, quota, v, step.now, step.today);
      if v.policy.Some? && p == v.projectId.value && day == step.today {
        DayIsCounted(w, zone, p, step.now);
        assert LimitedOn(t, zone, p, day) == LimitedOn(w, zone, p, day) + {v.key};
      } else {
        assert LimitedOn(t, zone, p, day) == LimitedOn(w, zone, p, day);
      }
    }
  }

  lemma {:induction false} StoredStep(w: World, step: Step)
    requires LedgerOk(w.ledger) && LimitedStored(w)
    ensures LimitedStored(Next(w, step))
  {
    hide LedgerOk, Persist, Mark, Attempt;
    LedgerStep(w, step);
    if step.PersistStep? && Next(w, step).ledger != w.ledger {
      PersistKeeps(step.seen, w.ledger, step.quota, step.value, step.now, step.today);
    }
  }

  lemma {:induction false} OthersAddNone(w: World, step: Step, zone: int -> int, p: Id, day: int)
    requires LedgerOk(w.ledger) && LimitedStored(w) && !step.PersistStep?
    ensures |LimitedOn(Next(w, step), zone, p, day)| <= |LimitedOn(w, zone, p, day)|
  {
    hide Distinct, Audited, Persist, LimitedOn;
    LedgerStep(w, step);
    NoMoreRows(w, Next(w, step), zone, p, day);
  }

  lemma {:induction false} QuotaStep(w: World, step: Step, quota: nat, zone: int -> int)
    requires LedgerOk(w.ledger) && LimitedStored(w) && WithinQuota(w, quota, zone) && StartsDays(zone)
    requires Configured(w, step, quota, zone)
    ensures WithinQuota(Next(w, step), quota, zone)
  {
    hide LedgerOk, LimitedStored, Next, StartsDays, LimitedOn, Configured;
    forall p: Id, day: int ensures |LimitedOn(Next(w, step), zone, p, day)| <= quota {
      if step.PersistStep? {
        PersistWithin(w, step, quota, zone, p, day);
      } else {
        OthersAddNone(w, step, zone, p, day);
      }
    }
  }

  lemma {:induction false} QuotaRun(w: World, steps: seq<Step>, quota: nat, zone: int -> int)
    requires WorldOk(w) && LimitedStored(w) && WithinQuota(w, quota, zone) && StartsDays(zone)
    requires AllConfigured(w, steps, quota, zone)
    ensures WithinQuota(After(w, steps), quota, zone) && LimitedStored(After(w, steps))
    decreases |steps|
  {
    hide LedgerOk, Next, WithinQuota, Configured, LimitedStored, StartsDays;
    if steps != [] {
      WorldStep(w, steps[0]);
      QuotaStep(w, steps[0], quota, zone);
      StoredStep(w, steps[0]);
      QuotaRun(Next(w, steps[0]), steps[1..], quota, zone);
    }
  }

  /** No project ever has more transactions of one day that were persisted under a policy
      than its quota, whatever time zone the days are of, whatever the clocks of concurrent
      transactions said, and however many others were persisted without a policy. */
  lemma {:induction false} DailyQuotaHolds(steps: seq<Step>, quota: nat, zone: int -> int, p: Id, day: int)
    requires AllConfigured(Start, steps, quota, zone) && StartsDays(zone)
    ensures |LimitedOn(After(Start, steps), zone, p, day)| <= quota
  {
    hide Next, AllConfigured, StartsDays;
    StartOk();
    forall q: Id, d: int ensures LimitedOn(Start, zone, q, d) == {} {
    }
    QuotaRun(Start, steps, quota, zone);
  }

  /** The worker leaves the policy out when the run has no policy artifact
      (apps/worker/src/worker.ts:1112-1116); this says that it never did. */
  predicate WithPolicy(steps: seq<Step>) {
    forall i :: 0 <= i < |steps| ==> steps[i].PersistStep? ==> steps[i].value.policy.Some? && steps[i].quota.Some?
  }

  lemma {:induction false} AllLimited(w: World, steps: seq<Step>)
    requires WorldOk(w) && w.limited == w.ledger.rows.Keys && WithPolicy(steps)
    ensures After(w, steps).limited == After(w, steps).ledger.rows.Keys
    decreases |steps|
  {
    hide WorldOk, Next;
    if steps != [] {
      WorldStep(w, steps[0]);
      LimitedStep(w, steps[0]);
      AllLimited(Next(w, steps[0]), steps[1..]);
    }
  }

  lemma {:induction false} LimitedStep(w: World, step: Step)
    requires WorldOk(w) && w.limited == w.ledger.rows.Keys
    requires step.PersistStep? ==> step.value.policy.Some? && step.quota.Some?
    ensures Next(w, step).limited == Next(w, step).ledger.rows.Keys
  {
    hide Distinct, Audited, Persist, Permitted;
    if step.PersistStep? && Next(w, step).ledger != w.ledger {
      PersistKeeps(step.seen, w.ledger, step.quota, step.value, step.now, step.today);
    }
  }

  /** With a policy on every run, the quota bounds all transactions of the day. */
  lemma {:induction false} DailyQuotaHoldsForAll(steps: seq<Step>, quota: nat, zone: int -> int, p: Id, day: int)
    requires AllConfigured(Start, steps, quota, zone) && StartsDays(zone) && WithPolicy(steps)
    ensures |RowsOn(After(Start, steps), zone, p, day)| <= quota
  {
    hide Next, AllConfigured, StartsDays, Configured;
    StartOk();
    DailyQuotaHolds(steps, quota, zone, p, day);
    AllLimited(Start, steps);
    assert RowsOn(After(Start, steps), zone, p, day) == LimitedOn(After(Start, steps), zone, p, day);
  }

  lemma {:induction false} FirstConfigured(w: World, steps: seq<Step>, quota: nat, zone: int -> int)
    requires steps != []
    ensures AllConfigured(w, steps, quota, zone) <==>
      Configured(w, steps[0], quota, zone) && AllConfigured(Next(w, steps[0]), steps[1..], quota, zone)
  {
  }

  /** Without a policy nothing is counted: even a quota of none lets the transaction in. */
  lemma {:induction false} UncheckedWithoutPolicy(v: Value, p: Id, now: int, zone: int -> int)
    requires Check(v).Ok? && v.policy.None? && v.projectId == Some(p)
    ensures var steps := [AddRun(v.runId.value, p), PersistStep(Start.ledger, Some(0), v, now, zone(now))];
      AllConfigured(Start, steps, 0, zone) && |RowsOn(After(Start, steps), zone, p, zone(now))| == 1
  {
    CheckedRow(v);
    hide HexDigest;
    var add, persist := AddRun(v.runId.value, p), PersistStep(Start.ledger, Some(0), v, now, zone(now));
    var w := Next(Start, add);
    var t := Next(w, persist);
    assert [add, persist][1..] == [persist] && [persist][1..] == [];
    assert After(w, [persist]) == t;
    FirstConfigured(w, [persist], 0, zone);
    FirstConfigured(Start, [add, persist], 0, zone);
    assert RowsOn(t, zone, p, zone(now)) == {v.key};
  }

  function UtcDay(t: int): int { WindowStart(RunDay, t) }

  /** A session in UTC is one whose days the quota bounds. */
  lemma {:induction false} DailyQuotaInUtc(steps: seq<Step>, quota: nat, p: Id, day: int)
    requires AllConfigured(Start, steps, quota, UtcDay)
    ensures |LimitedOn(After(Start, steps), UtcDay, p, day)| <= quota
  {
    assert StartsDays(UtcDay);
    DailyQuotaHolds(steps, quota, UtcDay, p, day);
  }
}
