/**
 The migration runner of apps/api/src/migration-runner.ts and the schema check of
 apps/api/src/deployment-lifecycle.ts. What a migration body does to the ledger tables
 is left open: the runner's own checks must be enough.
*/
module Migration {
  import opened Wrappers

  datatype Entry = Entry(version: int, filename: string, sha256: string)

  type Plan = seq<Entry>

  predicate ValidPlan(plan: Plan) {
    plan != [] && forall i :: 0 <= i < |plan| ==> plan[i].version == i + 1
  }

  /** schema_migrations, in order, and migration_checksums by version. */
  datatype Tables = Tables(schemaExists: bool, ledgerExists: bool, versions: seq<int>, checksums: map<int, Entry>)

  /** The primary keys, and a ledger that needs schema_migrations to exist. */
  ghost predicate PrimaryKeys(t: Tables) {
    (forall i, k :: 0 <= i < k < |t.versions| ==> t.versions[i] < t.versions[k]) &&
    (forall v: int :: v in t.checksums ==> t.checksums[v].version == v) && (t.ledgerExists ==> t.schemaExists)
  }

  /** The foreign key of migration_checksums.version. */
  ghost predicate NoOrphans(t: Tables) { forall v: int :: v in t.checksums ==> v in t.versions }

  /** The tables as declared. */
  ghost predicate Lawful(t: Tables) { PrimaryKeys(t) && NoOrphans(t) }

  datatype History = History(schemaExists: bool, ledgerExists: bool, versions: seq<int>, checksums: seq<Entry>)

  datatype Code =
    | HistoryUnverified | DatabaseAhead | VersionGap | ChecksumMismatch | TargetMismatch | ApplyFailed | LockTimeout

  datatype State = Fresh | Pending(from: nat) | CurrentAt(from: nat)

  function From(s: State): nat { if s.Fresh? then 0 else s.from }

  // -------------------------------------------------------------- verification

  predicate Counts(versions: seq<int>) {
    forall i :: 0 <= i < |versions| ==> versions[i] == i + 1
  }

  predicate Agree(plan: Plan, checksums: seq<Entry>) {
    |checksums| <= |plan| && forall i :: 0 <= i < |checksums| ==> checksums[i] == plan[i]
  }

  /** What a history is, in the order the checks are made. */
  function Verify(plan: Plan, h: History): Result<State, Code> {
    if !h.schemaExists && !h.ledgerExists then
      if h.versions != [] || h.checksums != [] then Err(HistoryUnverified) else Ok(Fresh)
    else if !h.schemaExists || !h.ledgerExists then Err(HistoryUnverified)
    else if exists i :: 0 <= i < |h.versions| && h.versions[i] > |plan| then Err(DatabaseAhead)
    else if !Counts(h.versions) then Err(VersionGap)
    else if h.versions == [] || |h.checksums| != |h.versions| then Err(HistoryUnverified)
    else if !Agree(plan, h.checksums) then Err(ChecksumMismatch)
    else Ok(if |h.versions| == |plan| then CurrentAt(|h.versions|) else Pending(|h.versions|))
  }

  /** verifyMigrationHistory, with its two loops. */
  method VerifyMigrationHistory(plan: Plan, h: History) returns (r: Result<State, Code>)
    ensures r == Verify(plan, h)
  {
    if !h.schemaExists && !h.ledgerExists {
      if h.versions != [] || h.checksums != [] { return Err(HistoryUnverified); }
      return Ok(Fresh);
    }
    if !h.schemaExists || !h.ledgerExists { return Err(HistoryUnverified); }
    if exists i :: 0 <= i < |h.versions| && h.versions[i] > |plan| { return Err(DatabaseAhead); }
    for index := 0 to |h.versions|
      invariant forall i :: 0 <= i < index ==> h.versions[i] == i + 1
    {
      if h.versions[index] != index + 1 { return Err(VersionGap); }
    }
    if h.versions == [] || |h.checksums| != |h.versions| { return Err(HistoryUnverified); }
    assert h.versions[|h.versions| - 1] == |h.versions|;
    for index := 0 to |h.versions|
      invariant forall i :: 0 <= i < index ==> h.checksums[i] == plan[i]
    {
      if h.checksums[index] != plan[index] { return Err(ChecksumMismatch); }
    }
    r := Ok(if |h.versions| == |plan| then CurrentAt(|h.versions|) else Pending(|h.versions|));
  }

  /** A history is accepted exactly when it is empty without tables, or a non-empty exact
      prefix of the plan in both tables. */
  lemma {:induction false} AcceptedIsPrefix(plan: Plan, h: History)
    requires ValidPlan(plan)
    ensures Verify(plan, h).Ok? <==>
      (!h.schemaExists && !h.ledgerExists && h.versions == [] && h.checksums == []) ||
      (h.schemaExists && h.ledgerExists && h.checksums != [] && h.checksums <= plan && Counts(h.versions) &&
       |h.versions| == |h.checksums|)
    ensures Verify(plan, h).Ok? ==> From(Verify(plan, h).value) == |h.versions| <= |plan|
  {
    if h.schemaExists && h.ledgerExists && h.checksums != [] && |h.versions| == |h.checksums| && Counts(h.versions) {
      if h.checksums <= plan {
        forall i | 0 <= i < |h.checksums| ensures h.checksums[i] == plan[i] {
        }
      }
      if |h.versions| > |plan| {
        assert h.versions[|h.versions| - 1] > |plan|;
      }
      if Agree(plan, h.checksums) {
        assert h.checksums == plan[..|h.checksums|];
      }
    }
  }

  /** What a refused history is refused for, in the order of the checks. */
  lemma {:induction false} RefusedFor(plan: Plan, h: History)
    requires ValidPlan(plan) && Verify(plan, h).Err?
    ensures !h.schemaExists || !h.ledgerExists ==> Verify(plan, h).error == HistoryUnverified
    ensures h.schemaExists && h.ledgerExists ==>
      Verify(plan, h).error ==
        if exists v: int :: v in h.versions && v > |plan| then DatabaseAhead
        else if !Counts(h.versions) then VersionGap
        else if h.versions == [] || |h.checksums| != |h.versions| then HistoryUnverified
        else ChecksumMismatch
  {
    if v: int :| v in h.versions && v > |plan| {
      var i :| 0 <= i < |h.versions| && h.versions[i] == v;
    }
    if i :| 0 <= i < |h.versions| && h.versions[i] > |plan| {
      assert h.versions[i] in h.versions;
    }
  }

  // ------------------------------------------------------------------ database

  function Joined(versions: seq<int>, checksums: map<int, Entry>): seq<Entry> {
    if versions == [] then []
    else
      var v := versions[|versions| - 1];
      Joined(versions[..|versions| - 1], checksums) + (if v in checksums then [checksums[v]] else [])
  }

  /** readMigrationHistory; absent when a query meets a missing table. */
  function ReadHistory(t: Tables, known: bool): Option<History> {
    if known && (!t.schemaExists || !t.ledgerExists) then None
    else if !t.schemaExists && !t.ledgerExists then Some(History(false, false, [], []))
    else if !t.schemaExists then None
    else Some(History(true, t.ledgerExists, t.versions, if t.ledgerExists then Joined(t.versions, t.checksums) else []))
  }

  /** What is read: both tables as they are, the versions alone while the second is missing, and
      nothing before either exists; after a run both must exist. */
  lemma {:induction false} HistoryRead(t: Tables, known: bool)
    requires t.ledgerExists ==> t.schemaExists
    ensures ReadHistory(t, known) ==
      if t.schemaExists && t.ledgerExists then Some(History(true, true, t.versions, Joined(t.versions, t.checksums)))
      else if known then None
      else if t.schemaExists then Some(History(true, false, t.versions, []))
      else Some(History(false, false, [], []))
  {
  }

  predicate Violates(t: Tables, e: Entry) { e.version in t.checksums || e.version !in t.versions }

  /** insertChecksumLedger: one statement, refused when a version already has a checksum or
      was not applied. */
  function InsertLedger(t: Tables, pending: seq<Entry>): Option<Tables> {
    if pending == [] then Some(t)
    else if !t.ledgerExists || (exists e :: e in pending && Violates(t, e)) then None
    else Some(t.(checksums := AddAll(t.checksums, pending)))
  }

  function AddAll(checksums: map<int, Entry>, pending: seq<Entry>): map<int, Entry> {
    if pending == [] then checksums
    else
      var e := pending[|pending| - 1];
      AddAll(checksums, pending[..|pending| - 1])[e.version := e]
  }

  ghost predicate Full(plan: Plan, t: Tables) {
    ReadHistory(t, true).Some? && Verify(plan, ReadHistory(t, true).value) == Ok(CurrentAt(|plan|))
  }

  /** The committed tables and the bodies committed with them. */
  datatype Db = Db(tables: Tables, applied: seq<int>)

  datatype Body = Fails | Leaves(tables: Tables)

  function Versions(from: nat, to: nat): seq<int>
    requires from <= to
  {
    seq(to - from, i => from + i + 1)
  }

  /** What the database allows after a run that began at an exact prefix of length n: its
      start, or the full plan with each missing body committed once. */
  ghost predicate StartOrFull(plan: Plan, start: Db, n: nat, db: Db) {
    n <= |plan| && (db == start || (Full(plan, db.tables) && db.applied == start.applied + Versions(n, |plan|)))
  }

  // -------------------------------------------------------------------- runner

  /** What befalls one run: each flag is a statement that may fail. */
  datatype Fate = Fate(lockOk: bool, readOk: bool, beginOk: bool, bodies: seq<Body>, grantOk: bool, commitOk: bool)

  /** The database is at an exact prefix of length n of the plan. */
  ghost predicate Prefix(plan: Plan, db: Db, n: nat) {
    ReadHistory(db.tables, false).Some? && Verify(plan, ReadHistory(db.tables, false).value).Ok? &&
    From(Verify(plan, ReadHistory(db.tables, false).value).value) == n
  }

  /** What a run from a prefix of length n would commit, if each missing body leaves tables:
      those of the last body with the ledger of the missing versions. */
  ghost function Target(plan: Plan, n: nat, bodies: seq<Body>): Option<Tables> {
    if n < |plan| && |plan| - n <= |bodies| && (forall i :: 0 <= i < |plan| - n ==> bodies[i].Leaves?)
    then InsertLedger(bodies[|plan| - n - 1].tables, plan[n..]) else None
  }

  /** Nothing that a run from such a prefix needs fails it, and what it would commit is the
      full plan. */
  ghost predicate Goes(plan: Plan, d: Db, n: nat, fate: Fate) {
    fate.lockOk && fate.readOk && fate.grantOk && Prefix(plan, d, n) &&
    (n == |plan| ||
     (fate.beginOk && fate.commitOk && Target(plan, n, fate.bodies).Some? &&
      Full(plan, Target(plan, n, fate.bodies).value)))
  }

  /** The database after a run that goes. */
  ghost function Reached(plan: Plan, d: Db, n: nat, bodies: seq<Body>): Db {
    if n < |plan| && Target(plan, n, bodies).Some?
    then Db(Target(plan, n, bodies).value, d.applied + Versions(n, |plan|)) else d
  }

  class Runner {
    var db: Db
    var tx: Option<Db>
    var locked: bool
    var transactionOpen: bool

    constructor (d: Db)
      ensures db == d && tx.None? && !locked && !transactionOpen
    {
      db, tx, locked, transactionOpen := d, None, false, false;
    }

    /** runVerifiedMigrations, holding the advisory lock throughout: it commits nothing or
        the whole rest of the plan; if it reports success the plan is in force; and it lets
        go of the lock and the transaction. */
    method RunVerifiedMigrations(plan: Plan, fate: Fate) returns (result: Result<(nat, nat), Code>)
      requires ValidPlan(plan) && !locked && !transactionOpen
      modifies this
      ensures !locked && !transactionOpen && tx.None?
      ensures !fate.lockOk ==> result == Err(LockTimeout)
      ensures var h := ReadHistory(old(db).tables, false);
        if h.Some? && Verify(plan, h.value).Ok?
        then StartOrFull(plan, old(db), From(Verify(plan, h.value).value), db)
        else db == old(db) && result.Err?
      ensures result.Ok? ==> Full(plan, db.tables) && result.value.1 == |plan|
      ensures forall n: nat :: Goes(plan, old(db), n, fate) ==> result == Ok((n, |plan|))
      ensures fate.lockOk && fate.readOk ==>
        var h := ReadHistory(old(db).tables, false);
        h.Some? && Verify(plan, h.value).Err? ==> result.Err? && result.error == Verify(plan, h.value).error
      ensures result.Ok? ==>
        Goes(plan, old(db), result.value.0, fate) &&
        db == Reached(plan, old(db), result.value.0, fate.bodies)
    {
      hide Full, Agree, Counts, InsertLedger, Prefix, Reached, StartOrFull, Target;
      if !fate.lockOk {
        UnreadIsStart(plan, db);
        tx := None;
        return Err(LockTimeout);
      }
      locked := true;
      result := Migrate(plan, fate);
      if transactionOpen {
        tx := None;
        transactionOpen := false;
      }
      locked := false;
    }

    method Migrate(plan: Plan, fate: Fate) returns (result: Result<(nat, nat), Code>)
      requires ValidPlan(plan) && locked && !transactionOpen && fate.lockOk
      modifies this`db, this`tx, this`transactionOpen
      ensures !transactionOpen ==> tx.None?
      ensures var h := ReadHistory(old(db).tables, false);
        if h.Some? && Verify(plan, h.value).Ok?
        then StartOrFull(plan, old(db), From(Verify(plan, h.value).value), db)
        else db == old(db) && result.Err?
      ensures result.Ok? ==> Full(plan, db.tables) && result.value.1 == |plan|
      ensures forall n: nat :: Goes(plan, old(db), n, fate) ==> result == Ok((n, |plan|))
      ensures fate.lockOk && fate.readOk ==>
        var h := ReadHistory(old(db).tables, false);
        h.Some? && Verify(plan, h.value).Err? ==> result.Err? && result.error == Verify(plan, h.value).error
      ensures result.Ok? ==>
        Goes(plan, old(db), result.value.0, fate) &&
        db == Reached(plan, old(db), result.value.0, fate.bodies)
    {
      hide Full, Agree, Counts, InsertLedger;
      tx := None;
      var history := if fate.readOk then ReadHistory(db.tables, false) else None;
      if history.None? {
        UnreadIsStart(plan, db);
        return Err(ApplyFailed);
      }
      AcceptedIsPrefix(plan, history.value);
      var state := VerifyMigrationHistory(plan, history.value);
      if state.Err? { return Err(state.error); }
      if state.value.CurrentAt? {
        CurrentIsFull(plan, db.tables);
        if !fate.grantOk { return Err(ApplyFailed); }
        return Ok((From(state.value), |plan|));
      }
      if !fate.beginOk { return Err(ApplyFailed); }
      var from := From(state.value);
      tx, transactionOpen := Some(db), true;
      var pending := plan[from..];
      var draft := db;
      for i := 0 to |pending|
        invariant db == old(db) && transactionOpen && tx == Some(draft)
        invariant draft.applied == db.applied + Versions(from, from + i)
        invariant i <= |fate.bodies| && forall k :: 0 <= k < i ==> fate.bodies[k].Leaves?
        invariant i > 0 ==> draft.tables == fate.bodies[i - 1].tables
      {
        if i >= |fate.bodies| || fate.bodies[i].Fails? { return Err(ApplyFailed); }
        assert Versions(from, from + i + 1) == Versions(from, from + i) + [pending[i].version];
        draft := Db(fate.bodies[i].tables, draft.applied + [pending[i].version]);
        tx := Some(draft);
      }
      assert from + |pending| == |plan|;
      var inserted := InsertLedger(draft.tables, pending);
      if inserted.None? || !fate.grantOk { return Err(ApplyFailed); }
      draft := draft.(tables := inserted.value);
      tx := Some(draft);
      assert Target(plan, from, fate.bodies) == inserted;
      var target := VerifyMigrationTarget(plan, draft.tables);
      if target.Some? { return Err(target.value); }
      if !fate.commitOk { return Err(ApplyFailed); }
      db, tx, transactionOpen := draft, None, false;
      result := Ok((from, |plan|));
    }

    /** Reading the applied history and verifyMigrationTarget. */
    static method VerifyMigrationTarget(plan: Plan, t: Tables) returns (failure: Option<Code>)
      requires ValidPlan(plan)
      ensures failure.None? <==> Full(plan, t)
    {
      var applied := ReadHistory(t, true);
      if applied.None? { return Some(ApplyFailed); }
      AcceptedIsPrefix(plan, applied.value);
      var target := VerifyMigrationHistory(plan, applied.value);
      if target.Err? { return Some(target.error); }
      if !target.value.CurrentAt? { return Some(TargetMismatch); }
      failure := None;
    }
  }

  lemma {:induction false} UnreadIsStart(plan: Plan, db: Db)
    requires ValidPlan(plan)
    ensures var h := ReadHistory(db.tables, false);
      h.Some? && Verify(plan, h.value).Ok? ==> StartOrFull(plan, db, From(Verify(plan, h.value).value), db)
  {
    var h := ReadHistory(db.tables, false);
    if h.Some? { AcceptedIsPrefix(plan, h.value); }
  }

  lemma {:induction false} CurrentIsFull(plan: Plan, t: Tables)
    requires ValidPlan(plan) && ReadHistory(t, false).Some?
    requires Verify(plan, ReadHistory(t, false).value).Ok? && Verify(plan, ReadHistory(t, false).value).value.CurrentAt?
    ensures Full(plan, t)
  {
    AcceptedIsPrefix(plan, ReadHistory(t, false).value);
  }

  lemma {:induction false} FullIsCurrent(plan: Plan, t: Tables)
    requires ValidPlan(plan) && Full(plan, t)
    ensures ReadHistory(t, false).Some? && Verify(plan, ReadHistory(t, false).value) == Ok(CurrentAt(|plan|))
  {
  }

  // -------------------------------------------------------------- many runners

  /** Where a runner stands; the tables in `tx` are what its transaction would commit. */
  datatype Phase =
    | Waiting
    | Locked
    | Applying(from: nat, done: nat, tx: Db)
    | Ledgered(from: nat, tx: Db)
    | Current(from: nat)
    | Succeeded(from: nat)
    | Failed

  datatype World = World(db: Db, holder: Option<nat>, runners: map<nat, Phase>)

  datatype Step =
    | Arrive(r: nat)
    | Lock(r: nat)
    | Read(r: nat)
    | ApplyBody(r: nat, body: Body)
    | WriteLedger(r: nat)
    | Commit(r: nat)
    | Finish(r: nat)
    | Die(r: nat)

  function Put(w: World, r: nat, phase: Phase): World { w.(runners := w.runners[r := phase]) }

  /** A failure or crash: the transaction is rolled back and the session's lock is gone. */
  function Drop(w: World, r: nat): World {
    Put(w, r, Failed).(holder := if w.holder == Some(r) then None else w.holder)
  }

  function AfterRead(w: World, plan: Plan, r: nat): World {
    var h := ReadHistory(w.db.tables, false);
    if h.None? || Verify(plan, h.value).Err? then Drop(w, r)
    else
      var state := Verify(plan, h.value).value;
      Put(w, r, if state.CurrentAt? then Current(state.from) else Applying(From(state), 0, w.db))
  }

  function AfterBody(w: World, plan: Plan, r: nat, body: Body): World
    requires r in w.runners && w.runners[r].Applying?
  {
    var p := w.runners[r];
    if body.Fails? || p.from + p.done >= |plan| then Drop(w, r)
    else Put(w, r, p.(done := p.done + 1, tx := Db(body.tables, p.tx.applied + [plan[p.from + p.done].version])))
  }

  function AfterLedger(w: World, plan: Plan, r: nat): World
    requires r in w.runners && w.runners[r].Applying? && w.runners[r].from <= |plan|
  {
    var p := w.runners[r];
    var inserted := InsertLedger(p.tx.tables, plan[p.from..]);
    if p.from + p.done != |plan| || inserted.None? then Drop(w, r)
    else Put(w, r, Ledgered(p.from, p.tx.(tables := inserted.value)))
  }

  function AfterCommit(w: World, plan: Plan, r: nat): World
    requires r in w.runners && w.runners[r].Ledgered?
  {
    var p := w.runners[r];
    var h := ReadHistory(p.tx.tables, true);
    if h.None? || Verify(plan, h.value).Err? || !Verify(plan, h.value).value.CurrentAt? then Drop(w, r)
    else Put(w.(db := p.tx), r, Current(p.from))
  }

  function Next(w: World, plan: Plan, step: Step): World {
    var r := step.r;
    if step.Arrive? then (if r in w.runners then w else Put(w, r, Waiting))
    else if r !in w.runners then w
    else match step
      case Lock(_) =>
        if w.runners[r].Waiting? && w.holder.None? then Put(w, r, Locked).(holder := Some(r)) else w
      case Read(_) => if w.runners[r].Locked? then AfterRead(w, plan, r) else w
      case ApplyBody(_, body) => if w.runners[r].Applying? then AfterBody(w, plan, r, body) else w
      case WriteLedger(_) =>
        if w.runners[r].Applying? && w.runners[r].from <= |plan| then AfterLedger(w, plan, r) else w
      case Commit(_) => if w.runners[r].Ledgered? then AfterCommit(w, plan, r) else w
      case Finish(_) =>
        if w.runners[r].Current? then Put(w, r, Succeeded(w.runners[r].from)).(holder := None) else w
      case Die(_) =>
        if w.runners[r].Succeeded? || w.runners[r].Failed? then w else Drop(w, r)
      case _ => w
  }

  function After(w: World, plan: Plan, steps: seq<Step>): World
    decreases |steps|
  {
    if steps == [] then w else After(Next(w, plan, steps[0]), plan, steps[1..])
  }

  predicate Working(p: Phase) { p.Locked? || p.Applying? || p.Ledgered? || p.Current? }

  /** The runner that works holds the lock; its transaction rests on the committed tables. */
  ghost predicate PhaseOk(plan: Plan, w: World, r: nat) {
    r in w.runners ==>
      (Working(w.runners[r]) ==> w.holder == Some(r)) &&
      match w.runners[r]
      case Applying(from, done, tx) =>
        from + done <= |plan| && Prefix(plan, w.db, from) && from < |plan| &&
        tx.applied == w.db.applied + Versions(from, from + done)
      case Ledgered(from, tx) =>
        Prefix(plan, w.db, from) && from < |plan| && tx.applied == w.db.applied + Versions(from, |plan|)
      case Current(_) => Full(plan, w.db.tables)
      case Succeeded(_) => Full(plan, w.db.tables)
      case _ => true
  }

  ghost predicate WorldOk(plan: Plan, start: Db, n: nat, w: World) {
    StartOrFull(plan, start, n, w.db) && (forall r :: PhaseOk(plan, w, r))
  }

  lemma {:induction false} StartIsExact(plan: Plan, start: Db, n: nat, db: Db, from: nat)
    requires ValidPlan(plan) && Prefix(plan, start, n) && StartOrFull(plan, start, n, db)
    requires Prefix(plan, db, from) && from < |plan|
    ensures db == start && from == n
  {
    if db != start { FullIsCurrent(plan, db.tables); }
  }

  lemma {:induction false} OwnPhase(plan: Plan, start: Db, n: nat, w: World, t: World, r: nat)
    requires WorldOk(plan, start, n, w) && r in w.runners
    requires StartOrFull(plan, start, n, t.db) && PhaseOk(plan, t, r)
    requires r in t.runners && t.runners == w.runners[r := t.runners[r]]
    requires t.db == w.db || (Full(plan, t.db.tables) && w.holder == Some(r))
    requires t.holder == w.holder || w.holder == Some(r) || w.holder.None?
    ensures WorldOk(plan, start, n, t)
  {
    forall q ensures PhaseOk(plan, t, q) {
      if q != r { assert PhaseOk(plan, w, q); }
    }
  }

  lemma {:induction false} WorldStep(plan: Plan, start: Db, n: nat, w: World, step: Step)
    requires ValidPlan(plan) && Prefix(plan, start, n) && WorldOk(plan, start, n, w)
    ensures WorldOk(plan, start, n, Next(w, plan, step))
  {
    hide Full, ReadHistory, Verify, InsertLedger, Prefix, StartOrFull;
    var t := Next(w, plan, step);
    var r := step.r;
    assert PhaseOk(plan, w, r);
    if t != w {
      if step.Arrive? {
        forall q ensures PhaseOk(plan, t, q) {
          assert PhaseOk(plan, w, q);
        }
      } else {
        match step {
          case Read(_) => ReadFacts(plan, start, n, w, r);
          case ApplyBody(_, body) => BodyFacts(plan, w, r, body);
          case WriteLedger(_) => LedgerFacts(plan, w, r);
          case Commit(_) => CommitFacts(plan, start, n, w, r);
          case _ =>
        }
        OwnPhase(plan, start, n, w, t, r);
      }
    }
  }

  lemma {:induction false} ReadFacts(plan: Plan, start: Db, n: nat, w: World, r: nat)
    requires ValidPlan(plan) && r in w.runners && w.runners[r].Locked? && w.holder == Some(r)
    ensures PhaseOk(plan, AfterRead(w, plan, r), r) && AfterRead(w, plan, r).db == w.db
  {
    var h := ReadHistory(w.db.tables, false);
    if h.Some? && Verify(plan, h.value).Ok? {
      AcceptedIsPrefix(plan, h.value);
      if Verify(plan, h.value).value.CurrentAt? {
        CurrentIsFull(plan, w.db.tables);
      } else {
        assert Versions(From(Verify(plan, h.value).value), From(Verify(plan, h.value).value)) == [];
      }
    }
  }

  lemma {:induction false} BodyFacts(plan: Plan, w: World, r: nat, body: Body)
    requires ValidPlan(plan) && r in w.runners && w.runners[r].Applying? && PhaseOk(plan, w, r)
    ensures PhaseOk(plan, AfterBody(w, plan, r, body), r) && AfterBody(w, plan, r, body).db == w.db
  {
    hide Prefix, Full;
    var p := w.runners[r];
    if p.from + p.done < |plan| {
      assert Versions(p.from, p.from + p.done + 1) ==
        Versions(p.from, p.from + p.done) + [plan[p.from + p.done].version];
    }
  }

  lemma {:induction false} LedgerFacts(plan: Plan, w: World, r: nat)
    requires r in w.runners && w.runners[r].Applying? && PhaseOk(plan, w, r)
    ensures PhaseOk(plan, AfterLedger(w, plan, r), r) && AfterLedger(w, plan, r).db == w.db
  {
    hide Prefix, Full, InsertLedger;
  }

  lemma {:induction false} CommitFacts(plan: Plan, start: Db, n: nat, w: World, r: nat)
    requires ValidPlan(plan) && Prefix(plan, start, n) && StartOrFull(plan, start, n, w.db)
    requires r in w.runners && w.runners[r].Ledgered? && PhaseOk(plan, w, r)
    ensures var t := AfterCommit(w, plan, r);
      PhaseOk(plan, t, r) && StartOrFull(plan, start, n, t.db) && (t.db == w.db || Full(plan, t.db.tables))
  {
    var p := w.runners[r];
    StartIsExact(plan, start, n, w.db, p.from);
    var h := ReadHistory(p.tx.tables, true);
    if h.Some? && Verify(plan, h.value).Ok? {
      AcceptedIsPrefix(plan, h.value);
    }
  }

  lemma {:induction false} WorldRun(plan: Plan, start: Db, n: nat, w: World, steps: seq<Step>)
    requires ValidPlan(plan) && Prefix(plan, start, n) && WorldOk(plan, start, n, w)
    ensures WorldOk(plan, start, n, After(w, plan, steps))
    decreases |steps|
  {
    hide WorldOk, Next, Prefix;
    if steps != [] {
      WorldStep(plan, start, n, w, steps[0]);
      WorldRun(plan, start, n, Next(w, plan, steps[0]), steps[1..]);
    }
  }

  function Begin(start: Db): World { World(start, None, map[]) }

  lemma {:induction false} BeginOk(plan: Plan, start: Db, n: nat)
    requires ValidPlan(plan) && Prefix(plan, start, n)
    ensures WorldOk(plan, start, n, Begin(start))
  {
    AcceptedIsPrefix(plan, ReadHistory(start.tables, false).value);
  }

  /** Any number of runners, failing and crashing anywhere: the committed tables are the
      exact prefix they started from or the full plan, the bodies missing from the prefix
      are committed once each and in order, and a runner that succeeded left the full plan. */
  lemma {:induction false} AllOrNothing(plan: Plan, start: Db, n: nat, steps: seq<Step>, r: nat)
    requires ValidPlan(plan) && Prefix(plan, start, n)
    ensures var w := After(Begin(start), plan, steps);
      StartOrFull(plan, start, n, w.db) &&
      (r in w.runners && w.runners[r].Succeeded? ==> Full(plan, w.db.tables))
  {
    hide Prefix, StartOrFull, Full, Next;
    BeginOk(plan, start, n);
    WorldRun(plan, start, n, Begin(start), steps);
    assert PhaseOk(plan, After(Begin(start), plan, steps), r);
  }

  lemma {:induction false} AfterBoth(w: World, plan: Plan, first: seq<Step>, rest: seq<Step>)
    ensures After(w, plan, first + rest) == After(After(w, plan, first), plan, rest)
    decreases |first|
  {
    hide Next;
    if first == [] {
      assert first + rest == rest;
    } else {
      assert (first + rest)[1..] == first[1..] + rest;
      AfterBoth(Next(w, plan, first[0]), plan, first[1..], rest);
    }
  }

  lemma {:induction false} AfterThree(w: World, plan: Plan, a: Step, b: Step, c: Step)
    ensures After(w, plan, [a, b, c]) == Next(Next(Next(w, plan, a), plan, b), plan, c)
  {
    hide Next;
    assert [a, b, c] == [a] + ([b] + [c]);
    AfterBoth(w, plan, [a], [b] + [c]);
    AfterBoth(Next(w, plan, a), plan, [b], [c]);
    AfterOne(w, plan, a);
    AfterOne(Next(w, plan, a), plan, b);
    AfterOne(Next(Next(w, plan, a), plan, b), plan, c);
  }

  lemma {:induction false} AfterOne(w: World, plan: Plan, a: Step)
    ensures After(w, plan, [a]) == Next(w, plan, a)
  {
    hide Next;
    assert [a][1..] == [];
    assert After(Next(w, plan, a), plan, []) == Next(w, plan, a);
  }

  function Bodies(r: nat, bodies: seq<Body>): seq<Step> {
    seq(|bodies|, i requires 0 <= i < |bodies| => ApplyBody(r, bodies[i]))
  }

  lemma {:induction false} BodiesApply(w: World, plan: Plan, r: nat, bodies: seq<Body>)
    requires ValidPlan(plan) && r in w.runners && w.runners[r].Applying? && bodies != []
    requires w.runners[r].from + w.runners[r].done + |bodies| <= |plan|
    requires forall i :: 0 <= i < |bodies| ==> bodies[i].Leaves?
    ensures var p := w.runners[r]; var at := p.from + p.done;
      After(w, plan, Bodies(r, bodies)) ==
        Put(w, r, Applying(p.from, p.done + |bodies|,
                           Db(bodies[|bodies| - 1].tables, p.tx.applied + Versions(at, at + |bodies|))))
    decreases |bodies|
  {
    var p := w.runners[r];
    var at := p.from + p.done;
    var t := Next(w, plan, ApplyBody(r, bodies[0]));
    assert t == Put(w, r, Applying(p.from, p.done + 1, Db(bodies[0].tables, p.tx.applied + [at + 1])));
    assert Bodies(r, bodies)[1..] == Bodies(r, bodies[1..]);
    assert Versions(at, at + |bodies|) == [at + 1] + Versions(at + 1, at + |bodies|);
    if |bodies| > 1 {
      BodiesApply(t, plan, r, bodies[1..]);
      assert p.tx.applied + [at + 1] + Versions(at + 1, at + |bodies|) == p.tx.applied + Versions(at, at + |bodies|);
      var u := Applying(p.from, p.done + |bodies|,
        Db(bodies[|bodies| - 1].tables, p.tx.applied + Versions(at, at + |bodies|)));
      assert Put(t, r, u) == Put(w, r, u);
    } else {
      assert Bodies(r, bodies) == [ApplyBody(r, bodies[0])] && Versions(at, at + |bodies|) == [at + 1];
      AfterOne(w, plan, ApplyBody(r, bodies[0]));
    }
  }

  function Running(r: nat, bodies: seq<Body>): seq<Step> {
    [Arrive(r), Lock(r), Read(r)] + (Bodies(r, bodies) + [WriteLedger(r), Commit(r), Finish(r)])
  }

  /** Whatever has happened before, a runner that gets the lock over an exact prefix, whose
      bodies leave tables that complete to the full plan, succeeds and commits them. */
  lemma {:induction false} RunCommits(w: World, plan: Plan, n: nat, r: nat, bodies: seq<Body>)
    requires ValidPlan(plan) && Prefix(plan, w.db, n) && n < |plan| && w.holder.None? && r !in w.runners
    requires |bodies| == |plan| - n && Target(plan, n, bodies).Some? && Full(plan, Target(plan, n, bodies).value)
    ensures var t := After(w, plan, Running(r, bodies));
      r in t.runners && t.runners[r] == Succeeded(n) && t.holder.None? &&
      t.db == Db(Target(plan, n, bodies).value, w.db.applied + Versions(n, |plan|)) &&
      forall q :: q in w.runners ==> q in t.runners && t.runners[q] == w.runners[q]
  {
    hide ReadHistory, Verify, InsertLedger, After;
    var read := Next(Next(Next(w, plan, Arrive(r)), plan, Lock(r)), plan, Read(r));
    StartsApplying(w, plan, n, r);
    AfterThree(w, plan, Arrive(r), Lock(r), Read(r));
    BodiesApply(read, plan, r, bodies);
    var applied := After(read, plan, Bodies(r, bodies));
    var ends := [WriteLedger(r), Commit(r), Finish(r)];
    AfterBoth(w, plan, [Arrive(r), Lock(r), Read(r)], Bodies(r, bodies) + ends);
    AfterBoth(read, plan, Bodies(r, bodies), ends);
    AfterThree(applied, plan, WriteLedger(r), Commit(r), Finish(r));
  }

  lemma {:induction false} StartsApplying(w: World, plan: Plan, n: nat, r: nat)
    requires ValidPlan(plan) && Prefix(plan, w.db, n) && n < |plan| && w.holder.None? && r !in w.runners
    ensures var t := Next(Next(Next(w, plan, Arrive(r)), plan, Lock(r)), plan, Read(r));
      t.db == w.db && t.holder == Some(r) && t.runners == w.runners[r := Applying(n, 0, w.db)]
  {
    AcceptedIsPrefix(plan, ReadHistory(w.db.tables, false).value);
  }

  /** Over the full plan a runner succeeds and changes nothing. */
  lemma {:induction false} CurrentSucceeds(w: World, plan: Plan, r: nat)
    requires ValidPlan(plan) && Full(plan, w.db.tables) && w.holder.None? && r !in w.runners
    ensures var t := After(w, plan, [Arrive(r), Lock(r), Read(r)] + [Finish(r)]);
      r in t.runners && t.runners[r] == Succeeded(|plan|) && t.db == w.db && t.holder.None?
  {
    FullIsCurrent(plan, w.db.tables);
    AfterBoth(w, plan, [Arrive(r), Lock(r), Read(r)], [Finish(r)]);
    AfterThree(w, plan, Arrive(r), Lock(r), Read(r));
    AfterOne(After(w, plan, [Arrive(r), Lock(r), Read(r)]), plan, Finish(r));
  }

  /** From an empty database every body is committed exactly once, by whoever commits. */
  lemma {:induction false} FreshAppliesEachOnce(plan: Plan, steps: seq<Step>)
    requires ValidPlan(plan)
    ensures var db := After(Begin(Db(Tables(false, false, [], map[]), [])), plan, steps).db;
      db.applied == [] || (Full(plan, db.tables) && db.applied == Versions(0, |plan|))
  {
    var start := Db(Tables(false, false, [], map[]), []);
    AllOrNothing(plan, start, 0, steps, 0);
    assert [] + Versions(0, |plan|) == Versions(0, |plan|);
  }

  predicate Unchanged(w: World, start: Db) {
    w.db == start && forall r :: r in w.runners ==>
      w.runners[r].Waiting? || w.runners[r].Locked? || w.runners[r].Failed?
  }

  /** A history that is no exact prefix of the plan is refused by every runner, unchanged. */
  lemma {:induction false} NonPrefixRefused(plan: Plan, start: Db, w: World, steps: seq<Step>)
    requires ReadHistory(start.tables, false).None? || Verify(plan, ReadHistory(start.tables, false).value).Err?
    requires Unchanged(w, start)
    ensures Unchanged(After(w, plan, steps), start)
    decreases |steps|
  {
    hide ReadHistory, Verify;
    if steps != [] {
      NonPrefixRefused(plan, start, Next(w, plan, steps[0]), steps[1..]);
    }
  }

  // ------------------------------------------------------------- schema check

  function MaxVersion(versions: seq<int>): int {
    if versions == [] then 0 else versions[|versions| - 1]
  }

  /** checksum_match: the full join of the expected rows with the full join of both tables
      has no row with a missing or differing side. */
  ghost predicate ChecksumMatch(plan: Plan, t: Tables) {
    (forall e :: e in plan ==> e.version in t.versions && e.version in t.checksums && t.checksums[e.version] == e) &&
    (forall v: int :: v in t.versions ==> exists e :: e in plan && e.version == v) &&
    (forall v: int :: v in t.checksums ==> exists e :: e in plan && e.version == v)
  }

  /** isExactDeploymentSchema of what DEPLOYMENT_SCHEMA_STATUS_SQL reads. */
  ghost predicate ExactSchema(plan: Plan, t: Tables) {
    t.schemaExists && t.ledgerExists && MaxVersion(t.versions) == |plan| && |t.checksums| == |plan| &&
    ChecksumMatch(plan, t)
  }

  lemma {:induction false} JoinedFacts(versions: seq<int>, checksums: map<int, Entry>)
    ensures |Joined(versions, checksums)| <= |versions|
    ensures |Joined(versions, checksums)| == |versions| ==>
      forall i :: 0 <= i < |versions| ==>
        versions[i] in checksums && Joined(versions, checksums)[i] == checksums[versions[i]]
    ensures (forall i :: 0 <= i < |versions| ==> versions[i] in checksums) ==>
      |Joined(versions, checksums)| == |versions|
  {
    if versions != [] {
      JoinedFacts(versions[..|versions| - 1], checksums);
    }
  }

  lemma {:induction false} FullTables(plan: Plan, t: Tables)
    requires ValidPlan(plan) && PrimaryKeys(t)
    ensures Full(plan, t) <==>
      t.schemaExists && t.ledgerExists && |t.versions| == |plan| && Counts(t.versions) &&
      forall i :: 0 <= i < |plan| ==> t.versions[i] in t.checksums && t.checksums[t.versions[i]] == plan[i]
  {
    JoinedFacts(t.versions, t.checksums);
    if t.schemaExists && t.ledgerExists {
      AcceptedIsPrefix(plan, ReadHistory(t, true).value);
    }
  }

  lemma {:induction false} KeysOf(plan: Plan, checksums: map<int, Entry>)
    requires ValidPlan(plan) && forall v: int :: v in checksums <==> 1 <= v <= |plan|
    ensures |checksums| == |plan|
  {
    UpToIs(|plan|);
    SameSet(checksums.Keys, UpTo(|plan|));
  }

  lemma {:induction false} SameSet(a: set<int>, b: set<int>)
    requires forall v: int :: v in a <==> v in b
    ensures a == b
  {
    forall v | v in a ensures v in b {
    }
    forall v | v in b ensures v in a {
    }
  }

  function UpTo(n: nat): set<int> { if n == 0 then {} else UpTo(n - 1) + {n} }

  lemma {:induction false} UpToIs(n: nat)
    ensures |UpTo(n)| == n && forall v: int :: v in UpTo(n) <==> 1 <= v <= n
  {
    if n > 0 {
      UpToIs(n - 1);
    }
  }

  /** The runner's own target check and the independent SQL check accept the same tables. */
  lemma {:induction false} ChecksAgree(plan: Plan, t: Tables)
    requires ValidPlan(plan) && Lawful(t)
    ensures ExactSchema(plan, t) <==> Full(plan, t)
  {
    hide Full, ExactSchema, PrimaryKeys, NoOrphans;
    AgreeWithoutForeignKey(plan, t);
  }

  /** It is the foreign key that makes them agree: on tables without it they differ exactly
      by checksums of versions that were not applied. */
  lemma {:induction false} AgreeWithoutForeignKey(plan: Plan, t: Tables)
    requires ValidPlan(plan) && PrimaryKeys(t)
    ensures ExactSchema(plan, t) <==> Full(plan, t) && NoOrphans(t)
  {
    FullTables(plan, t);
    hide Full;
    if ExactSchema(plan, t) {
      ExactIsFull(plan, t);
    }
    if Full(plan, t) && NoOrphans(t) {
      FullIsExact(plan, t);
    }
  }

  lemma {:induction false} ExactIsFull(plan: Plan, t: Tables)
    requires ValidPlan(plan) && PrimaryKeys(t) && ExactSchema(plan, t)
    ensures |t.versions| == |plan| && Counts(t.versions) && NoOrphans(t)
    ensures forall i :: 0 <= i < |plan| ==> t.versions[i] in t.checksums && t.checksums[t.versions[i]] == plan[i]
  {
    forall v | v in t.versions ensures 1 <= v <= |plan| {
      var e :| e in plan && e.version == v;
    }
    forall v | 1 <= v <= |plan| ensures v in t.versions {
      assert plan[v - 1] in plan;
    }
    Ascends(t.versions, |plan|);
    forall i | 0 <= i < |plan| ensures t.versions[i] in t.checksums && t.checksums[t.versions[i]] == plan[i] {
      assert plan[i] in plan;
    }
  }

  lemma {:induction false} SomeVersion(versions: seq<int>)
    requires versions != []
    ensures exists v: int :: v in versions
  {
    var first := versions[0];
    assert first in versions;
  }

  /** Strictly ascending versions that are exactly 1..n are 1, 2, ..., n. */
  lemma {:induction false} Ascends(versions: seq<int>, n: nat)
    requires forall i, k :: 0 <= i < k < |versions| ==> versions[i] < versions[k]
    requires forall v: int :: v in versions <==> 1 <= v <= n
    ensures |versions| == n && Counts(versions)
  {
    if n == 0 {
      if versions != [] { SomeVersion(versions); }
    } else {
      assert n in versions;
      var last := |versions| - 1;
      assert versions[last] in versions;
      var at :| 0 <= at < |versions| && versions[at] == n;
      assert at == last;
      var front := versions[..last];
      forall v ensures v in front <==> 1 <= v <= n - 1 {
        if v in front {
          var i :| 0 <= i < last && front[i] == v;
          assert versions[i] < versions[last] && versions[i] in versions;
        }
        if 1 <= v <= n - 1 {
          assert v in versions;
          var i :| 0 <= i < |versions| && versions[i] == v;
          assert front[i] == v;
        }
      }
      Ascends(front, n - 1);
      assert versions == front + [n];
    }
  }

  lemma {:induction false} FullIsExact(plan: Plan, t: Tables)
    requires ValidPlan(plan) && PrimaryKeys(t) && NoOrphans(t)
    requires t.schemaExists && t.ledgerExists && |t.versions| == |plan| && Counts(t.versions)
    requires forall i :: 0 <= i < |plan| ==> t.versions[i] in t.checksums && t.checksums[t.versions[i]] == plan[i]
    ensures ExactSchema(plan, t)
  {
    forall v ensures v in t.checksums <==> 1 <= v <= |plan| {
      if 1 <= v <= |plan| { assert t.versions[v - 1] == v; }
    }
    KeysOf(plan, t.checksums);
    forall v | v in t.versions || v in t.checksums ensures exists e :: e in plan && e.version == v {
      assert 1 <= v <= |plan| && plan[v - 1] in plan;
    }
    forall e | e in plan ensures e.version in t.versions && e.version in t.checksums && t.checksums[e.version] == e {
      var i :| 0 <= i < |plan| && plan[i] == e;
      assert t.versions[i] == e.version;
    }
  }

  // --------------------------------------------------------- what bodies need

  /** The ledger's insert is refused exactly when it has something to insert and the table is
      missing, or a version has a checksum already or was not applied; otherwise it adds the
      checksums of those versions and changes no other. */
  lemma {:induction false} InsertsIff(t: Tables, plan: Plan, n: nat)
    requires ValidPlan(plan) && n <= |plan|
    ensures InsertLedger(t, plan[n..]).Some? <==>
      n == |plan| || (t.ledgerExists && forall v: int :: n < v <= |plan| ==> v !in t.checksums && v in t.versions)
    ensures InsertLedger(t, plan[n..]).Some? ==>
      var u := InsertLedger(t, plan[n..]).value;
      u == t.(checksums := u.checksums) &&
      (forall v: int :: v in u.checksums <==> v in t.checksums || n < v <= |plan|) &&
      (forall v: int :: v in u.checksums ==>
        u.checksums[v] == if n < v <= |plan| then plan[v - 1] else t.checksums[v])
  {
    hide AddAll, ValidPlan;
    PendingVersions(plan, n);
    NoneViolates(t, plan, n);
    AddedFrom(t.checksums, plan, n, |plan|);
    assert plan[n..|plan|] == plan[n..];
  }

  lemma {:induction false} NoneViolates(t: Tables, plan: Plan, n: nat)
    requires ValidPlan(plan) && n <= |plan|
    ensures (exists e :: e in plan[n..] && Violates(t, e)) <==>
      !(forall v: int :: n < v <= |plan| ==> v !in t.checksums && v in t.versions)
  {
    PendingVersions(plan, n);
    if e :| e in plan[n..] && Violates(t, e) {
      assert n < e.version <= |plan|;
    }
    if v: int :| n < v <= |plan| && !(v !in t.checksums && v in t.versions) {
      assert plan[v - 1].version == v && plan[v - 1] in plan[n..];
      assert Violates(t, plan[v - 1]);
    }
  }

  lemma {:induction false} PendingVersions(plan: Plan, n: nat)
    requires ValidPlan(plan) && n <= |plan|
    ensures plan[n..] == [] <==> n == |plan|
    ensures forall e :: e in plan[n..] ==> n < e.version <= |plan|
    ensures forall i :: n <= i < |plan| ==> plan[i] in plan[n..] && plan[i].version == i + 1
  {
    forall i | n <= i < |plan| ensures plan[i] in plan[n..] {
      assert plan[n..][i - n] == plan[i];
    }
  }

  lemma {:induction false} AddedFrom(checksums: map<int, Entry>, plan: Plan, n: nat, m: nat)
    requires ValidPlan(plan) && n <= m <= |plan|
    ensures var u := AddAll(checksums, plan[n..m]);
      (forall v: int :: v in u <==> v in checksums || n < v <= m) &&
      (forall v: int :: v in u ==> u[v] == if n < v <= m then plan[v - 1] else checksums[v])
    decreases m
  {
    if n < m {
      AddedFrom(checksums, plan, n, m - 1);
      assert plan[n..m][..m - n - 1] == plan[n..m - 1];
    }
  }

  /** The tables as migration bodies leave them: all versions applied, and the checksums still
      those of the first n. */
  ghost predicate BodiesDone(plan: Plan, n: nat, t: Tables) {
    n <= |plan| && t.schemaExists && t.ledgerExists && t.versions == Versions(0, |plan|) &&
    (forall v: int :: v in t.checksums <==> 1 <= v <= n) &&
    forall i :: 0 <= i < n ==> t.checksums[i + 1] == plan[i]
  }

  /** Bodies that do what they are for are enough: their tables complete to the full plan, so
      a run over a prefix in which no statement fails commits it. */
  lemma {:induction false} BodiesSuffice(plan: Plan, d: Db, n: nat, fate: Fate)
    requires ValidPlan(plan) && Prefix(plan, d, n) && n < |plan| && |plan| - n <= |fate.bodies|
    requires forall i :: 0 <= i < |plan| - n ==> fate.bodies[i].Leaves?
    requires BodiesDone(plan, n, fate.bodies[|plan| - n - 1].tables)
    requires fate.lockOk && fate.readOk && fate.beginOk && fate.grantOk && fate.commitOk
    ensures Goes(plan, d, n, fate)
  {
    hide Full, InsertLedger, Prefix, BodiesDone;
    InsertCompletes(plan, n, fate.bodies[|plan| - n - 1].tables);
  }

  lemma {:induction false} InsertCompletes(plan: Plan, n: nat, t: Tables)
    requires ValidPlan(plan) && BodiesDone(plan, n, t) && n < |plan|
    ensures InsertLedger(t, plan[n..]).Some? && Full(plan, InsertLedger(t, plan[n..]).value)
  {
    hide InsertLedger, Full;
    forall v: int | n < v <= |plan| ensures v in t.versions {
      assert t.versions[v - 1] == v;
    }
    InsertsIff(t, plan, n);
    var u := InsertLedger(t, plan[n..]).value;
    forall v: int | v in u.checksums ensures 1 <= v <= |plan| && u.checksums[v] == plan[v - 1] {
      if v <= n { assert t.checksums[v - 1 + 1] == plan[v - 1]; }
    }
    FullTables(plan, u);
  }

  /** A runner that fails or dies, wherever it is, leaves the committed tables and lets go of
      the lock, so that the next one can run. */
  lemma {:induction false} DeathFreesLock(plan: Plan, start: Db, n: nat, steps: seq<Step>, r: nat)
    requires ValidPlan(plan) && Prefix(plan, start, n)
    requires var w := After(Begin(start), plan, steps);
      r in w.runners && !w.runners[r].Succeeded? && !w.runners[r].Failed?
    ensures var w := After(Begin(start), plan, steps); var t := Next(w, plan, Die(r));
      t.db == w.db && t.runners[r].Failed? && (Working(w.runners[r]) ==> t.holder.None?) &&
      (!Working(w.runners[r]) ==> t.holder == w.holder)
  {
    hide Prefix, StartOrFull, Full, Next;
    BeginOk(plan, start, n);
    WorldRun(plan, start, n, Begin(start), steps);
    var w := After(Begin(start), plan, steps);
    WaitingHoldsNothing(plan, start, steps, r);
    assert PhaseOk(plan, w, r);
    Dies(w, plan, r);
  }

  lemma {:induction false} Dies(w: World, plan: Plan, r: nat)
    requires r in w.runners && !w.runners[r].Succeeded? && !w.runners[r].Failed?
    ensures Next(w, plan, Die(r)) == Drop(w, r)
  {
  }

  predicate IdleWaiters(w: World) {
    w.holder.Some? ==> w.holder.value in w.runners && Working(w.runners[w.holder.value])
  }

  lemma {:induction false} WaitingHoldsNothing(plan: Plan, start: Db, steps: seq<Step>, r: nat)
    ensures IdleWaiters(After(Begin(start), plan, steps))
  {
    IdleRun(Begin(start), plan, steps);
  }

  lemma {:induction false} IdleRun(w: World, plan: Plan, steps: seq<Step>)
    requires IdleWaiters(w)
    ensures IdleWaiters(After(w, plan, steps))
    decreases |steps|
  {
    hide ReadHistory, Verify, InsertLedger;
    if steps != [] {
      IdleRun(Next(w, plan, steps[0]), plan, steps[1..]);
    }
  }

  // ------------------------------------------------------- accepted after success

  /** What the database lets a body leave: tables that satisfy their declared keys. */
  ghost predicate KeysHold(step: Step) {
    step.ApplyBody? && step.body.Leaves? ==> Lawful(step.body.tables)
  }

  ghost predicate LawfulWorld(w: World) {
    Lawful(w.db.tables) &&
    forall r :: r in w.runners ==>
      match w.runners[r]
      case Applying(_, _, tx) => Lawful(tx.tables)
      case Ledgered(_, tx) => Lawful(tx.tables)
      case _ => true
  }

  lemma {:induction false} AddAllFacts(checksums: map<int, Entry>, pending: seq<Entry>)
    ensures forall v: int :: v in AddAll(checksums, pending) ==>
      (v in checksums && AddAll(checksums, pending)[v] == checksums[v]) ||
      exists e :: e in pending && e.version == v && AddAll(checksums, pending)[v] == e
  {
    if pending != [] {
      var front, last := pending[..|pending| - 1], pending[|pending| - 1];
      AddAllFacts(checksums, front);
      assert last in pending;
      forall v: int | v in AddAll(checksums, pending)
        ensures (v in checksums && AddAll(checksums, pending)[v] == checksums[v]) ||
          exists e :: e in pending && e.version == v && AddAll(checksums, pending)[v] == e
      {
        if v != last.version && !(v in checksums && AddAll(checksums, front)[v] == checksums[v]) {
          var e :| e in front && e.version == v && AddAll(checksums, front)[v] == e;
          assert e in pending;
        }
      }
    }
  }

  /** The ledger's insert keeps the declared keys. */
  lemma {:induction false} InsertKeepsKeys(t: Tables, pending: seq<Entry>)
    requires Lawful(t) && InsertLedger(t, pending).Some?
    ensures Lawful(InsertLedger(t, pending).value)
  {
    AddAllFacts(t.checksums, pending);
    hide AddAll;
    assert forall e :: e in pending ==> e.version in t.versions;
  }

  lemma {:induction false} LawfulStep(plan: Plan, w: World, step: Step)
    requires LawfulWorld(w) && KeysHold(step)
    ensures LawfulWorld(Next(w, plan, step))
  {
    hide Lawful, ReadHistory, Verify, InsertLedger;
    var r := step.r;
    if step.WriteLedger? && r in w.runners && w.runners[r].Applying? && w.runners[r].from <= |plan| {
      var p := w.runners[r];
      if InsertLedger(p.tx.tables, plan[p.from..]).Some? { InsertKeepsKeys(p.tx.tables, plan[p.from..]); }
    }
  }

  lemma {:induction false} LawfulRun(plan: Plan, w: World, steps: seq<Step>)
    requires LawfulWorld(w) && forall i :: 0 <= i < |steps| ==> KeysHold(steps[i])
    ensures LawfulWorld(After(w, plan, steps))
    decreases |steps|
  {
    hide LawfulWorld, Next, KeysHold;
    if steps != [] {
      LawfulStep(plan, w, steps[0]);
      LawfulRun(plan, Next(w, plan, steps[0]), steps[1..]);
    }
  }

  /** After any runner's success the schema is one the service accepts, with any number of
      runners, failures and crashes. */
  lemma {:induction false} SuccessIsAccepted(plan: Plan, start: Db, n: nat, steps: seq<Step>, r: nat)
    requires ValidPlan(plan) && Prefix(plan, start, n) && Lawful(start.tables)
    requires forall i :: 0 <= i < |steps| ==> KeysHold(steps[i])
    requires r in After(Begin(start), plan, steps).runners && After(Begin(start), plan, steps).runners[r].Succeeded?
    ensures ExactSchema(plan, After(Begin(start), plan, steps).db.tables)
  {
    AllOrNothing(plan, start, n, steps, r);
    LawfulRun(plan, Begin(start), steps);
    hide Full, Prefix, Next, StartOrFull, Lawful, ExactSchema, KeysHold;
    ChecksAgree(plan, After(Begin(start), plan, steps).db.tables);
  }
}
