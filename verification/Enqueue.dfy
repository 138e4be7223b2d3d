/**
 Command intents: enqueue, persistCompletedIntent and createSubmission of
 apps/api/src/production-service.ts. Each call is a chain of separate statements, so
 every read may see a different store; between them anything may commit.
*/
module Enqueue {
  import opened Wrappers
  import opened Journal
  import opened CommandQueue
  import opened QueueInvariants
  import opened QueueTheorems

  // ------------------------------------------------------------- jsonb payload

  predicate TextLess(a: string, b: string) {
    if b == [] then false
    else if a == [] then true
    else a[0] < b[0] || (a[0] == b[0] && TextLess(a[1..], b[1..]))
  }

  /** jsonb keeps object keys by length, then by bytes. */
  predicate KeyLess(a: string, b: string) { |a| < |b| || (|a| == |b| && TextLess(a, b)) }

  predicate InOrder(p: Payload) {
    forall i, k :: 0 <= i < k < |p| ==> KeyLess(p[i].key, p[k].key)
  }

  /** A JavaScript object: no key twice. */
  predicate IsObject(p: Payload) {
    forall i, k :: 0 <= i < k < |p| ==> p[i].key != p[k].key
  }

  function Place(f: Field, p: Payload): Payload {
    if p == [] then [f]
    else if KeyLess(f.key, p[0].key) then [f] + p
    else [p[0]] + Place(f, p[1..])
  }

  /** What is read back after a payload was stored. */
  function Stored(p: Payload): Payload {
    if p == [] then [] else Place(p[0], Stored(p[1..]))
  }

  lemma {:induction false} TextTrichotomy(a: string, b: string)
    ensures !TextLess(a, a)
    ensures TextLess(a, b) ==> !TextLess(b, a)
    ensures a == b || TextLess(a, b) || TextLess(b, a)
  {
    if a != [] {
      TextTrichotomy(a[1..], if b == [] then [] else b[1..]);
    }
    if a != [] && b != [] && a[0] == b[0] && a[1..] == b[1..] {
      assert a == [a[0]] + a[1..] && b == [b[0]] + b[1..];
    }
  }

  lemma {:induction false} TextTransitive(a: string, b: string, c: string)
    requires TextLess(a, b) && TextLess(b, c)
    ensures TextLess(a, c)
  {
    if a != [] && a[0] == b[0] && b[0] == c[0] {
      TextTransitive(a[1..], b[1..], c[1..]);
    }
  }

  lemma {:induction false} KeyOrder(a: string, b: string, c: string)
    ensures !KeyLess(a, a)
    ensures KeyLess(a, b) ==> !KeyLess(b, a)
    ensures a == b || KeyLess(a, b) || KeyLess(b, a)
    ensures KeyLess(a, b) && KeyLess(b, c) ==> KeyLess(a, c)
  {
    TextTrichotomy(a, b);
    if TextLess(a, b) && TextLess(b, c) { TextTransitive(a, b, c); }
  }

  lemma {:induction false} PlaceHolds(f: Field, p: Payload)
    ensures multiset(Place(f, p)) == multiset(p) + multiset{f}
    ensures forall x :: x in Place(f, p) ==> x == f || x in p
  {
    hide KeyLess;
    if p != [] {
      assert p == [p[0]] + p[1..];
      PlaceHolds(f, p[1..]);
    }
  }

  lemma {:induction false} FirstInOrder(f: Field, p: Payload)
    requires InOrder(p) && forall i :: 0 <= i < |p| ==> KeyLess(f.key, p[i].key)
    ensures InOrder([f] + p)
  {
    hide KeyLess;
  }

  lemma {:induction false} PlaceSorts(f: Field, p: Payload)
    requires InOrder(p) && forall i :: 0 <= i < |p| ==> p[i].key != f.key
    ensures InOrder(Place(f, p))
  {
    hide KeyLess;
    if p != [] {
      var q := p[1..];
      KeyOrder(f.key, p[0].key, "");
      if KeyLess(f.key, p[0].key) {
        forall i | 0 <= i < |p| ensures KeyLess(f.key, p[i].key) {
          KeyOrder(f.key, p[0].key, p[i].key);
        }
        FirstInOrder(f, p);
      } else {
        PlaceSorts(f, q);
        PlaceHolds(f, q);
        forall i | 0 <= i < |Place(f, q)| ensures KeyLess(p[0].key, Place(f, q)[i].key) {
          assert Place(f, q)[i] == f || Place(f, q)[i] in q;
        }
        FirstInOrder(p[0], Place(f, q));
      }
    }
  }

  /** The stored form holds the same fields, in the one order jsonb keeps. */
  lemma {:induction false} StoredSorts(p: Payload)
    requires IsObject(p)
    ensures InOrder(Stored(p)) && multiset(Stored(p)) == multiset(p)
  {
    if p != [] {
      StoredSorts(p[1..]);
      assert p == [p[0]] + p[1..];
      forall i | 0 <= i < |Stored(p[1..])| ensures Stored(p[1..])[i].key != p[0].key {
        assert Stored(p[1..])[i] in multiset(p[1..]);
      }
      PlaceSorts(p[0], Stored(p[1..]));
      PlaceHolds(p[0], Stored(p[1..]));
    }
  }

  lemma {:induction false} SortedIsStored(p: Payload)
    requires InOrder(p)
    ensures Stored(p) == p
  {
    if p != [] {
      SortedIsStored(p[1..]);
      assert p == [p[0]] + p[1..];
    }
  }

  /** A payload survives storage unchanged exactly when its keys are in jsonb's order. */
  lemma {:induction false} StoredUnchanged(p: Payload)
    requires IsObject(p)
    ensures Stored(p) == p <==> InOrder(p)
  {
    StoredSorts(p);
    if InOrder(p) { SortedIsStored(p); }
  }

  // ------------------------------------------------------------------- enqueue

  datatype Intent = Intent(projectId: Id, runId: Id, key: string, kind: Kind, payload: Payload)

  datatype Denial =
    | RunNotFound | ModeMismatch | IntentConflict | ConsumerNotReady | RunTerminal | PreflightNotReady
    | SubmissionTaken | DatabaseError

  /** The command id is absent where the service would answer with an empty string. */
  datatype Answer = Accepted(commandId: Option<Id>) | Denied(why: Denial)

  /** The stores seen by the reads of one call, in the order of the statements; the
      insert runs between `prior` and `raced`. */
  datatype Reads = Reads(owned: Store, intent: Store, prior: Store, raced: Store, accepted: Store)

  predicate ForKey(s: Store, c: Id, projectId: Id, key: string) {
    c in s.commands && s.commands[c].projectId == projectId && s.commands[c].key == key
  }

  /** findCommandIntent */
  ghost function FindIntent(s: Store, projectId: Id, key: string): Option<Id> {
    if HasIntent(s, projectId, key) then
      var c :| c in s.commands && s.commands[c].projectId == projectId && s.commands[c].key == key;
      Some(c)
    else None
  }

  /** sameIntent: the serialised payloads are compared, so the order of their keys counts. */
  predicate SameIntent(row: CommandRow, i: Intent) {
    row.runId == i.runId && row.kind == i.kind && row.payload == i.payload
  }

  function ExpectedMode(kind: Kind): Option<Mode> {
    match kind
    case SubmitRelayer => Some(Relayer)
    case AttachWallet => Some(Wallet)
    case ApplyReplay => Some(Replay)
    case _ => None
  }

  predicate IsTerminal(run: RunRow) { run.projection.Some? && run.projection.value.terminal }

  predicate StageCompleted(run: RunRow, stage: nat) {
    run.projection.Some? && stage < |run.projection.value.stages| && run.projection.value.stages[stage] == Completed
  }

  /** The checks on the run that was read first. */
  function RunDenial(run: RunRow, kind: Kind): Option<Denial> {
    if Auxiliary(kind) then
      if !IsTerminal(run) || !StageCompleted(run, 5) then Some(ConsumerNotReady) else None
    else if IsTerminal(run) then Some(RunTerminal)
    else if ExpectedMode(kind).Some? && !StageCompleted(run, 0) then Some(PreflightNotReady)
    else None
  }

  function NewIntentRow(i: Intent, status: CommandStatus, clock: int): CommandRow {
    CommandRow(i.projectId, i.runId, i.key, i.kind, Stored(i.payload), status, 0, clock, None, None)
  }

  ghost function Replayed(s: Store, c: Id, i: Intent): Answer
    requires c in s.commands
  {
    if SameIntent(s.commands[c], i) then Accepted(Some(c)) else Denied(IntentConflict)
  }

  /** The insert and the reads after it. */
  ghost function InsertIntent(s: Store, views: Reads, i: Intent, id: Id, clock: int): (Store, Answer) {
    match InsertCommand(s, id, NewIntentRow(i, Queued, clock))
    case Err(_) =>
      (s, Denied(if ExpectedMode(i.kind).Some? &&
        HasSubmission(views.raced, i.runId) then SubmissionTaken else DatabaseError))
    case Ok(t) =>
      if !HasIntent(s, i.projectId, i.key) then (t, Accepted(Some(id)))
      else
        var raced := FindIntent(views.raced, i.projectId, i.key);
        if raced.None? || raced.value !in views.raced.commands || !SameIntent(views.raced.commands[raced.value], i)
        then (t, Denied(IntentConflict))
        else (t, Accepted(FindIntent(views.accepted, i.projectId, i.key)))
  }

  ghost function EnqueueCall(s: Store, views: Reads, i: Intent, id: Id, clock: int): (Store, Answer) {
    if i.runId !in views.owned.runs || views.owned.runs[i.runId].projectId != i.projectId then (s, Denied(RunNotFound))
    else
      var run := views.owned.runs[i.runId];
      if ExpectedMode(i.kind).Some? && run.mode != ExpectedMode(i.kind).value then (s, Denied(ModeMismatch))
      else
        var existing := FindIntent(views.intent, i.projectId, i.key);
        if existing.Some? && existing.value in views.intent.commands then (s, Replayed(views.intent, existing.value, i))
        else if RunDenial(run, i.kind).Some? then (s, Denied(RunDenial(run, i.kind).value))
        else if ExpectedMode(i.kind).Some? && HasSubmission(views.prior, i.runId) then (s, Denied(SubmissionTaken))
        else InsertIntent(s, views, i, id, clock)
  }

  /** What one call's reads can be: each later store evolved from the one before, with
      the call's own insert in between. */
  ghost predicate Consistent(s: Store, views: Reads, after: Store) {
    Evolves(views.owned, views.intent) && Evolves(views.intent, views.prior) && Evolves(views.prior, s) &&
    Evolves(after, views.raced) && Evolves(views.raced, views.accepted) &&
    KeysUnique(s) && KeysUnique(views.intent) && KeysUnique(views.raced) && KeysUnique(views.accepted)
  }

  lemma {:induction false} FindIs(s: Store, c: Id, projectId: Id, key: string)
    requires KeysUnique(s) && ForKey(s, c, projectId, key)
    ensures FindIntent(s, projectId, key) == Some(c)
  {
    assert HasIntent(s, projectId, key);
    var d :| d in s.commands && s.commands[d].projectId == projectId && s.commands[d].key == key &&
      FindIntent(s, projectId, key) == Some(d);
    assert d == c;
  }

  lemma {:induction false} FoundIs(s: Store, projectId: Id, key: string)
    ensures FindIntent(s, projectId, key).Some? ==> ForKey(s, FindIntent(s, projectId, key).value, projectId, key)
    ensures FindIntent(s, projectId, key).None? ==> !HasIntent(s, projectId, key)
  {
  }

  /** A stored command keeps its key and intent. */
  lemma {:induction false} IntentStays(s: Store, t: Store, c: Id)
    requires Evolves(s, t) && c in s.commands
    ensures c in t.commands && SameIdentity(s.commands[c], t.commands[c])
  {
    assert RowEvolves(s.commands[c], t.commands[c]);
  }

  /** A command stored for exactly this intent. */
  predicate Holds(s: Store, c: Id, i: Intent) {
    ForKey(s, c, i.projectId, i.key) && s.commands[c].runId == i.runId && s.commands[c].kind == i.kind &&
    (s.commands[c].payload == i.payload || s.commands[c].payload == Stored(i.payload))
  }

  /** An accepted call names the one command stored for its project and key, with the
      intent of the call, in every later store; a denied call stored nothing. */
  lemma {:induction false} AcceptedIsStored(s: Store, views: Reads, i: Intent, id: Id, clock: int, later: Store)
    requires var (after, answer) := EnqueueCall(s, views, i, id, clock);
      Consistent(s, views, after) && Evolves(views.accepted, later) && KeysUnique(later)
    ensures var (after, answer) := EnqueueCall(s, views, i, id, clock);
      match answer
      case Accepted(c) => c.Some? && Holds(later, c.value, i) && FindIntent(later, i.projectId, i.key) == c
      case Denied(_) => after == s
  {
    hide Evolves, KeysUnique, FindIntent, InsertIntent, HasSubmission, RunDenial, Stored;
    var (after, answer) := EnqueueCall(s, views, i, id, clock);
    FoundIs(views.intent, i.projectId, i.key);
    if answer.Accepted? {
      if FindIntent(views.intent, i.projectId, i.key).Some? {
        var c := FindIntent(views.intent, i.projectId, i.key).value;
        Onward(s, views, after, later);
        ReplayStays(s, i, views.intent, later, c);
      } else {
        InsertedIsStored(s, views, i, id, clock, later);
      }
    } else {
      DeniedInsert(s, views, i, id, clock);
    }
  }

  lemma {:induction false} Onward(s: Store, views: Reads, after: Store, later: Store)
    requires Consistent(s, views, after) && Evolves(views.accepted, later) && after == s
    ensures Evolves(views.intent, later)
  {
    hide Evolves, KeysUnique;
    EvolvesTransitive(views.intent, views.prior, s);
    EvolvesTransitive(views.intent, s, views.raced);
    EvolvesTransitive(views.intent, views.raced, views.accepted);
    EvolvesTransitive(views.intent, views.accepted, later);
  }

  lemma {:induction false} ReplayStays(s: Store, i: Intent, seen: Store, later: Store, c: Id)
    requires Evolves(seen, later) && KeysUnique(later) && ForKey(seen, c, i.projectId, i.key) &&
      SameIntent(seen.commands[c], i)
    ensures Holds(later, c, i) && FindIntent(later, i.projectId, i.key) == Some(c)
  {
    hide KeysUnique, FindIntent, Stored, Evolves;
    IntentStays(seen, later, c);
    FindIs(later, c, i.projectId, i.key);
  }

  lemma {:induction false} DeniedInsert(s: Store, views: Reads, i: Intent, id: Id, clock: int)
    ensures InsertIntent(s, views, i, id, clock).1.Denied? ==> InsertIntent(s, views, i, id, clock).0 == s
  {
    hide FindIntent, HasSubmission, Stored;
  }

  lemma {:induction false} InsertedIsStored(s: Store, views: Reads, i: Intent, id: Id, clock: int, later: Store)
    requires var (after, answer) := InsertIntent(s, views, i, id, clock);
      answer.Accepted? && Consistent(s, views, after) && Evolves(views.accepted, later) && KeysUnique(later)
    ensures var c := InsertIntent(s, views, i, id, clock).1.commandId;
      c.Some? && Holds(later, c.value, i) && FindIntent(later, i.projectId, i.key) == c
  {
    hide Evolves, KeysUnique, FindIntent, HasSubmission, Stored;
    var (after, answer) := InsertIntent(s, views, i, id, clock);
    EvolvesTransitive(after, views.raced, views.accepted);
    EvolvesTransitive(after, views.accepted, later);
    if !HasIntent(s, i.projectId, i.key) {
      IntentStays(after, later, id);
      FindIs(later, id, i.projectId, i.key);
    } else {
      FoundIs(views.raced, i.projectId, i.key);
      var c := FindIntent(views.raced, i.projectId, i.key).value;
      IntentStays(views.raced, views.accepted, c);
      FindIs(views.accepted, c, i.projectId, i.key);
      EvolvesTransitive(views.raced, views.accepted, later);
      ReplayStays(s, i, views.raced, later, c);
    }
  }

  /** However two calls for one key interleave, if both are accepted they name the same
      command and ask for the same thing. */
  lemma {:induction false} RacingCallsAgree(s: Store, views: Reads, i: Intent, id: Id, clock: int, t: Store,
      others: Reads, j: Intent, other: Id, time: int, later: Store)
    requires var (after, answer) := EnqueueCall(s, views, i, id, clock);
      Consistent(s, views, after) && answer.Accepted? && Evolves(views.accepted, later)
    requires var (after, answer) := EnqueueCall(t, others, j, other, time);
      Consistent(t, others, after) && answer.Accepted? && Evolves(others.accepted, later)
    requires KeysUnique(later) && i.projectId == j.projectId && i.key == j.key
    requires IsObject(i.payload) && IsObject(j.payload)
    ensures EnqueueCall(s, views, i, id, clock).1 == EnqueueCall(t, others, j, other, time).1
    ensures i.runId == j.runId && i.kind == j.kind && multiset(i.payload) == multiset(j.payload)
  {
    hide EnqueueCall, Consistent, Evolves, KeysUnique, FindIntent, IsObject, Stored;
    AcceptedIsStored(s, views, i, id, clock, later);
    AcceptedIsStored(t, others, j, other, time, later);
    StoredSorts(i.payload);
    StoredSorts(j.payload);
  }

  /** Repeating an accepted request: it is accepted again, with the same command,
      exactly when its payload's keys are in jsonb's order. */
  lemma {:induction false} RepeatAccepted(s: Store, views: Reads, i: Intent, id: Id, clock: int, c: Id)
    requires KeysUnique(views.intent) && ForKey(views.intent, c, i.projectId, i.key) && IsObject(i.payload)
    requires views.intent.commands[c].runId == i.runId && views.intent.commands[c].kind == i.kind
    requires views.intent.commands[c].payload == Stored(i.payload)
    requires i.runId in views.owned.runs && views.owned.runs[i.runId].projectId == i.projectId
    requires ExpectedMode(i.kind).Some? ==> views.owned.runs[i.runId].mode == ExpectedMode(i.kind).value
    ensures EnqueueCall(s, views, i, id, clock) ==
      (s, if InOrder(i.payload) then Accepted(Some(c)) else Denied(IntentConflict))
  {
    hide FindIntent, KeysUnique, InOrder, IsObject, Stored;
    FindIs(views.intent, c, i.projectId, i.key);
    StoredUnchanged(i.payload);
  }

  /** One key or none is always in order: attachments, submissions and consumer checks. */
  lemma {:induction false} ShortPayloadInOrder(p: Payload)
    requires |p| <= 1
    ensures IsObject(p) && Stored(p) == p
  {
  }

  /** The request verifyDeployedConsumer sends is not in jsonb's order, so repeating it
      is refused as a conflict with itself. */
  lemma {:induction false} DeployedConsumerRepeatRefused(s: Store, views: Reads, i: Intent, id: Id, clock: int, c: Id,
      version: string, chainId: string, address: string)
    requires i.payload == [Field("version", version), Field("chainId", chainId), Field("address", address)]
    requires i.kind == VerifyDeployed && KeysUnique(views.intent) && ForKey(views.intent, c, i.projectId, i.key)
    requires views.intent.commands[c].runId == i.runId && views.intent.commands[c].kind == i.kind
    requires views.intent.commands[c].payload == Stored(i.payload)
    requires i.runId in views.owned.runs && views.owned.runs[i.runId].projectId == i.projectId
    ensures EnqueueCall(s, views, i, id, clock).1 == Denied(IntentConflict)
  {
    hide EnqueueCall, KeysUnique, InOrder;
    DeployedOutOfOrder(version, chainId, address);
    RepeatAccepted(s, views, i, id, clock, c);
  }

  lemma {:induction false} DeployedOutOfOrder(version: string, chainId: string, address: string)
    ensures !InOrder([Field("version", version), Field("chainId", chainId), Field("address", address)])
  {
    var p := [Field("version", version), Field("chainId", chainId), Field("address", address)];
    assert TextLess("chainId", "version");
    KeyOrder("chainId", "version", "");
    hide KeyLess;
    assert !KeyLess(p[0].key, p[1].key);
  }

  /** Seen from the store, a call is one insert of a new row, or nothing. */
  lemma {:induction false} EnqueueIsInsert(s: Store, views: Reads, i: Intent, id: Id, clock: int)
    ensures var row := NewIntentRow(i, Queued, clock);
      NewRow(row) && Admissible(s, QueueInvariants.Insert(id, row)) &&
      (EnqueueCall(s, views, i, id, clock).0 == s ||
       EnqueueCall(s, views, i, id, clock).0 == Apply(s, QueueInvariants.Insert(id, row)))
  {
    hide FindIntent, HasSubmission, Stored, HasIntent, RunDenial;
  }

  /** A call that nothing interferes with is consistent, and accepted with its own new id
      when the run allows it and neither its key, its id nor the run's submission is taken. */
  lemma {:induction false} QuietCallAccepted(s: Store, i: Intent, id: Id, clock: int)
    requires Inv(s) && i.runId in s.runs && s.runs[i.runId].projectId == i.projectId
    requires ExpectedMode(i.kind).Some? ==> s.runs[i.runId].mode == ExpectedMode(i.kind).value
    requires RunDenial(s.runs[i.runId], i.kind).None? && !HasIntent(s, i.projectId, i.key) && id !in s.commands
    requires ExpectedMode(i.kind).Some? ==> !HasSubmission(s, i.runId)
    ensures var t := Apply(s, QueueInvariants.Insert(id, NewIntentRow(i, Queued, clock)));
      Consistent(s, Reads(s, s, s, t, t), t) &&
      EnqueueCall(s, Reads(s, s, s, t, t), i, id, clock) == (t, Accepted(Some(id)))
  {
    hide Inv, Evolves, RunDenial, HasSubmission, HasIntent, Stored;
    var row := NewIntentRow(i, Queued, clock);
    EnqueueIsInsert(s, Reads(s, s, s, s, s), i, id, clock);
    StepKeeps(s, QueueInvariants.Insert(id, row));
    EvolvesReflexive(s);
    EvolvesReflexive(Apply(s, QueueInvariants.Insert(id, row)));
    KeysOf(s);
    KeysOf(Apply(s, QueueInvariants.Insert(id, row)));
  }

  /** Why a stored run does not take an intent of this kind, by its journal and its mode:
      an auxiliary one waits for the consumer to have passed; any other is too late once the
      run has ended; a submission is of the run's own mode and waits for the preflight. */
  ghost function Objection(run: RunRow, j: seq<Event>, kind: Kind): Option<Denial>
    requires Fold(j).Some?
  {
    if (kind == SubmitRelayer && run.mode != Relayer) || (kind == AttachWallet && run.mode != Wallet) ||
       (kind == ApplyReplay && run.mode != Replay)
    then Some(ModeMismatch)
    else if kind == VerifyDeployed then
      if exists e :: e in j && e.body == Reached(ConsumerVerified(true)) then None else Some(ConsumerNotReady)
    else if exists e :: e in j && Ends(e) then Some(RunTerminal)
    else if kind in {SubmitRelayer, AttachWallet, ApplyReplay} &&
            !exists e :: e in j && e.body.Reached? && e.body.milestone.PreflightAccepted?
    then Some(PreflightNotReady)
    else None
  }

  lemma {:induction false} LastMilestone(j: seq<Event>)
    requires Valid(j) && Fold(j).Some?
    ensures (exists e :: e in j && Ends(e)) <==> Terminal(j)
    ensures (exists e :: e in j && e.body == Reached(ConsumerVerified(true))) <==>
      Last(Fold(j).value.lifecycle).body == Reached(ConsumerVerified(true))
    ensures !Terminal(j) ==>
      ((exists e :: e in j && e.body.Reached? && e.body.milestone.PreflightAccepted?) <==>
       |Fold(j).value.lifecycle| >= 2)
  {
    FoldFacts(j);
    LifecycleOrdered(j);
    var l := Fold(j).value.lifecycle;
    assert InOrderOf(l, j);
    hide Fold, Valid, InOrderOf;
    EndsIn(j);
    PassedIn(l, j);
    if !Terminal(j) { PreflightIn(l, j); }
  }

  /** The lifecycle l of the journal j. */
  ghost predicate InOrderOf(l: seq<Event>, j: seq<Event>) {
    (forall i :: 0 <= i < |l| ==>
      l[i] in j && !IsRecovery(l[i]) && (l[i].body.Reached? ==> Rank(l[i].body.milestone) == i) &&
      (Ends(l[i]) ==> i == |l| - 1)) &&
    forall i :: 0 <= i < |j| && !IsRecovery(j[i]) ==> j[i] in l
  }

  lemma {:induction false} EndsIn(j: seq<Event>)
    ensures (exists e :: e in j && Ends(e)) <==> Terminal(j)
  {
    hide Ends;
    if Terminal(j) {
      var i :| 0 <= i < |j| && Ends(j[i]);
      assert j[i] in j;
    }
  }

  lemma {:induction false} PassedIn(l: seq<Event>, j: seq<Event>)
    requires InOrderOf(l, j) && l != []
    ensures (exists e :: e in j && e.body == Reached(ConsumerVerified(true))) <==>
      Last(l).body == Reached(ConsumerVerified(true))
  {
    if e :| e in j && e.body == Reached(ConsumerVerified(true)) {
      assert !IsRecovery(e) && Ends(e) && e in l;
      var k :| 0 <= k < |l| && l[k] == e;
    }
    assert Last(l) in j;
  }

  lemma {:induction false} PreflightIn(l: seq<Event>, j: seq<Event>)
    requires InOrderOf(l, j) && !Terminal(j)
    ensures (exists e :: e in j && e.body.Reached? && e.body.milestone.PreflightAccepted?) <==> |l| >= 2
  {
    if e :| e in j && e.body.Reached? && e.body.milestone.PreflightAccepted? {
      assert !IsRecovery(e) && e in l;
      var k :| 0 <= k < |l| && l[k] == e;
      assert Rank(l[k].body.milestone) == k;
    }
    if |l| >= 2 {
      var e := l[1];
      var i :| 0 <= i < |j| && j[i] == e;
      assert !Ends(j[i]);
      assert e.body.Reached? && Rank(e.body.milestone) == 1;
    }
  }

  lemma {:induction false} StagesSay(j: seq<Event>)
    requires Valid(j)
    ensures Fold(j).Some? && ProjectRun(j).Some? && |ProjectRun(j).value.stages| == 6
    ensures ProjectRun(j).value.terminal <==> Terminal(j)
    ensures ProjectRun(j).value.terminal && ProjectRun(j).value.stages[5] == Completed <==>
      Last(Fold(j).value.lifecycle).body == Reached(ConsumerVerified(true))
    ensures !Terminal(j) ==> (ProjectRun(j).value.stages[0] == Completed <==> |Fold(j).value.lifecycle| >= 2)
  {
    ProjectionTerminal(j);
    LifecycleOrdered(j);
    hide Fold, Terminal;
  }

  lemma {:induction false} ObjectionIs(run: RunRow, j: seq<Event>, kind: Kind)
    requires Valid(j) && run.projection == ProjectRun(j)
    ensures Fold(j).Some?
    ensures Objection(run, j, kind) ==
      if ExpectedMode(kind).Some? && run.mode != ExpectedMode(kind).value then Some(ModeMismatch)
      else RunDenial(run, kind)
  {
    StagesSay(j);
    LastMilestone(j);
    hide Fold, Valid, Terminal, ProjectRun, Ends;
  }

  /** What a call that nothing interferes with is answered when its key is new, in every
      case: it is stored under its own id, or refused for the first reason that applies. */
  lemma {:induction false} QuietCallAnswered(s: Store, i: Intent, id: Id, clock: int)
    requires Inv(s) && !HasIntent(s, i.projectId, i.key) && id !in s.commands
    requires i.runId in s.runs ==> i.runId in s.events && Fold(s.events[i.runId]).Some?
    ensures var t := Apply(s, QueueInvariants.Insert(id, NewIntentRow(i, Queued, clock)));
      EnqueueCall(s, Reads(s, s, s, t, t), i, id, clock) ==
        if i.runId !in s.runs || s.runs[i.runId].projectId != i.projectId then (s, Denied(RunNotFound))
        else
          var objection := Objection(s.runs[i.runId], s.events[i.runId], i.kind);
          if objection.Some? then (s, Denied(objection.value))
          else if i.kind in {SubmitRelayer, AttachWallet, ApplyReplay} && HasSubmission(s, i.runId)
          then (s, Denied(SubmissionTaken))
          else (t, Accepted(Some(id)))
  {
    hide Inv, Evolves, HasSubmission, HasIntent, Stored, Fold, RunDenial, Objection;
    FoundIs(s, i.projectId, i.key);
    NotFound(s, i.projectId, i.key);
    if i.runId in s.runs {
      ValidRun(s, i.runId);
      RunProjected(s, i.runId);
      ObjectionIs(s.runs[i.runId], s.events[i.runId], i.kind);
      SubmissionKinds(i.kind);
      if s.runs[i.runId].projectId == i.projectId &&
         (ExpectedMode(i.kind).Some? ==> s.runs[i.runId].mode == ExpectedMode(i.kind).value) &&
         RunDenial(s.runs[i.runId], i.kind).None? && (ExpectedMode(i.kind).Some? ==> !HasSubmission(s, i.runId))
      {
        QuietCallAccepted(s, i, id, clock);
      }
    }
  }

  /** A call whose reads came too early: the run takes the intent, and its key and the run's
      submission were free. */
  ghost predicate Early(views: Reads, i: Intent) {
    i.runId in views.owned.runs && views.owned.runs[i.runId].projectId == i.projectId &&
    (ExpectedMode(i.kind).Some? ==> views.owned.runs[i.runId].mode == ExpectedMode(i.kind).value) &&
    RunDenial(views.owned.runs[i.runId], i.kind).None? && !HasIntent(views.intent, i.projectId, i.key) &&
    (ExpectedMode(i.kind).Some? ==> !HasSubmission(views.prior, i.runId))
  }

  /** When such a call meets a command under its key it stores nothing, and is accepted with
      that command exactly if it is for the same run, kind and payload. */
  lemma {:induction false} RacedCallAnswered(s: Store, views: Reads, i: Intent, id: Id, clock: int, c: Id)
    requires Early(views, i) && Consistent(s, views, s) && ForKey(s, c, i.projectId, i.key) && i.runId in s.runs
    ensures var row := s.commands[c];
      EnqueueCall(s, views, i, id, clock) ==
        (s, if row.runId == i.runId && row.kind == i.kind && row.payload == i.payload
            then Accepted(Some(c)) else Denied(IntentConflict))
  {
    hide Evolves, KeysUnique, HasSubmission, RunDenial, Stored;
    NotFound(views.intent, i.projectId, i.key);
    assert HasIntent(s, i.projectId, i.key);
    IntentStays(s, views.raced, c);
    IntentStays(views.raced, views.accepted, c);
    FindIs(views.raced, c, i.projectId, i.key);
    FindIs(views.accepted, c, i.projectId, i.key);
  }

  /** When it meets a rival submission instead it stores nothing and is told so, unless that
      one was cancelled before the last look. */
  lemma {:induction false} RivalCallAnswered(s: Store, views: Reads, i: Intent, id: Id, clock: int)
    requires Early(views, i) && i.runId in s.runs && !HasIntent(s, i.projectId, i.key)
    requires ExpectedMode(i.kind).Some? && HasSubmission(s, i.runId)
    ensures EnqueueCall(s, views, i, id, clock) ==
      (s, Denied(if HasSubmission(views.raced, i.runId) then SubmissionTaken else DatabaseError))
  {
    hide HasSubmission, RunDenial, Stored, HasIntent;
    NotFound(views.intent, i.projectId, i.key);
  }

  lemma {:induction false} NotFound(s: Store, projectId: Id, key: string)
    requires !HasIntent(s, projectId, key)
    ensures FindIntent(s, projectId, key).None?
  {
  }

  lemma {:induction false} RunProjected(s: Store, r: Id)
    requires Inv(s) && r in s.runs
    ensures r in s.events && s.runs[r].projection == ProjectRun(s.events[r])
  {
    hide CommandOk, KeysUnique, SourceOk, ProjectRun, Valid;
    assert RunOk(r, s.runs[r], s.events[r]);
  }

  lemma {:induction false} SubmissionKinds(kind: Kind)
    ensures ExpectedMode(kind).Some? <==> kind in {SubmitRelayer, AttachWallet, ApplyReplay}
  {
  }

  lemma {:induction false} KeysOf(s: Store)
    requires Inv(s)
    ensures KeysUnique(s)
  {
    hide Journaled, Attributed, CommandsOk;
  }

  /** A run never has two submissions that are not cancelled. */
  lemma {:induction false} OneSubmissionPerRun(actions: seq<Action>, c: Id, d: Id, r: Id)
    requires AllAdmissible(Empty, actions)
    requires c in Run(Empty, actions).commands && d in Run(Empty, actions).commands
    requires var a, b := Run(Empty, actions).commands[c], Run(Empty, actions).commands[d];
      a.runId == b.runId == r && a.status != Cancelled && b.status != Cancelled &&
      a.kind in {AttachWallet, SubmitRelayer, ApplyReplay} && b.kind in {AttachWallet, SubmitRelayer, ApplyReplay}
    ensures c == d
  {
    EmptyKeeps();
    RunKeeps(Empty, actions);
    hide Journaled, Attributed, CommandsOk, Run, AllAdmissible, Evolves;
  }

  // --------------------------------------------------------- completed intents

  datatype Kept = Kept | KeyConflict | NotKept

  /** persistCompletedIntent for a non-empty key. */
  ghost function KeepIntent(seen: Store, s: Store, raced: Store, i: Intent, id: Id, clock: int): (Store, Kept) {
    var existing := FindIntent(seen, i.projectId, i.key);
    if existing.Some? && existing.value in seen.commands then
      (s, if SameIntent(seen.commands[existing.value], i) then Kept else KeyConflict)
    else match InsertCommand(s, id, NewIntentRow(i, Succeeded, clock))
      case Err(_) => (s, NotKept)
      case Ok(t) =>
        if !HasIntent(s, i.projectId, i.key) then (t, Kept)
        else
          var found := FindIntent(raced, i.projectId, i.key);
          (t, if found.Some? && found.value in raced.commands && SameIntent(raced.commands[found.value], i)
              then Kept else KeyConflict)
  }

  /** A kept intent is the stored one of its key from then on. */
  lemma {:induction false} KeptIsStored(seen: Store, s: Store, raced: Store, i: Intent, id: Id, clock: int,
      later: Store)
    requires Evolves(seen, s) && Evolves(KeepIntent(seen, s, raced, i, id, clock).0, raced) && Evolves(raced, later)
    requires KeysUnique(later)
    ensures KeepIntent(seen, s, raced, i, id, clock).1 == Kept ==>
      exists c: Id :: Holds(later, c, i) && FindIntent(later, i.projectId, i.key) == Some(c)
    ensures KeepIntent(seen, s, raced, i, id, clock).1 != Kept ==> KeepIntent(seen, s, raced, i, id, clock).0 == s
  {
    hide Evolves, KeysUnique, FindIntent, HasSubmission, Stored;
    var (after, answer) := KeepIntent(seen, s, raced, i, id, clock);
    FoundIs(seen, i.projectId, i.key);
    FoundIs(raced, i.projectId, i.key);
    EvolvesTransitive(after, raced, later);
    if answer == Kept {
      if FindIntent(seen, i.projectId, i.key).Some? {
        EvolvesTransitive(seen, s, later);
        ReplayStays(s, i, seen, later, FindIntent(seen, i.projectId, i.key).value);
      } else if !HasIntent(s, i.projectId, i.key) {
        IntentStays(after, later, id);
        FindIs(later, id, i.projectId, i.key);
        assert Holds(later, id, i);
      } else {
        ReplayStays(s, i, raced, later, FindIntent(raced, i.projectId, i.key).value);
      }
    }
  }

  /** An intent under a known key is kept exactly if the stored one is for the same run, kind
      and payload, whether it was seen at once or met at the insert. */
  lemma {:induction false} KeptIff(seen: Store, s: Store, raced: Store, i: Intent, id: Id, clock: int, c: Id)
    requires KeysUnique(seen) && KeysUnique(raced) && Evolves(seen, s) && Evolves(s, raced)
    requires ForKey(s, c, i.projectId, i.key) && i.runId in s.runs && KeysUnique(s)
    ensures var row := s.commands[c];
      KeepIntent(seen, s, raced, i, id, clock) ==
        (s, if row.runId == i.runId && row.kind == i.kind && row.payload == i.payload then Kept else KeyConflict)
  {
    hide Evolves, HasSubmission, Stored;
    assert HasIntent(s, i.projectId, i.key);
    IntentStays(s, raced, c);
    FindIs(raced, c, i.projectId, i.key);
    FoundIs(seen, i.projectId, i.key);
    if FindIntent(seen, i.projectId, i.key).Some? {
      var d := FindIntent(seen, i.projectId, i.key).value;
      IntentStays(seen, s, d);
      FindIs(s, c, i.projectId, i.key);
      FindIs(s, d, i.projectId, i.key);
    }
  }

  /** A new one is kept, under its own id, if that is new. */
  lemma {:induction false} NewIsKept(seen: Store, s: Store, raced: Store, i: Intent, id: Id, clock: int)
    requires !HasIntent(seen, i.projectId, i.key) && !HasIntent(s, i.projectId, i.key)
    requires i.runId in s.runs && id !in s.commands && i.kind.DerivedProduct?
    ensures KeepIntent(seen, s, raced, i, id, clock) ==
      (s.(commands := s.commands[id := NewIntentRow(i, Succeeded, clock)]), Kept)
  {
    hide HasIntent, HasSubmission, Stored;
    NotFound(seen, i.projectId, i.key);
  }

  // ------------------------------------------------------------------- service

  class IntentService {
    var store: Store

    constructor (s: Store)
      ensures store == s
    {
      store := s;
    }

    static method SelectIntent(s: Store, projectId: Id, key: string) returns (found: Option<Id>)
      requires KeysUnique(s)
      ensures found == FindIntent(s, projectId, key)
    {
      if HasIntent(s, projectId, key) {
        var c :| c in s.commands && s.commands[c].projectId == projectId && s.commands[c].key == key;
        FindIs(s, c, projectId, key);
        found := Some(c);
      } else {
        found := None;
      }
    }

    method Enqueue(views: Reads, i: Intent, id: Id, clock: int) returns (answer: Answer)
      requires KeysUnique(views.intent) && KeysUnique(views.raced) && KeysUnique(views.accepted)
      modifies this
      ensures (store, answer) == EnqueueCall(old(store), views, i, id, clock)
    {
      if i.runId !in views.owned.runs || views.owned.runs[i.runId].projectId != i.projectId {
        return Denied(RunNotFound);
      }
      var run := views.owned.runs[i.runId];
      var expected := ExpectedMode(i.kind);
      if expected.Some? && run.mode != expected.value { return Denied(ModeMismatch); }
      var existing := SelectIntent(views.intent, i.projectId, i.key);
      if existing.Some? {
        FoundIs(views.intent, i.projectId, i.key);
        if !SameIntent(views.intent.commands[existing.value], i) { return Denied(IntentConflict); }
        return Accepted(existing);
      }
      if RunDenial(run, i.kind).Some? { return Denied(RunDenial(run, i.kind).value); }
      if expected.Some? && HasSubmission(views.prior, i.runId) { return Denied(SubmissionTaken); }
      var inserted := !HasIntent(store, i.projectId, i.key);
      match InsertCommand(store, id, NewIntentRow(i, Queued, clock)) {
        case Err(_) =>
          if expected.Some? && HasSubmission(views.raced, i.runId) { return Denied(SubmissionTaken); }
          return Denied(DatabaseError);
        case Ok(t) => store := t;
      }
      if inserted { return Accepted(Some(id)); }
      var raced := SelectIntent(views.raced, i.projectId, i.key);
      FoundIs(views.raced, i.projectId, i.key);
      if raced.None? || !SameIntent(views.raced.commands[raced.value], i) { return Denied(IntentConflict); }
      var accepted := SelectIntent(views.accepted, i.projectId, i.key);
      answer := Accepted(accepted);
    }
  }
}
