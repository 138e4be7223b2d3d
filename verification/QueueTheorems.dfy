/**
 The promises of the command queue over every run of its transactions, by any
 number of workers and API servers in any order.
*/
module QueueTheorems {
  import opened Wrappers
  import opened Journal
  import opened CommandQueue
  import opened QueueInvariants

  // ---------------------------------------------------------------- evolution

  ghost predicate RowEvolves(a: CommandRow, b: CommandRow) {
    SameIdentity(a, b) && a.attempts <= b.attempts && (!Unfinished(a) ==> b == a)
  }

  predicate SameRun(a: RunRow, b: RunRow) {
    b == a.(lastSequence := b.lastSequence, projection := b.projection)
  }

  /** Nothing stored is lost or rewritten: journals grow at the end, artifact bytes and
      command intents stay, finished commands stay as they are. */
  ghost predicate Evolves(s: Store, t: Store) {
    s.runs.Keys <= t.runs.Keys && s.events.Keys <= t.events.Keys &&
    s.artifacts.Keys <= t.artifacts.Keys && s.commands.Keys <= t.commands.Keys &&
    (forall r :: r in s.runs ==> SameRun(s.runs[r], t.runs[r])) &&
    (forall r :: r in s.events ==> s.events[r] <= t.events[r]) &&
    (forall k :: k in s.artifacts ==> t.artifacts[k] == s.artifacts[k]) &&
    (forall c :: c in s.commands ==> RowEvolves(s.commands[c], t.commands[c]))
  }

  lemma {:induction false} EvolvesTransitive(s: Store, t: Store, u: Store)
    requires Evolves(s, t) && Evolves(t, u)
    ensures Evolves(s, u)
  {
    forall r | r in s.events ensures s.events[r] <= u.events[r] {
      assert s.events[r] <= t.events[r] && t.events[r] <= u.events[r];
    }
  }

  lemma {:induction false} InsertStep(s: Store, id: Id, row: CommandRow)
    requires InsertCommand(s, id, row).Ok?
    ensures Evolves(s, InsertCommand(s, id, row).value)
  {
    InsertShape(s, id, row);
    hide InsertCommand;
  }

  /** Every transaction keeps the invariant and only lets the store evolve. */
  lemma {:induction false} StepKeeps(s: Store, a: Action)
    requires Inv(s) && Admissible(s, a)
    ensures Inv(Apply(s, a)) && Evolves(s, Apply(s, a))
  {
    hide Inv, ClaimTx, RetryTx, CompleteTx, InsertCommand, CreateRunTx;
    if Transaction(s, a).Ok? {
      match a {
        case CreateRun(n) => CreateKeeps(s, n); CreateStep(s, n);
        case Insert(id, row) => InsertKeepsAll(s, id, row); InsertStep(s, id, row);
        case Claim(c, token, now, wall) =>
          ClaimOkIsClaimable(s, c, token, now, wall);
          ClaimFacts(s, c, token, now, wall);
        case Renew(c, token, now, interval) => RenewKeeps(s, c, token, now, interval);
        case Complete(c, token, output, now) => CompleteStep(s, c, token, output, now);
        case Retry(c, token, failure, now, wall) => RetryFacts(s, c, token, failure, now, wall);
      }
    }
  }

  lemma {:induction false} ClaimOkIsClaimable(s: Store, c: Id, token: Id, now: int, wall: int)
    requires ClaimTx(s, c, token, now, wall).Ok?
    ensures c in s.commands && Claimable(s.commands[c], now)
  {
  }

  lemma {:induction false} CreateStep(s: Store, n: NewRun)
    requires CreateRunTx(s, n).Ok? && Inv(s)
    ensures Evolves(s, CreateRunTx(s, n).value)
  {
    hide CommandOk, RunOk, KeysUnique, ProjectRun;
  }

  lemma {:induction false} CompleteStep(s: Store, c: Id, token: Id, output: Output, now: int)
    requires Inv(s) && Admissible(s, Complete(c, token, output, now)) && CompleteTx(s, c, token, output, now).Ok?
    ensures Inv(CompleteTx(s, c, token, output, now).value)
    ensures Evolves(s, CompleteTx(s, c, token, output, now).value)
  {
    hide Inv, CompleteTx, Admissible;
    CompleteFacts(s, c, token, output, now);
  }

  lemma {:induction false} RenewKeeps(s: Store, c: Id, token: Id, now: int, interval: nat)
    requires Inv(s) && RenewTx(s, c, token, now, interval).Ok?
    ensures Inv(RenewTx(s, c, token, now, interval).value)
    ensures Evolves(s, RenewTx(s, c, token, now, interval).value)
  {
    hide InvExcept, Inv, Valid, Fold, Terminal, OwnSources, CommandOk;
    var row := s.commands[c];
    var after := row.(lease := Some(Lease(token, now + interval)));
    LeaseSetup(s, c, token, now, after);
    RenewedRow(s.events[row.runId], c, row, after);
    Restored(s.(commands := s.commands[c := after]), c);
    EvolvesReflexive(s);
  }

  lemma {:induction false} RenewedRow(j: seq<Event>, c: Id, row: CommandRow, after: CommandRow)
    requires CommandOk(c, row, j) && after == row.(lease := after.lease) && after.lease.Some?
    ensures CommandOk(c, after, j)
  {
  }

  /** Every store reached by any run of transactions satisfies the invariant, and every
      earlier store evolves into every later one. */
  lemma {:induction false} RunKeeps(s: Store, actions: seq<Action>)
    requires Inv(s) && AllAdmissible(s, actions)
    ensures Inv(Run(s, actions)) && Evolves(s, Run(s, actions))
    decreases |actions|
  {
    hide Inv, Apply, Admissible;
    if actions == [] {
      EvolvesReflexive(s);
    } else {
      StepKeeps(s, actions[0]);
      RunKeeps(Apply(s, actions[0]), actions[1..]);
      EvolvesTransitive(s, Apply(s, actions[0]), Run(s, actions));
    }
  }

  lemma {:induction false} EvolvesReflexive(s: Store)
    requires Inv(s)
    ensures Evolves(s, s)
  {
    hide CommandOk, RunOk, KeysUnique;
  }

  lemma {:induction false} EmptyKeeps()
    ensures Inv(Empty)
  {
  }

  // ----------------------------------------------------------- whole journals

  /** In every reachable store each journal is numbered 1..n, counted by last_sequence,
      projected by the stored projection, terminal exactly when the projection says so,
      and free of repeated effects. */
  lemma {:induction false} JournalsAreWhole(actions: seq<Action>, r: Id)
    requires AllAdmissible(Empty, actions) && r in Run(Empty, actions).runs
    ensures var s := Run(Empty, actions);
      r in s.events && s.runs[r].lastSequence == |s.events[r]| > 0 &&
      (forall i :: 0 <= i < |s.events[r]| ==> s.events[r][i].sequence == i + 1 && s.events[r][i].runId == r) &&
      s.runs[r].projection == ProjectRun(s.events[r]) && s.runs[r].projection.Some? &&
      (s.runs[r].projection.value.terminal <==> Terminal(s.events[r])) &&
      KeysDistinct(s.events[r])
  {
    EmptyKeeps();
    RunKeeps(Empty, actions);
    var s := Run(Empty, actions);
    hide CommandOk, Run, AllAdmissible, Evolves;
    assert RunOk(r, s.runs[r], s.events[r]);
    FoldFacts(s.events[r]);
    ProjectionTerminal(s.events[r]);
  }

  /** No transaction rewrites a journal: the earlier journal is a prefix of the later. */
  lemma {:induction false} JournalsOnlyGrow(before: seq<Action>, after: seq<Action>, r: Id)
    requires AllAdmissible(Empty, before) && AllAdmissible(Run(Empty, before), after)
    requires r in Run(Empty, before).events
    ensures r in Run(Run(Empty, before), after).events
    ensures Run(Empty, before).events[r] <= Run(Run(Empty, before), after).events[r]
  {
    EmptyKeeps();
    RunKeeps(Empty, before);
    RunKeeps(Run(Empty, before), after);
  }

  // -------------------------------------------------------------- exactly once

  predicate CommitsCompletion(s: Store, a: Action, c: Id) {
    a.Complete? && a.c == c && Transaction(s, a).Ok?
  }

  /** How many completions of c commit along a run. */
  function CompletionCount(s: Store, actions: seq<Action>, c: Id): nat
    decreases |actions|
  {
    if actions == [] then 0
    else (if CommitsCompletion(s, actions[0], c) then 1 else 0) +
         CompletionCount(Apply(s, actions[0]), actions[1..], c)
  }

  /** What one step can do to one stored command. */
  lemma {:induction false} RowStep(s: Store, a: Action, c: Id)
    requires Inv(s) && Admissible(s, a) && c in s.commands
    ensures c in Apply(s, a).commands
    ensures var b := Apply(s, a).commands[c]; var row := s.commands[c];
      b == row ||
      (a.Claim? && a.c == c && Claimable(row, a.now) && Transaction(s, a).Ok? &&
        b == ClaimedRow(row, a.token, a.now)) ||
      (a.Renew? && a.c == c && HoldsLease(s, c, a.token, a.now) &&
        b == row.(lease := Some(Lease(a.token, a.now + a.interval)))) ||
      (a.Complete? && a.c == c && HoldsLease(s, c, a.token, a.now) && b == DoneRow(row)) ||
      (a.Retry? && a.c == c && HoldsLease(s, c, a.token, a.now) && b == RetriedRow(row, a.failure, a.now)) ||
      (a.Retry? && a.c != c && Unfinished(row) && b == row.(status := Cancelled, lease := None))
  {
    hide Inv, ClaimTx, RetryTx, CompleteTx, InsertCommand, CreateRunTx;
    if Transaction(s, a).Ok? {
      match a {
        case CreateRun(n) => CreateStep(s, n); CreateRows(s, n);
        case Insert(id, row) => InsertShape(s, id, row);
        case Claim(d, token, now, wall) =>
          ClaimOkIsClaimable(s, d, token, now, wall);
          ClaimFacts(s, d, token, now, wall);
        case Renew(d, token, now, interval) =>
        case Complete(d, token, output, now) => CompleteFacts(s, d, token, output, now);
        case Retry(d, token, failure, now, wall) => RetryFacts(s, d, token, failure, now, wall);
      }
    }
  }

  lemma {:induction false} CreateRows(s: Store, n: NewRun)
    requires CreateRunTx(s, n).Ok?
    ensures forall c :: c in s.commands ==>
      c in CreateRunTx(s, n).value.commands && CreateRunTx(s, n).value.commands[c] == s.commands[c]
  {
  }

  /** A completion that commits leaves its command succeeded. */
  lemma {:induction false} CompletionSucceeds(s: Store, a: Action, c: Id)
    requires Inv(s) && Admissible(s, a) && CommitsCompletion(s, a, c)
    ensures c in s.commands && s.commands[c].status == Leased && HoldsLease(s, c, a.token, a.now)
    ensures c in Apply(s, a).commands && Apply(s, a).commands[c].status == Succeeded
  {
    CompleteFacts(s, c, a.token, a.output, a.now);
    hide Inv, CompleteTx;
  }

  /** In every interleaving each command's completion commits at most once, and never
      after the command has succeeded, died or been cancelled. */
  lemma {:induction false} CompletesAtMostOnce(s: Store, actions: seq<Action>, c: Id)
    requires Inv(s) && AllAdmissible(s, actions)
    ensures CompletionCount(s, actions, c) <= (if c in s.commands && !Unfinished(s.commands[c]) then 0 else 1)
    decreases |actions|
  {
    hide Inv, Admissible;
    if actions != [] {
      var a := actions[0];
      StepKeeps(s, a);
      CompletesAtMostOnce(Apply(s, a), actions[1..], c);
      if CommitsCompletion(s, a, c) {
        CompletionSucceeds(s, a, c);
      }
      hide Apply, CommitsCompletion;
    }
  }

  lemma {:induction false} RolledBack(s: Store, a: Action)
    requires Apply(s, a) != s
    ensures Transaction(s, a).Ok?
  {
  }

  lemma {:induction false} OtherStatuses(row: CommandRow, token: Id, failure: Failure, now: int)
    ensures ClaimedRow(row, token, now).status == Leased
    ensures RetriedRow(row, failure, now).status != Succeeded
  {
    hide BackoffSeconds;
  }

  /** A command becomes succeeded only in a completion by the holder of its latest,
      unexpired lease. */
  lemma {:induction false} SucceedsOnlyByCompletion(s: Store, a: Action, c: Id)
    requires Inv(s) && Admissible(s, a) && c in s.commands && c in Apply(s, a).commands
    requires s.commands[c].status != Succeeded && Apply(s, a).commands[c].status == Succeeded
    ensures a.Complete? && a.c == c && HoldsLease(s, c, a.token, a.now) && CommitsCompletion(s, a, c)
  {
    hide Inv, Admissible, Transaction, HoldsLease, Claimable, ClaimedRow, RetriedRow, Apply;
    RowStep(s, a, c);
    RolledBack(s, a);
    if a.Claim? { OtherStatuses(s.commands[c], a.token, Failure("", false, false, false, false), a.now); }
    if a.Retry? { OtherStatuses(s.commands[c], a.token, a.failure, a.now); }
  }

  /** No renewal, retry or completion under this token commits at any time. */
  ghost predicate Powerless(s: Store, c: Id, token: Id) {
    (forall now: int, interval: nat :: Apply(s, Renew(c, token, now, interval)) == s) &&
    (forall now: int, failure: Failure, wall: int :: Apply(s, Retry(c, token, failure, now, wall)) == s) &&
    (forall now: int, output: Output :: NewRows(output.next) ==> Apply(s, Complete(c, token, output, now)) == s)
  }

  predicate NewRows(items: seq<NewCommand>) {
    forall n :: n in items ==> NewRow(n.row)
  }

  /** A worker whose lease has passed to another claim can change nothing. */
  lemma {:induction false} StaleHolderIsPowerless(s: Store, actions: seq<Action>, c: Id, token: Id)
    requires Inv(s) && AllAdmissible(s, actions) && c in s.commands
    requires s.commands[c].lease.Some? ==> s.commands[c].lease.value.token != token
    requires forall a :: a in actions && a.Claim? && a.c == c ==> a.token != token
    ensures Powerless(Run(s, actions), c, token)
    decreases |actions|
  {
    hide Inv, Admissible, Apply, Powerless;
    if actions == [] {
      WithoutLease(s, c, token);
    } else {
      StepKeeps(s, actions[0]);
      TokenStep(s, actions[0], c, token);
      StaleHolderIsPowerless(Apply(s, actions[0]), actions[1..], c, token);
    }
  }

  lemma {:induction false} WithoutLease(s: Store, c: Id, token: Id)
    requires c in s.commands && (s.commands[c].lease.Some? ==> s.commands[c].lease.value.token != token)
    ensures Powerless(s, c, token)
  {
    hide CompleteTx, NewRow, BackoffSeconds;
    forall now: int, output: Output | NewRows(output.next)
      ensures Apply(s, Complete(c, token, output, now)) == s
    {
      if CompleteTx(s, c, token, output, now).Ok? {
        CompletionHoldsLease(s, c, token, output, now);
      }
    }
  }

  /** A token reaches a row only through a claim of that row. */
  lemma {:induction false} TokenStep(s: Store, a: Action, c: Id, token: Id)
    requires Inv(s) && Admissible(s, a) && c in s.commands
    requires s.commands[c].lease.Some? ==> s.commands[c].lease.value.token != token
    requires a.Claim? && a.c == c ==> a.token != token
    ensures c in Apply(s, a).commands
    ensures Apply(s, a).commands[c].lease.Some? ==> Apply(s, a).commands[c].lease.value.token != token
  {
    RowStep(s, a, c);
    hide Inv, Admissible, Apply;
  }

  // ------------------------------------------------------------------- leases

  /** Before this end the token holds the row and no claim can take it; from then on it
      holds nothing and any claim can. */
  ghost predicate LeasedUntil(s: Store, c: Id, token: Id, end: int) {
    c in s.commands &&
    forall time: int :: (HoldsLease(s, c, token, time) <==> time < end) &&
      (Claimable(s.commands[c], time) <==> time >= end)
  }

  lemma {:induction false} LeaseIs(s: Store, c: Id, token: Id, end: int)
    requires c in s.commands
    ensures LeasedUntil(s, c, token, end) <==>
      s.commands[c].status == Leased && s.commands[c].lease == Some(Lease(token, end))
  {
    if LeasedUntil(s, c, token, end) {
      assert HoldsLease(s, c, token, end - 1) && !HoldsLease(s, c, token, end);
    }
  }

  /** A claim that commits leases the row for thirty seconds. */
  lemma {:induction false} ClaimLeases(s: Store, c: Id, token: Id, now: int, wall: int)
    requires Inv(s) && ClaimTx(s, c, token, now, wall).Ok?
    ensures LeasedUntil(Apply(s, Claim(c, token, now, wall)), c, token, now + 30_000)
    ensures Apply(s, Claim(c, token, now, wall)).commands[c].attempts == s.commands[c].attempts + 1
  {
    hide Inv, ClaimTx, Blocked;
    ClaimOkIsClaimable(s, c, token, now, wall);
    ClaimFacts(s, c, token, now, wall);
    LeaseIs(Apply(s, Claim(c, token, now, wall)), c, token, now + 30_000);
  }

  /** A renewal by the holder moves the end of its lease to the interval from now. */
  lemma {:induction false} RenewalExtends(s: Store, c: Id, token: Id, now: int, interval: nat)
    requires HoldsLease(s, c, token, now)
    ensures LeasedUntil(Apply(s, Renew(c, token, now, interval)), c, token, now + interval)
    ensures Apply(s, Renew(c, token, now, interval)).commands[c].attempts == s.commands[c].attempts
  {
    LeaseIs(Apply(s, Renew(c, token, now, interval)), c, token, now + interval);
  }

  predicate RenewedBy(a: Action, c: Id, token: Id) { a.Renew? && a.c == c && a.token == token }

  /** When the lease ends after these actions, if each renewal of the holder comes in time. */
  function LeaseEnd(actions: seq<Action>, c: Id, token: Id, end: int): int
    decreases |actions|
  {
    if actions == [] then end
    else LeaseEnd(actions[1..], c, token,
                  if RenewedBy(actions[0], c, token) then actions[0].now + actions[0].interval else end)
  }

  /** The holder works on, and renews before each expiry as the clocks of the claims and
      renewals of this command show it. */
  predicate RenewedInTime(actions: seq<Action>, c: Id, token: Id, end: int)
    decreases |actions|
  {
    actions == [] ||
    (var a := actions[0];
     (a.Claim? && a.c == c ==> a.now < end) && (RenewedBy(a, c, token) ==> a.now < end) &&
     (a.Complete? || a.Retry? ==> a.c != c || a.token != token) &&
     RenewedInTime(actions[1..], c, token, if RenewedBy(a, c, token) then a.now + a.interval else end))
  }

  /** A holder that renews in time is never overtaken by a claim, whatever the others do;
      it loses the command only if a failure of its run cancels it. */
  lemma {:induction false} RenewingHolderKeeps(s: Store, actions: seq<Action>, c: Id, token: Id, end: int)
    requires Inv(s) && AllAdmissible(s, actions) && LeasedUntil(s, c, token, end)
    requires RenewedInTime(actions, c, token, end)
    ensures var t := Run(s, actions);
      c in t.commands &&
      (t.commands[c].status == Cancelled ||
       (LeasedUntil(t, c, token, LeaseEnd(actions, c, token, end)) &&
        t.commands[c].attempts == s.commands[c].attempts))
    decreases |actions|
  {
    hide Inv, Admissible, Apply, LeasedUntil;
    LeasedIsStored(s, c, token, end);
    if actions != [] {
      var a := actions[0];
      var t := Apply(s, a);
      StepKeeps(s, a);
      LeaseStep(s, a, c, token, end);
      if t.commands[c].status == Cancelled {
        RunKeeps(t, actions[1..]);
        KeptFinished(t, Run(t, actions[1..]), c);
      } else {
        RenewingHolderKeeps(t, actions[1..], c, token, if RenewedBy(a, c, token) then a.now + a.interval else end);
      }
    }
  }

  lemma {:induction false} LeasedIsStored(s: Store, c: Id, token: Id, end: int)
    requires LeasedUntil(s, c, token, end)
    ensures c in s.commands
  {
  }

  lemma {:induction false} LeaseStep(s: Store, a: Action, c: Id, token: Id, end: int)
    requires Inv(s) && Admissible(s, a) && LeasedUntil(s, c, token, end)
    requires (a.Claim? && a.c == c ==> a.now < end) && (RenewedBy(a, c, token) ==> a.now < end)
    requires a.Complete? || a.Retry? ==> a.c != c || a.token != token
    ensures var t := Apply(s, a);
      c in t.commands &&
      (t.commands[c].status == Cancelled ||
       (LeasedUntil(t, c, token, if RenewedBy(a, c, token) then a.now + a.interval else end) &&
        t.commands[c].attempts == s.commands[c].attempts))
  {
    hide Inv, Admissible, Apply, LeasedUntil, RetriedRow, ClaimedRow;
    LeasedIsStored(s, c, token, end);
    LeaseIs(s, c, token, end);
    RowStep(s, a, c);
    if RenewedBy(a, c, token) {
      RenewalExtends(s, c, token, a.now, a.interval);
    } else {
      LeaseIs(Apply(s, a), c, token, end);
    }
  }

  /** For the holder a completion commits if and only if its events are accepted and its
      follow-up commands can be inserted; it is never refused as stale. */
  lemma {:induction false} HolderCompletesIff(s: Store, c: Id, token: Id, output: Output, now: int)
    requires HoldsLease(s, c, token, now) && NewRows(output.next)
    ensures CompleteTx(s, c, token, output, now).Ok? <==>
      AppendEvents(s, output.events).Ok? &&
      InsertCommands(InsertArtifacts(AppendEvents(s, output.events).value, output.artifacts), output.next).Ok?
    ensures CompleteTx(s, c, token, output, now) != Err(StaleLease)
    ensures output == Output([], [], []) ==> CompleteTx(s, c, token, output, now).Ok?
  {
    hide AppendEvent, InsertCommand;
    NotStale(s, output.events);
    if AppendEvents(s, output.events).Ok? {
      var t := AppendEvents(s, output.events).value;
      AppendsTouchNoCommand(s, output.events);
      StockOnly(t, output.artifacts);
      var v := InsertArtifacts(t, output.artifacts);
      InsertsNotStale(v, output.next);
      if InsertCommands(v, output.next).Ok? { InsertsKeepRows(v, output.next); }
    }
  }

  lemma {:induction false} NotStale(s: Store, es: seq<Event>)
    ensures AppendEvents(s, es) != Err(StaleLease)
  {
    hide Append, ProjectRun;
    if es != [] {
      NotStale(s, es[..|es| - 1]);
    }
  }

  lemma {:induction false} InsertsNotStale(s: Store, items: seq<NewCommand>)
    ensures InsertCommands(s, items) != Err(StaleLease)
  {
    hide HasIntent, HasSubmission;
    if items != [] {
      InsertsNotStale(s, items[..|items| - 1]);
    }
  }

  // ------------------------------------------------------- whose events appear

  lemma {:induction false} NewEventsFrom(s: Store, es: seq<Event>)
    requires AppendEvents(s, es).Ok?
    ensures var t := AppendEvents(s, es).value;
      forall r :: r in s.events ==>
        r in t.events && s.events[r] <= t.events[r] &&
        (forall i :: |s.events[r]| <= i < |t.events[r]| ==> t.events[r][i] in es)
  {
    hide Append;
    if es != [] {
      NewEventsFrom(s, es[..|es| - 1]);
      NewEventIs(AppendEvents(s, es[..|es| - 1]).value, es[|es| - 1]);
    }
  }

  lemma {:induction false} NewEventIs(s: Store, e: Event)
    requires AppendEvent(s, e).Ok?
    ensures var t := AppendEvent(s, e).value;
      t.events == s.events || (e.runId in s.events && t.events == s.events[e.runId := s.events[e.runId] + [e]])
  {
    hide Append;
  }

  /** The events a step adds to the stored journals: the output of a completion, the
      recovery or failure events of a claim or retry, all attributed to that command. */
  predicate MayAdd(a: Action, e: Event) {
    !a.CreateRun? && !a.Insert? && OwnedBy(e, a.c) && (e.body.Reached? ==> a.Complete?)
  }

  ghost predicate Extends(j: seq<Event>, k: seq<Event>, a: Action) {
    j <= k && forall i :: |j| <= i < |k| ==> MayAdd(a, k[i])
  }

  ghost predicate AddedBy(s: Store, t: Store, a: Action) {
    forall r :: r in s.events ==> r in t.events && Extends(s.events[r], t.events[r], a)
  }

  /** Every event is written by a transaction of the command it is attributed to, and a
      milestone only by that command's completion. */
  lemma {:induction false} StepEvents(s: Store, a: Action)
    requires Inv(s) && Admissible(s, a)
    ensures AddedBy(s, Apply(s, a), a)
  {
    hide Inv, ClaimTx, RetryTx, CompleteTx, InsertCommand, CreateRunTx;
    if Transaction(s, a).Ok? {
      match a {
        case CreateRun(n) => CreateAdds(s, n);
        case Insert(id, row) => InsertShape(s, id, row);
        case Claim(c, token, now, wall) => ClaimAdds(s, a);
        case Renew(c, token, now, interval) =>
        case Complete(c, token, output, now) => CompleteAdds(s, a);
        case Retry(c, token, failure, now, wall) => RetryAdds(s, a);
      }
    }
  }

  lemma {:induction false} CreateAdds(s: Store, n: NewRun)
    requires Inv(s) && CreateRunTx(s, n).Ok?
    ensures forall r :: r in s.events ==>
      r in CreateRunTx(s, n).value.events && CreateRunTx(s, n).value.events[r] == s.events[r]
  {
    hide CommandOk, RunOk, KeysUnique, ProjectRun;
  }

  lemma {:induction false} ClaimAdds(s: Store, a: Action)
    requires a.Claim? && Transaction(s, a).Ok?
    ensures AddedBy(s, Apply(s, a), a)
  {
    hide AppendEvents;
    var row := ClaimedRow(s.commands[a.c], a.token, a.now);
    if row.attempts > 1 && !Auxiliary(row.kind) {
      var es := ClaimEvents(s.events[row.runId], a.c, row.runId, row.kind, row.attempts, a.wall);
      NewEventsFrom(s.(commands := s.commands[a.c := row]), es);
    }
  }

  lemma {:induction false} CompleteAdds(s: Store, a: Action)
    requires a.Complete? && Transaction(s, a).Ok? && Admissible(s, a)
    ensures AddedBy(s, Apply(s, a), a)
  {
    hide AppendEvents, InsertArtifacts, InsertCommands;
    CompletionHoldsLease(s, a.c, a.token, a.output, a.now);
    var t := AppendEvents(s, a.output.events).value;
    NewEventsFrom(s, a.output.events);
    StockOnly(t, a.output.artifacts);
    InsertsKeepEvents(InsertArtifacts(t, a.output.artifacts), a.output.next);
  }

  lemma {:induction false} InsertsKeepEvents(s: Store, items: seq<NewCommand>)
    requires InsertCommands(s, items).Ok?
    ensures InsertCommands(s, items).value.events == s.events
  {
    if items != [] {
      InsertsKeepEvents(s, items[..|items| - 1]);
    }
  }

  lemma {:induction false} RetryAdds(s: Store, a: Action)
    requires a.Retry? && Transaction(s, a).Ok?
    ensures AddedBy(s, Apply(s, a), a)
  {
    hide AppendEvent, RetriedRow, HaltEvent, FailRun, AddedBy;
    var row := RetriedRow(s.commands[a.c], a.failure, a.now);
    var t := s.(commands := s.commands[a.c := row]);
    var u := t;
    if !Auxiliary(row.kind) && a.failure.retryable && row.attempts > 0 {
      var e := HaltEvent(t.events[row.runId], a.c, row, a.failure, a.wall);
      HaltIsOwn(t.events[row.runId], a.c, row, a.failure, a.wall);
      NewEventIs(t, e);
      u := AppendEvent(t, e).value;
      AddsOne(s, u, a, e);
    } else {
      AddsNothing(s, t, a);
    }
    if !Auxiliary(row.kind) && a.failure.terminal {
      FailRunAdds(u, row, a);
      AddsBoth(s, u, FailRun(u, a.c, row, a.failure, a.wall).value, a);
    }
  }

  lemma {:induction false} HaltIsOwn(j: seq<Event>, c: Id, row: CommandRow, failure: Failure, wall: int)
    ensures OwnedBy(HaltEvent(j, c, row, failure, wall), c) && !HaltEvent(j, c, row, failure, wall).body.Reached?
  {
  }

  lemma {:induction false} AddsNothing(s: Store, t: Store, a: Action)
    requires t.events == s.events
    ensures AddedBy(s, t, a)
  {
  }

  lemma {:induction false} AddsOne(s: Store, t: Store, a: Action, e: Event)
    requires !a.CreateRun? && !a.Insert? && OwnedBy(e, a.c) && !e.body.Reached?
    requires t.events == s.events || (e.runId in s.events && t.events == s.events[e.runId := s.events[e.runId] + [e]])
    ensures AddedBy(s, t, a)
  {
  }

  lemma {:induction false} ExtendsBoth(j: seq<Event>, k: seq<Event>, l: seq<Event>, a: Action)
    requires Extends(j, k, a) && Extends(k, l, a)
    ensures Extends(j, l, a)
  {
    forall i | |j| <= i < |l| ensures MayAdd(a, l[i]) {
      if i < |k| { assert l[i] == k[i]; }
    }
  }

  lemma {:induction false} AddsBoth(s: Store, t: Store, u: Store, a: Action)
    requires AddedBy(s, t, a) && AddedBy(t, u, a)
    ensures AddedBy(s, u, a)
  {
    forall r | r in s.events ensures r in u.events && Extends(s.events[r], u.events[r], a) {
      ExtendsBoth(s.events[r], t.events[r], u.events[r], a);
    }
  }

  lemma {:induction false} FailRunAdds(s: Store, row: CommandRow, a: Action)
    requires a.Retry? && FailRun(s, a.c, row, a.failure, a.wall).Ok?
    ensures AddedBy(s, FailRun(s, a.c, row, a.failure, a.wall).value, a)
  {
    hide AppendEvent;
    var run := s.runs[row.runId];
    var e := Event(row.runId, run.lastSequence + 1, Command(a.c), a.wall,
      Failed(FailureStage(row.kind), a.failure.code));
    if !(run.projection.Some? && run.projection.value.terminal) {
      NewEventIs(s, e);
      AddsOne(s, AppendEvent(s, e).value, a, e);
    }
  }

  // ------------------------------------------------------------ recovery trail

  /** While nothing else writes to its run, an unfinished command's recovery events are
      R(1) S(2) R(2) S(3) ..., ending in S(a) when leased at attempt a and in R(a) when
      queued after it, whether each retry was reported or its lease expired. */
  lemma {:induction false} RecoveryTrailIsExact(actions: seq<Action>, c: Id)
    requires AllAdmissible(Empty, actions) && c in Run(Empty, actions).commands
    requires var s := Run(Empty, actions);
      Unfinished(s.commands[c]) && !Auxiliary(s.commands[c].kind) &&
      s.commands[c].runId in s.events && Uninterrupted(s.events[s.commands[c].runId], c)
    ensures var s := Run(Empty, actions); var row := s.commands[c];
      Trail(s.events[row.runId], c) == ExpectedTrail(row.status, row.attempts)
  {
    EmptyKeeps();
    RunKeeps(Empty, actions);
    var s := Run(Empty, actions);
    assert CommandOk(c, s.commands[c], s.events[s.commands[c].runId]);
  }

  /** The expected trail, mark by mark: no two of its marks are equal. */
  lemma {:induction false} LeasedTrailMarks(attempts: nat)
    ensures |LeasedTrail(attempts)| == if attempts <= 1 then 0 else 2 * (attempts - 1)
    ensures forall i :: 0 <= i < |LeasedTrail(attempts)| ==>
      LeasedTrail(attempts)[i] == if i % 2 == 0 then Halted(i / 2 + 1) else ResumedAt(i / 2 + 2)
  {
    if attempts > 1 {
      LeasedTrailMarks(attempts - 1);
    }
  }

  /** On an uninterrupted, live run no claim is blocked: no recovery event is lost. */
  lemma {:induction false} UninterruptedClaimsCommit(s: Store, c: Id, token: Id, now: int, wall: int)
    requires Inv(s) && c in s.commands && Claimable(s.commands[c], now)
    requires var j := s.events[s.commands[c].runId]; Uninterrupted(j, c) && !Terminal(j)
    ensures ClaimTx(s, c, token, now, wall).Ok?
  {
    var row := s.commands[c];
    var j := s.events[row.runId];
    assert CommandOk(c, row, j);
    OwnSourcesOf(j, c, row);
    hide Inv, CommandOk, ClaimTx, Terminal;
    ClaimFacts(s, c, token, now, wall);
    UninterruptedIsFree(j, c, row);
  }

  lemma {:induction false} UninterruptedIsFree(j: seq<Event>, c: Id, row: CommandRow)
    requires CommandOk(c, row, j) && Unfinished(row) && OwnSources(j, c) && Uninterrupted(j, c) && !Terminal(j)
    ensures !Blocked(row, j, c)
  {
    if row.attempts == 1 && !Auxiliary(row.kind) && Latest(j, Command(c)).None? {
      TrailVisible(j, c, row);
      NoRetryKey(j, c);
    }
  }

  lemma {:induction false} NoRetryKey(j: seq<Event>, c: Id)
    requires forall i :: 0 <= i < |j| && OwnedBy(j[i], c) ==> !IsRecovery(j[i])
    ensures !HasKey(j, RetryKey(Command(c), 1))
  {
    forall i | 0 <= i < |j| ensures KeyOf(j[i]) != RetryKey(Command(c), 1) {
      if j[i].source == Command(c) { assert OwnedBy(j[i], c); }
    }
  }

  // ---------------------------------------------------------- blocked commands

  /** On a run that has ended, exactly the commands leased once and not auxiliary are
      blocked: their claim is refused by the append rule and rolls back. */
  lemma {:induction false} EndedRunBlocks(j: seq<Event>, c: Id, row: CommandRow)
    requires Valid(j) && Terminal(j)
    ensures Blocked(row, j, c) <==> row.attempts == 1 && !Auxiliary(row.kind)
  {
    TerminalIsLast(j);
  }

  predicate AfterTime(a: Action, time: int) {
    match a
    case Claim(_, _, now, _) => now >= time
    case Renew(_, _, now, _) => now >= time
    case Complete(_, _, _, now) => now >= time
    case Retry(_, _, _, now, _) => now >= time
    case _ => true
  }

  predicate Abandoned(s: Store, c: Id, time: int) {
    c in s.commands && s.commands[c].runId in s.events &&
    Blocked(s.commands[c], s.events[s.commands[c].runId], c) &&
    (s.commands[c].status == Queued ||
     (s.commands[c].status == Leased && s.commands[c].lease.Some? && s.commands[c].lease.value.expiresAt <= time))
  }

  lemma {:induction false} LatestStaysNone(j: seq<Event>, k: seq<Event>, source: Source)
    requires j <= k && Latest(j, source).None?
    requires forall i :: |j| <= i < |k| ==> !(k[i].source == source && IsRecovery(k[i]))
    ensures Latest(k, source).None?
    decreases |k|
  {
    if |k| > |j| {
      LatestStaysNone(j, Front(k), source);
    } else {
      assert j == k;
    }
  }

  /** Once a command without a live lease is blocked, no later transaction moves it again;
      it can only be cancelled. */
  lemma {:induction false} BlockedStaysBlocked(s: Store, actions: seq<Action>, c: Id, time: int)
    requires Inv(s) && AllAdmissible(s, actions) && Abandoned(s, c, time)
    requires forall a :: a in actions ==> AfterTime(a, time)
    ensures c in Run(s, actions).commands
    ensures var row := s.commands[c];
      Run(s, actions).commands[c] == row || Run(s, actions).commands[c] == row.(status := Cancelled, lease := None)
    decreases |actions|
  {
    hide Inv, Admissible, Apply, Blocked, AfterTime;
    if actions != [] {
      var a := actions[0];
      StepKeeps(s, a);
      BlockedStep(s, a, c, time);
      var t := Apply(s, a);
      if t.commands[c] == s.commands[c] {
        BlockedStaysBlocked(t, actions[1..], c, time);
      } else {
        RunKeeps(t, actions[1..]);
      }
    }
  }

  lemma {:induction false} BlockedStep(s: Store, a: Action, c: Id, time: int)
    requires Inv(s) && Admissible(s, a) && Abandoned(s, c, time) && AfterTime(a, time)
    ensures c in Apply(s, a).commands
    ensures Apply(s, a).commands[c] == s.commands[c] ||
            Apply(s, a).commands[c] == s.commands[c].(status := Cancelled, lease := None)
    ensures Apply(s, a).commands[c] == s.commands[c] ==> Abandoned(Apply(s, a), c, time)
  {
    hide Inv, Admissible, Transaction, Evolves, Blocked;
    RowStep(s, a, c);
    StepEvents(s, a);
    var t := Apply(s, a);
    var row := s.commands[c];
    if !a.CreateRun? && !a.Insert? && a.c == c {
      BlockedIsPowerless(s, a, c, time);
    } else if t.commands[c] == row {
      BlockedJournal(c, row, s.events[row.runId], t.events[row.runId]);
    }
  }

  /** No transaction of a blocked command without a live lease commits. */
  lemma {:induction false} BlockedIsPowerless(s: Store, a: Action, c: Id, time: int)
    requires Inv(s) && Admissible(s, a) && Abandoned(s, c, time) && AfterTime(a, time)
    requires !a.CreateRun? && !a.Insert? && a.c == c
    ensures Apply(s, a) == s
  {
    hide Inv, ClaimTx, CompleteTx, Blocked, BackoffSeconds;
    if Transaction(s, a).Ok? {
      match a {
        case Claim(_, token, now, wall) =>
          ClaimOkIsClaimable(s, c, token, now, wall);
          ClaimFacts(s, c, token, now, wall);
        case Complete(_, token, output, now) => CompletionHoldsLease(s, c, token, output, now);
        case _ =>
      }
    }
  }

  lemma {:induction false} BlockedJournal(c: Id, row: CommandRow, j: seq<Event>, k: seq<Event>)
    requires j <= k && Blocked(row, j, c)
    requires forall i :: |j| <= i < |k| ==> !OwnedBy(k[i], c)
    ensures Blocked(row, k, c)
  {
    LatestStaysNone(j, k, Command(c));
    if Terminal(j) {
      var i :| 0 <= i < |j| && Ends(j[i]);
      assert Ends(k[i]);
    } else {
      var i :| 0 <= i < |j| && KeyOf(j[i]) == RetryKey(Command(c), 1);
      assert KeyOf(k[i]) == RetryKey(Command(c), 1);
    }
  }

  /** A command inserted on a run that has already ended is leased once; when that lease
      expires it is stuck. */
  lemma {:induction false} LateCommandIsStuck(s: Store, id: Id, row: CommandRow, token: Id, now: int, wall: int)
    requires Inv(s) && row.runId in s.runs && Terminal(s.events[row.runId])
    requires NewRow(row) && row.status == Queued && row.availableAt <= now
    requires !Auxiliary(row.kind) && !Submission(row.kind)
    requires id !in s.commands && !HasIntent(s, row.projectId, row.key)
    ensures var t := Run(s, [Insert(id, row), Claim(id, token, now, wall)]);
      t.commands == s.commands[id := ClaimedRow(row, token, now)] && Abandoned(t, id, now + LEASE_MILLISECONDS)
  {
    hide Inv, Terminal, Blocked, Apply, Valid, HasIntent;
    InsertedFresh(s, id, row);
    var u := Apply(s, Insert(id, row));
    FirstClaim(u, id, token, now, wall);
    TwoSteps(s, Insert(id, row), Claim(id, token, now, wall));
    ValidRun(s, row.runId);
    EndedRunBlocks(s.events[row.runId], id, ClaimedRow(row, token, now));
  }

  lemma {:induction false} InsertedFresh(s: Store, id: Id, row: CommandRow)
    requires id !in s.commands && row.runId in s.runs && !Submission(row.kind)
    requires !HasIntent(s, row.projectId, row.key)
    ensures Apply(s, Insert(id, row)) == s.(commands := s.commands[id := row])
  {
    hide HasIntent;
  }

  lemma {:induction false} TwoSteps(s: Store, a: Action, b: Action)
    ensures Run(s, [a, b]) == Apply(Apply(s, a), b)
  {
    hide Apply;
    assert [a, b][1..] == [b] && [b][1..] == [];
    assert Run(Apply(s, a), [b]) == Apply(Apply(s, a), b);
  }

  lemma {:induction false} ValidRun(s: Store, r: Id)
    requires Inv(s) && r in s.runs
    ensures r in s.events && Valid(s.events[r])
  {
    hide CommandOk, KeysUnique, SourceOk, Valid;
    assert RunOk(r, s.runs[r], s.events[r]);
  }

  /** Ended runs with room for such a command are reachable: a run is created, its preflight
      is leased and fails for good. */
  lemma {:induction false} EndedRunReachable(n: NewRun, token: Id, now: int, failure: Failure)
    requires failure.terminal && !failure.retryable && n.availableAt <= now
    ensures var actions := [CreateRun(n), Claim(n.commandId, token, now, now),
      Retry(n.commandId, token, failure, now, now)];
      AllAdmissible(Empty, actions) && n.runId in Run(Empty, actions).runs && n.runId in Run(Empty, actions).events &&
      Terminal(Run(Empty, actions).events[n.runId]) && Run(Empty, actions).commands.Keys == {n.commandId}
  {
    hide Inv, Terminal, CommandOk, ClaimTx, RetryTx, ProjectRun, BackoffSeconds;
    var s := Apply(Empty, CreateRun(n));
    EmptyKeeps();
    StepKeeps(Empty, CreateRun(n));
    CreatedAlone(n);
    var t := Apply(s, Claim(n.commandId, token, now, now));
    FirstClaim(s, n.commandId, token, now, now);
    StepKeeps(s, Claim(n.commandId, token, now, now));
    var u := Apply(t, Retry(n.commandId, token, failure, now, now));
    RetryFacts(t, n.commandId, token, failure, now, now);
    ThreeSteps(Empty, CreateRun(n), Claim(n.commandId, token, now, now), Retry(n.commandId, token, failure, now, now));
  }

  lemma {:induction false} CreatedAlone(n: NewRun)
    ensures var s := Apply(Empty, CreateRun(n));
      s.runs.Keys == {n.runId} && s.commands.Keys == {n.commandId} && s.commands[n.commandId].runId == n.runId &&
      s.commands[n.commandId].status == Queued && s.commands[n.commandId].attempts == 0 &&
      s.commands[n.commandId].availableAt == n.availableAt && s.commands[n.commandId].kind == RunPreflight
  {
    hide ProjectRun;
  }

  lemma {:induction false} FirstClaim(s: Store, c: Id, token: Id, now: int, wall: int)
    requires c in s.commands && s.commands[c].status == Queued && s.commands[c].attempts == 0
    requires s.commands[c].availableAt <= now
    ensures Apply(s, Claim(c, token, now, wall)) ==
      s.(commands := s.commands[c := ClaimedRow(s.commands[c], token, now)])
    ensures HoldsLease(Apply(s, Claim(c, token, now, wall)), c, token, now)
  {
  }

  lemma {:induction false} FirstStep(s: Store, a: seq<Action>)
    requires a != []
    ensures Run(s, a) == Run(Apply(s, a[0]), a[1..])
    ensures AllAdmissible(s, a) <==> Admissible(s, a[0]) && AllAdmissible(Apply(s, a[0]), a[1..])
  {
  }

  lemma {:induction false} ThreeSteps(s: Store, a: Action, b: Action, d: Action)
    ensures Run(s, [a, b, d]) == Apply(Apply(Apply(s, a), b), d)
    ensures AllAdmissible(s, [a, b, d]) <==>
      Admissible(s, a) && Admissible(Apply(s, a), b) && Admissible(Apply(Apply(s, a), b), d)
  {
    hide Apply, Admissible;
    hide Run, AllAdmissible;
    FirstStep(s, [a, b, d]);
    assert [a, b, d][1..] == [b, d];
    FirstStep(Apply(s, a), [b, d]);
    assert [b, d][1..] == [d];
    LastStep(Apply(Apply(s, a), b), d);
  }

  lemma {:induction false} LastStep(s: Store, a: Action)
    ensures Run(s, [a]) == Apply(s, a)
    ensures AllAdmissible(s, [a]) <==> Admissible(s, a)
  {
    hide Apply, Admissible;
    FirstStep(s, [a]);
    assert [a][1..] == [];
    assert Run(Apply(s, a), []) == Apply(s, a);
    assert AllAdmissible(Apply(s, a), []);
  }

  // ------------------------------------------------- runs ended by a completion

  lemma {:induction false} TerminalGrows(j: seq<Event>, k: seq<Event>)
    requires j <= k && Terminal(j)
    ensures Terminal(k)
  {
    var i :| 0 <= i < |j| && Ends(j[i]);
    assert Ends(k[i]);
  }

  /** On an ended run no command but an auxiliary one is leased a second time: if the first
      lease brings no completion, the command is lost. */
  lemma {:induction false} EndedRunLeasesOnce(s: Store, actions: seq<Action>, c: Id)
    requires Inv(s) && AllAdmissible(s, actions) && c in s.commands && !Auxiliary(s.commands[c].kind)
    requires s.commands[c].runId in s.events && Terminal(s.events[s.commands[c].runId])
    requires s.commands[c].attempts <= 1
    ensures c in Run(s, actions).commands && Run(s, actions).commands[c].attempts <= 1
    decreases |actions|
  {
    hide Inv, Admissible, Apply, Terminal;
    if actions != [] {
      var t := Apply(s, actions[0]);
      StepKeeps(s, actions[0]);
      SecondLeaseFails(s, actions[0], c);
      TerminalGrows(s.events[s.commands[c].runId], t.events[s.commands[c].runId]);
      assert RowEvolves(s.commands[c], t.commands[c]);
      EndedRunLeasesOnce(t, actions[1..], c);
    }
  }

  lemma {:induction false} SecondLeaseFails(s: Store, a: Action, c: Id)
    requires Inv(s) && Admissible(s, a) && c in s.commands && !Auxiliary(s.commands[c].kind)
    requires s.commands[c].runId in s.events && Terminal(s.events[s.commands[c].runId])
    requires s.commands[c].attempts <= 1
    ensures c in Apply(s, a).commands && Apply(s, a).commands[c].attempts <= 1
  {
    hide Inv, Admissible, Apply, ClaimTx, Blocked, Terminal, BackoffSeconds, Valid;
    RowStep(s, a, c);
    if a.Claim? && a.c == c && Claimable(s.commands[c], a.now) && s.commands[c].attempts == 1 {
      ClaimFacts(s, c, a.token, a.now, a.wall);
      JournaledRun(s, s.commands[c].runId);
      EndedRunBlocks(s.events[s.commands[c].runId], c, s.commands[c]);
    }
  }

  lemma {:induction false} JournaledRun(s: Store, r: Id)
    requires Inv(s) && r in s.events
    ensures r in s.runs && Valid(s.events[r])
  {
    OneRun(s, r);
    hide Inv, Valid;
  }

  /** A completion that brings the end of its run leaves every other command of the run as
      it was, and blocks those that were leased once and are not auxiliary. */
  lemma {:induction false} EndingCompletionStrands(s: Store, c: Id, token: Id, output: Output, now: int, e: Event,
      d: Id)
    requires Inv(s) && Admissible(s, Complete(c, token, output, now)) && CompleteTx(s, c, token, output, now).Ok?
    requires c in s.commands && e in output.events && Ends(e)
    requires d in s.commands && d != c && s.commands[d].runId == s.commands[c].runId
    ensures var t := CompleteTx(s, c, token, output, now).value; var r := s.commands[c].runId;
      r in t.events && Terminal(t.events[r]) && d in t.commands && t.commands[d] == s.commands[d] &&
      (Blocked(t.commands[d], t.events[r], d) <==> t.commands[d].attempts == 1 && !Auxiliary(t.commands[d].kind))
  {
    hide Inv, CompleteTx, Terminal, Blocked, Valid;
    var t := CompleteTx(s, c, token, output, now).value;
    CompleteFacts(s, c, token, output, now);
    EndingCompletion(s, c, token, output, now, e);
    JournaledRun(t, s.commands[c].runId);
    EndedRunBlocks(t.events[s.commands[c].runId], d, t.commands[d]);
  }

  lemma {:induction false} EndingCompletion(s: Store, c: Id, token: Id, output: Output, now: int, e: Event)
    requires Admissible(s, Complete(c, token, output, now)) && CompleteTx(s, c, token, output, now).Ok?
    requires c in s.commands && e in output.events && Ends(e)
    ensures var t := CompleteTx(s, c, token, output, now).value; var r := s.commands[c].runId;
      r in t.events && Terminal(t.events[r])
  {
    hide CompleteTx, InJournal, Terminal;
    CompletionDelivers(s, c, token, output, now);
    EndInJournal(CompleteTx(s, c, token, output, now).value, e);
  }

  lemma {:induction false} EndInJournal(t: Store, e: Event)
    requires InJournal(t, e) && Ends(e)
    ensures e.runId in t.events && Terminal(t.events[e.runId])
  {
    var i :| 0 <= i < |t.events[e.runId]| && KeyOf(t.events[e.runId][i]) == KeyOf(e) &&
      SameEffect(t.events[e.runId][i], e);
    assert Ends(t.events[e.runId][i]);
  }

  /** A follow-up command of a completion that ends the run, such as the proof bundle's, is
      leased at most once in every continuation. */
  lemma {:induction false} FollowUpIsLeasedOnce(s: Store, c: Id, token: Id, output: Output, now: int, e: Event, d: Id,
      actions: seq<Action>)
    requires Inv(s) && Admissible(s, Complete(c, token, output, now)) && CompleteTx(s, c, token, output, now).Ok?
    requires c in s.commands && e in output.events && Ends(e)
    requires var t := CompleteTx(s, c, token, output, now).value;
      d in t.commands && d !in s.commands && t.commands[d].runId == s.commands[c].runId &&
      !Auxiliary(t.commands[d].kind) && AllAdmissible(t, actions)
    ensures var t := Run(CompleteTx(s, c, token, output, now).value, actions);
      d in t.commands && t.commands[d].attempts <= 1
  {
    hide Inv, CompleteTx, Terminal, Run, AllAdmissible;
    CompleteFacts(s, c, token, output, now);
    EndingCompletion(s, c, token, output, now, e);
    FollowUpsAreNew(s, c, token, output, now);
    EndedRunLeasesOnce(CompleteTx(s, c, token, output, now).value, actions, d);
  }

  lemma {:induction false} FollowUpsAreNew(s: Store, c: Id, token: Id, output: Output, now: int)
    requires CompleteTx(s, c, token, output, now).Ok? && c in s.commands
    requires forall n :: n in output.next ==> NewRow(n.row)
    ensures var t := CompleteTx(s, c, token, output, now).value;
      forall d :: d in t.commands && d !in s.commands ==> NewRow(t.commands[d])
  {
    hide AppendEvents, InsertArtifacts, InsertCommands, NewRow;
    var u := AppendEvents(s, output.events).value;
    AppendsTouchNoCommand(s, output.events);
    StockOnly(u, output.artifacts);
    InsertedNew(InsertArtifacts(u, output.artifacts), output.next);
  }

  lemma {:induction false} InsertedNew(s: Store, items: seq<NewCommand>)
    requires InsertCommands(s, items).Ok? && forall n :: n in items ==> NewRow(n.row)
    ensures var t := InsertCommands(s, items).value;
      forall d :: d in t.commands && d !in s.commands ==> NewRow(t.commands[d])
  {
    hide HasIntent, HasSubmission, NewRow;
    if items != [] {
      InsertedNew(s, items[..|items| - 1]);
      assert items[|items| - 1] in items;
    }
  }

  // ------------------------------------------------------------ head of the line

  /** The row an unscoped claim takes when no row is locked: the first by available_at. */
  predicate TakenFirst(s: Store, c: Id, now: int) {
    c in s.commands && Claimable(s.commands[c], now) &&
    forall d :: d in s.commands && Claimable(s.commands[d], now) ==>
      s.commands[c].availableAt <= s.commands[d].availableAt
  }

  /** No other unfinished command is ordered before this one or with it. */
  predicate AheadOfAll(s: Store, c: Id) {
    c in s.commands &&
    forall d :: d in s.commands && d != c && Unfinished(s.commands[d]) ==>
      s.commands[c].availableAt < s.commands[d].availableAt
  }

  /** Rows inserted from now on become available later than this. */
  predicate InsertsAfter(a: Action, bound: int) {
    match a
    case CreateRun(n) => n.availableAt > bound
    case Insert(_, row) => row.availableAt > bound
    case Complete(_, _, output, _) => forall n :: n in output.next ==> n.row.availableAt > bound
    case _ => true
  }

  lemma {:induction false} InsertedLater(s: Store, items: seq<NewCommand>, bound: int)
    requires InsertCommands(s, items).Ok? && forall n :: n in items ==> n.row.availableAt > bound
    ensures var t := InsertCommands(s, items).value;
      forall d :: d in t.commands && d !in s.commands ==> t.commands[d].availableAt > bound
  {
    hide HasIntent, HasSubmission;
    if items != [] {
      InsertedLater(s, items[..|items| - 1], bound);
    }
  }

  lemma {:induction false} NewRowsLater(s: Store, a: Action, bound: int)
    requires Inv(s) && Admissible(s, a) && InsertsAfter(a, bound)
    ensures var t := Apply(s, a); forall d :: d in t.commands && d !in s.commands ==> t.commands[d].availableAt > bound
  {
    hide Inv, ClaimTx, RetryTx, CompleteTx, InsertCommand, CreateRunTx, BackoffSeconds;
    if Transaction(s, a).Ok? {
      match a {
        case CreateRun(n) => CreatedLater(s, n);
        case Insert(id, row) => InsertShape(s, id, row);
        case Claim(c, token, now, wall) =>
          ClaimOkIsClaimable(s, c, token, now, wall);
          ClaimFacts(s, c, token, now, wall);
        case Renew(c, token, now, interval) =>
        case Complete(c, token, output, now) => CompletedLater(s, c, token, output, now, bound);
        case Retry(c, token, failure, now, wall) => RetryFacts(s, c, token, failure, now, wall);
      }
    }
  }

  lemma {:induction false} CreatedLater(s: Store, n: NewRun)
    requires CreateRunTx(s, n).Ok?
    ensures var t := CreateRunTx(s, n).value;
      forall d :: d in t.commands && d !in s.commands ==> t.commands[d].availableAt == n.availableAt
  {
    hide ProjectRun, HasIntent, HasRun;
  }

  lemma {:induction false} CompletedLater(s: Store, c: Id, token: Id, output: Output, now: int, bound: int)
    requires CompleteTx(s, c, token, output, now).Ok? && InsertsAfter(Complete(c, token, output, now), bound)
    ensures var t := CompleteTx(s, c, token, output, now).value;
      forall d :: d in t.commands && d !in s.commands ==> t.commands[d].availableAt > bound
  {
    hide AppendEvents, InsertArtifacts, InsertCommands;
    var u := AppendEvents(s, output.events).value;
    AppendsTouchNoCommand(s, output.events);
    StockOnly(u, output.artifacts);
    InsertedLater(InsertArtifacts(u, output.artifacts), output.next, bound);
  }

  lemma {:induction false} RetriedLater(row: CommandRow, failure: Failure, now: int)
    ensures Unfinished(RetriedRow(row, failure, now)) ==> RetriedRow(row, failure, now).availableAt > now
  {
    BackoffShape(row.attempts);
  }

  lemma {:induction false} StaysAhead(s: Store, a: Action, c: Id, time: int)
    requires Inv(s) && Admissible(s, a) && Abandoned(s, c, time) && AfterTime(a, time) && AheadOfAll(s, c)
    requires s.commands[c].availableAt <= time && InsertsAfter(a, s.commands[c].availableAt)
    requires c in Apply(s, a).commands && Apply(s, a).commands[c] == s.commands[c]
    ensures AheadOfAll(Apply(s, a), c)
  {
    hide Inv, Admissible, Apply, Abandoned, InsertsAfter, RetriedRow, Transaction;
    NewRowsLater(s, a, s.commands[c].availableAt);
    var t := Apply(s, a);
    forall d | d in t.commands && d != c && Unfinished(t.commands[d])
      ensures s.commands[c].availableAt < t.commands[d].availableAt
    {
      if d in s.commands {
        RowStep(s, a, d);
        if a.Retry? { RetriedLater(s.commands[d], a.failure, a.now); }
      }
    }
  }

  /** A blocked command at the head of the line stays there until it is cancelled. */
  lemma {:induction false} HeadStaysBlocked(s: Store, actions: seq<Action>, c: Id, time: int)
    requires Inv(s) && AllAdmissible(s, actions) && Abandoned(s, c, time) && AheadOfAll(s, c)
    requires s.commands[c].availableAt <= time
    requires forall i :: 0 <= i < |actions| ==>
      AfterTime(actions[i], time) && InsertsAfter(actions[i], s.commands[c].availableAt)
    ensures var t := Run(s, actions);
      Inv(t) && c in t.commands &&
      (t.commands[c].status == Cancelled ||
       (t.commands[c] == s.commands[c] && Abandoned(t, c, time) && AheadOfAll(t, c)))
    decreases |actions|
  {
    hide Inv, Admissible, Apply, Abandoned, AheadOfAll, AfterTime, InsertsAfter, Evolves;
    AbandonedIsStored(s, c, time);
    if actions != [] {
      var a := actions[0];
      StepKeeps(s, a);
      BlockedStep(s, a, c, time);
      var t := Apply(s, a);
      if t.commands[c] == s.commands[c] {
        StaysAhead(s, a, c, time);
        HeadStaysBlocked(t, actions[1..], c, time);
      } else {
        RunKeeps(t, actions[1..]);
        KeptFinished(t, Run(t, actions[1..]), c);
      }
    }
  }

  lemma {:induction false} AbandonedIsStored(s: Store, c: Id, time: int)
    requires Abandoned(s, c, time)
    ensures c in s.commands
  {
  }

  lemma {:induction false} KeptFinished(s: Store, t: Store, c: Id)
    requires Evolves(s, t) && c in s.commands && !Unfinished(s.commands[c])
    ensures c in t.commands && t.commands[c] == s.commands[c]
  {
    assert RowEvolves(s.commands[c], t.commands[c]);
  }

  /** Until a blocked head of the line is cancelled, every unscoped claim that no lock turns
      aside takes it and rolls back: nothing behind it is leased by such claims. */
  lemma {:induction false} HeadOfLineStalls(s: Store, actions: seq<Action>, c: Id, time: int, d: Id, token: Id,
      now: int, wall: int)
    requires Inv(s) && AllAdmissible(s, actions) && Abandoned(s, c, time) && AheadOfAll(s, c)
    requires s.commands[c].availableAt <= time <= now
    requires forall i :: 0 <= i < |actions| ==>
      AfterTime(actions[i], time) && InsertsAfter(actions[i], s.commands[c].availableAt)
    ensures var t := Run(s, actions);
      c in t.commands &&
      (t.commands[c].status != Cancelled && TakenFirst(t, d, now) ==>
        d == c && Apply(t, Claim(d, token, now, wall)) == t)
  {
    hide Inv, Admissible, Apply, AfterTime, InsertsAfter, Blocked, AllAdmissible, Run;
    HeadStaysBlocked(s, actions, c, time);
    var t := Run(s, actions);
    if t.commands[c].status != Cancelled && TakenFirst(t, d, now) {
      HeadIsTaken(t, c, time, d, token, now, wall);
    }
  }

  lemma {:induction false} HeadIsTaken(t: Store, c: Id, time: int, d: Id, token: Id, now: int, wall: int)
    requires Inv(t) && Abandoned(t, c, time) && AheadOfAll(t, c) && t.commands[c].availableAt <= time <= now
    requires TakenFirst(t, d, now)
    ensures d == c && Apply(t, Claim(d, token, now, wall)) == t
  {
    hide Inv, Apply, Blocked;
    assert Claimable(t.commands[c], now);
    assert d == c;
    BlockedIsPowerless(t, Claim(c, token, now, wall), c, time);
  }

  // ------------------------------------------------------ a hidden first retry

  predicate Hides(first: Event, halt: Event, milestone: Event, c: Id) {
    first.sequence == 1 && first.source.Request? && first.body.Reached? && first.body.milestone.RunCreated? &&
    halt.sequence == 2 && halt.source == Command(c) && halt.body.RetryScheduled? && halt.body.attempt == 1 &&
    milestone.sequence == 3 && milestone.source.Command? && milestone.body.Reached? &&
    milestone.body.milestone.PreflightAccepted? && first.runId == halt.runId == milestone.runId
  }

  /** A journal whose first retry is hidden behind another command's milestone. */
  lemma {:induction false} HiddenJournal(first: Event, halt: Event, milestone: Event, c: Id)
    requires Hides(first, halt, milestone, c)
    ensures Append([first], halt) == Ok([first, halt])
    ensures Append([first, halt], milestone) == Ok([first, halt, milestone])
    ensures var j := [first, halt, milestone];
      !Terminal(j) && Latest(j, Command(c)).None? && HasKey(j, RetryKey(Command(c), 1))
  {
    hide Append, Fold, Valid, Terminal, Latest, HasKey;
    HiddenHalt(first, halt, milestone, c);
    HiddenMilestone(first, halt, milestone, c);
    HiddenFacts(first, halt, milestone, c);
  }

  lemma {:induction false} HiddenHalt(first: Event, halt: Event, milestone: Event, c: Id)
    requires Hides(first, halt, milestone, c)
    ensures Append([first], halt) == Ok([first, halt]) && Valid([first, halt])
    ensures Fold([first, halt]).Some? && Fold([first, halt]).value.lifecycle == [first]
  {
    FirstEvent(first);
    assert [first] + [halt] == [first, halt];
    FirstIsLive(first, halt);
    AppendsRecovery([first], halt);
    AppendKeepsValid([first], halt);
    Extend([first], halt);
  }

  lemma {:induction false} FirstIsLive(first: Event, halt: Event)
    requires first.body.Reached? && first.body.milestone.RunCreated? && halt.body.RetryScheduled?
    ensures !Terminal([first]) && !HasKey([first], KeyOf(halt))
  {
  }

  lemma {:induction false} HiddenMilestone(first: Event, halt: Event, milestone: Event, c: Id)
    requires Hides(first, halt, milestone, c) && Valid([first, halt])
    requires Fold([first, halt]).Some? && Fold([first, halt]).value.lifecycle == [first]
    ensures Append([first, halt], milestone) == Ok([first, halt, milestone])
  {
    hide Fold, ProjectRun;
    var j, k := [first, halt], [first, halt, milestone];
    assert j + [milestone] == k;
    assert !Terminal(j);
    Extend(j, milestone);
    Projects(k);
  }

  lemma {:induction false} Projects(j: seq<Event>)
    requires j != [] && Fold(j).Some? && Fold(j).value.lifecycle != []
    ensures ProjectRun(j).Some?
  {
    hide Fold;
  }

  lemma {:induction false} HiddenFacts(first: Event, halt: Event, milestone: Event, c: Id)
    requires Hides(first, halt, milestone, c)
    ensures var j := [first, halt, milestone];
      !Terminal(j) && Latest(j, Command(c)).None? && HasKey(j, RetryKey(Command(c), 1))
  {
    assert KeyOf([first, halt, milestone][1]) == RetryKey(Command(c), 1);
  }

  /** One leased attempt of a command, reported as retryable, on a run that has only been
      created; then the run's preflight completes. */
  function HiddenRetry(n: NewRun, id: Id, row: CommandRow, token: Id, now: int): seq<Action> {
    [CreateRun(n), Insert(id, row), Claim(id, token, now, now), Retry(id, token, ReportedRetry, now, now),
     Claim(n.commandId, token, now, now),
     Complete(n.commandId, token, Output([PreflightMilestone(n, now)], [], []), now)]
  }

  const ReportedRetry := Failure("RETRY", false, false, true, false)

  function PreflightMilestone(n: NewRun, now: int): Event {
    Event(n.runId, 3, Command(n.commandId), now, Reached(PreflightAccepted(0)))
  }

  /** The run is live, and yet no claim of the command will ever commit again. */
  lemma {:induction false} HiddenRetryIsStuck(n: NewRun, id: Id, row: CommandRow, token: Id, now: int)
    requires row.projectId == n.projectId && row.runId == n.runId && row.key != n.key + ":preflight"
    requires NewRow(row) && row.status == Queued && row.availableAt <= now && n.availableAt <= now
    requires !Auxiliary(row.kind) && !Submission(row.kind) && id != n.commandId
    ensures var s := Run(Empty, HiddenRetry(n, id, row, token, now));
      AllAdmissible(Empty, HiddenRetry(n, id, row, token, now)) && n.runId in s.events &&
      !Terminal(s.events[n.runId]) && Abandoned(s, id, now)
  {
    hide Run, AllAdmissible, Inv, Apply, Admissible, Terminal, LeasedBeside, RetriedBeside, Abandoned;
    var a := HiddenRetry(n, id, row, token, now);
    LeasedFirst(n, id, row, token, now);
    var s3 := Apply(Apply(Apply(Empty, a[0]), a[1]), a[2]);
    ThenRetried(s3, n, id, row, token, now);
    var s4 := Apply(s3, a[3]);
    ThenHidden(s4, n, id, row, token, now);
    SixSteps(Empty, a);
  }

  /** After the first three steps: the command leased, the preflight queued. */
  ghost predicate LeasedBeside(s: Store, n: NewRun, id: Id, row: CommandRow, token: Id, now: int) {
    Inv(s) && s.events == map[n.runId := [CreatedEvent(n)]] && PreflightQueued(s, n) &&
    id in s.commands && s.commands[id] == ClaimedRow(row, token, now) && HoldsLease(s, id, token, now)
  }

  predicate PreflightQueued(s: Store, n: NewRun) {
    n.commandId in s.commands && s.commands[n.commandId].runId == n.runId && s.commands[n.commandId].status == Queued &&
    s.commands[n.commandId].attempts == 0 && s.commands[n.commandId].availableAt == n.availableAt
  }

  function FirstHalt(n: NewRun, id: Id, row: CommandRow, token: Id, now: int): Event {
    HaltEvent([CreatedEvent(n)], id, RetriedRow(ClaimedRow(row, token, now), ReportedRetry, now), ReportedRetry, now)
  }

  ghost predicate RetriedBeside(s: Store, n: NewRun, id: Id, row: CommandRow, token: Id, now: int) {
    Inv(s) && s.events == map[n.runId := [CreatedEvent(n), FirstHalt(n, id, row, token, now)]] &&
    PreflightQueued(s, n) &&
    id in s.commands && s.commands[id] == RetriedRow(ClaimedRow(row, token, now), ReportedRetry, now)
  }

  lemma {:induction false} LeasedFirst(n: NewRun, id: Id, row: CommandRow, token: Id, now: int)
    requires row.projectId == n.projectId && row.runId == n.runId && row.key != n.key + ":preflight"
    requires NewRow(row) && row.status == Queued && row.availableAt <= now && !Submission(row.kind) && id != n.commandId
    ensures var a, b, d := CreateRun(n), Insert(id, row), Claim(id, token, now, now);
      Admissible(Empty, a) && Admissible(Apply(Empty, a), b) && Admissible(Apply(Apply(Empty, a), b), d) &&
      LeasedBeside(Apply(Apply(Apply(Empty, a), b), d), n, id, row, token, now)
  {
    hide Inv, Apply, Evolves, ClaimedRow;
    var s1 := Apply(Empty, CreateRun(n));
    CreatedJournal(n);
    EmptyKeeps();
    StepKeeps(Empty, CreateRun(n));
    InsertedBeside(s1, id, row);
    StepKeeps(s1, Insert(id, row));
    var s2 := Apply(s1, Insert(id, row));
    FirstClaim(s2, id, token, now, now);
    StepKeeps(s2, Claim(id, token, now, now));
  }

  lemma {:induction false} HaltHides(n: NewRun, id: Id, row: CommandRow, token: Id, now: int)
    requires row.runId == n.runId && row.attempts == 0
    ensures Hides(CreatedEvent(n), FirstHalt(n, id, row, token, now), PreflightMilestone(n, now), id)
  {
    hide BackoffSeconds;
  }

  lemma {:induction false} ThenRetried(s: Store, n: NewRun, id: Id, row: CommandRow, token: Id, now: int)
    requires LeasedBeside(s, n, id, row, token, now) && row.runId == n.runId && row.attempts == 0
    requires !Auxiliary(row.kind) && id != n.commandId
    ensures Admissible(s, Retry(id, token, ReportedRetry, now, now))
    ensures RetriedBeside(Apply(s, Retry(id, token, ReportedRetry, now, now)), n, id, row, token, now)
  {
    hide Inv, Append, Apply, HaltEvent, RetriedRow, Terminal, Evolves, Hides, Latest, HasKey, HoldsLease, Auxiliary,
      BackoffSeconds;
    HaltHides(n, id, row, token, now);
    HiddenJournal(CreatedEvent(n), FirstHalt(n, id, row, token, now), PreflightMilestone(n, now), id);
    assert [CreatedEvent(n)] + [FirstHalt(n, id, row, token, now)] ==
      [CreatedEvent(n), FirstHalt(n, id, row, token, now)];
    RetriedShape(ClaimedRow(row, token, now), now);
    RetryRecords(s, id, token, now);
    StepKeeps(s, Retry(id, token, ReportedRetry, now, now));
  }

  lemma {:induction false} ThenHidden(s: Store, n: NewRun, id: Id, row: CommandRow, token: Id, now: int)
    requires RetriedBeside(s, n, id, row, token, now) && row.runId == n.runId && row.attempts == 0
    requires !Auxiliary(row.kind) && id != n.commandId && n.availableAt <= now
    ensures var d := Claim(n.commandId, token, now, now);
      var e := Complete(n.commandId, token, Output([PreflightMilestone(n, now)], [], []), now);
      var t := Apply(Apply(s, d), e);
      Admissible(s, d) && Admissible(Apply(s, d), e) && n.runId in t.events && !Terminal(t.events[n.runId]) &&
      Abandoned(t, id, now)
  {
    hide Inv, Append, Apply, HaltEvent, RetriedRow, Terminal, Evolves, Hides, Latest, HasKey, BackoffSeconds;
    var first, halt, milestone := CreatedEvent(n), FirstHalt(n, id, row, token, now), PreflightMilestone(n, now);
    HaltHides(n, id, row, token, now);
    HiddenJournal(first, halt, milestone, id);
    assert [first, halt] + [milestone] == [first, halt, milestone];
    RetriedShape(ClaimedRow(row, token, now), now);
    FirstClaim(s, n.commandId, token, now, now);
    var d := Claim(n.commandId, token, now, now);
    StepKeeps(s, d);
    EventCompletes(Apply(s, d), n.commandId, token, milestone, now);
  }

  lemma {:induction false} CreatedJournal(n: NewRun)
    ensures var s := Apply(Empty, CreateRun(n));
      s.runs.Keys == {n.runId} && s.events == map[n.runId := [CreatedEvent(n)]] && s.commands.Keys == {n.commandId} &&
      var row := s.commands[n.commandId];
      row.projectId == n.projectId && row.runId == n.runId && row.key == n.key + ":preflight" && row.status == Queued &&
      row.attempts == 0 && row.availableAt == n.availableAt && row.kind == RunPreflight
  {
    hide ProjectRun;
  }

  lemma {:induction false} InsertedBeside(s: Store, id: Id, row: CommandRow)
    requires id !in s.commands && row.runId in s.runs && !Submission(row.kind)
    requires forall c :: c in s.commands ==> s.commands[c].key != row.key
    ensures Apply(s, Insert(id, row)) == s.(commands := s.commands[id := row])
  {
  }

  lemma {:induction false} AppendedOne(s: Store, e: Event)
    requires e.runId in s.runs && e.runId in s.events && RunOk(e.runId, s.runs[e.runId], s.events[e.runId])
    requires Append(s.events[e.runId], e) == Ok(s.events[e.runId] + [e])
    ensures AppendEvent(s, e).Ok?
    ensures var t := AppendEvent(s, e).value;
      t.commands == s.commands && t.artifacts == s.artifacts &&
      t.events == s.events[e.runId := s.events[e.runId] + [e]]
  {
    hide RunOk, Append, AppendEvent, ProjectRun;
    AppendEventFacts(s, e);
  }

  /** A retryable report whose halt event the append rule takes. */
  lemma {:induction false} RetryRecords(s: Store, c: Id, token: Id, now: int)
    requires Inv(s) && HoldsLease(s, c, token, now) && !Auxiliary(s.commands[c].kind) && s.commands[c].attempts > 0
    requires var row := RetriedRow(s.commands[c], ReportedRetry, now);
      row.runId in s.events && Append(s.events[row.runId],
        HaltEvent(s.events[row.runId], c, row, ReportedRetry, now)) ==
        Ok(s.events[row.runId] + [HaltEvent(s.events[row.runId], c, row, ReportedRetry, now)])
    ensures var t := Apply(s, Retry(c, token, ReportedRetry, now, now));
      var row := RetriedRow(s.commands[c], ReportedRetry, now);
      t.commands == s.commands[c := row] && t.events == s.events[row.runId := s.events[row.runId] +
        [HaltEvent(s.events[row.runId], c, row, ReportedRetry, now)]]
  {
    hide Inv, Append, AppendEvent, HaltEvent, RunOk, RetriedRow, Auxiliary;
    var row := RetriedRow(s.commands[c], ReportedRetry, now);
    RetriedShape(s.commands[c], now);
    var t := s.(commands := s.commands[c := row]);
    OneRun(s, row.runId);
    HaltFor(t.events[row.runId], c, row, now);
    AppendedOne(t, HaltEvent(t.events[row.runId], c, row, ReportedRetry, now));
  }

  lemma {:induction false} RetriedShape(row: CommandRow, now: int)
    ensures var after := RetriedRow(row, ReportedRetry, now);
      after.runId == row.runId && after.kind == row.kind && after.attempts == row.attempts && after.status == Queued
  {
  }

  lemma {:induction false} HaltFor(j: seq<Event>, c: Id, row: CommandRow, now: int)
    ensures HaltEvent(j, c, row, ReportedRetry, now).runId == row.runId
  {
  }

  lemma {:induction false} OneRun(s: Store, r: Id)
    requires Inv(s) && r in s.events
    ensures r in s.runs && RunOk(r, s.runs[r], s.events[r])
  {
    hide CommandOk, KeysUnique, SourceOk, RunOk;
  }

  /** A completion with one event the append rule takes. */
  lemma {:induction false} EventCompletes(s: Store, c: Id, token: Id, e: Event, now: int)
    requires Inv(s) && HoldsLease(s, c, token, now) && e.runId in s.events
    requires Append(s.events[e.runId], e) == Ok(s.events[e.runId] + [e])
    ensures var t := Apply(s, Complete(c, token, Output([e], [], []), now));
      t.events == s.events[e.runId := s.events[e.runId] + [e]] && t.commands == s.commands[c := DoneRow(s.commands[c])]
  {
    hide Inv, Append, AppendEvent, AppendEvents, RunOk;
    OneRun(s, e.runId);
    AppendedOne(s, e);
    SingleAppend(s, [e]);
    DoneAlone(s, c, token, e, now);
  }

  lemma {:induction false} DoneAlone(s: Store, c: Id, token: Id, e: Event, now: int)
    requires HoldsLease(s, c, token, now) && AppendEvents(s, [e]).Ok? &&
      AppendEvents(s, [e]).value.commands == s.commands
    ensures var t := Apply(s, Complete(c, token, Output([e], [], []), now));
      t.events == AppendEvents(s, [e]).value.events && t.commands == s.commands[c := DoneRow(s.commands[c])]
  {
    hide AppendEvents;
  }

  lemma {:induction false} SixSteps(s: Store, a: seq<Action>)
    requires |a| == 6
    ensures Run(s, a) == Apply(Apply(Apply(Apply(Apply(Apply(s, a[0]), a[1]), a[2]), a[3]), a[4]), a[5])
    ensures AllAdmissible(s, a) <==>
      var t := Apply(s, a[0]); var u := Apply(t, a[1]); var v := Apply(u, a[2]); var w := Apply(v, a[3]);
      Admissible(s, a[0]) && Admissible(t, a[1]) && Admissible(u, a[2]) && Admissible(v, a[3]) && Admissible(w, a[4]) &&
      Admissible(Apply(w, a[4]), a[5])
  {
    hide Apply, Admissible;
    FirstStep(s, a);
    FirstStep(Apply(s, a[0]), a[1..]);
    FirstStep(Apply(Apply(s, a[0]), a[1]), a[2..]);
    ThreeSteps(Apply(Apply(Apply(s, a[0]), a[1]), a[2]), a[3], a[4], a[5]);
    assert a[1..][1..] == a[2..] && a[2..][1..] == a[3..] && a[3..] == [a[3], a[4], a[5]];
  }

  // -------------------------------------------------------- a blocked preflight

  function PreflightBlocked(n: NewRun, now: int): Event {
    Event(n.runId, 2, Command(n.commandId), now, Failed(PreflightStage, "BLOCKED"))
  }

  /** A command of a new run is leased; then the run's preflight completes as blocked. */
  function BlockedPreflight(n: NewRun, id: Id, row: CommandRow, token: Id, now: int): seq<Action> {
    [CreateRun(n), Insert(id, row), Claim(id, token, now, now), Claim(n.commandId, token, now, now),
     Complete(n.commandId, token, Output([PreflightBlocked(n, now)], [], []), now)]
  }

  /** A blocked preflight ends the run and leaves a command of it that is leased at that time
      to its lease: once that expires, no claim of the command will ever commit again. */
  lemma {:induction false} BlockedPreflightStrands(n: NewRun, id: Id, row: CommandRow, token: Id, now: int)
    requires row.projectId == n.projectId && row.runId == n.runId && row.key != n.key + ":preflight"
    requires NewRow(row) && row.status == Queued && row.availableAt <= now && n.availableAt <= now
    requires !Auxiliary(row.kind) && !Submission(row.kind) && id != n.commandId
    ensures var s := Run(Empty, BlockedPreflight(n, id, row, token, now));
      AllAdmissible(Empty, BlockedPreflight(n, id, row, token, now)) && n.runId in s.events &&
      Terminal(s.events[n.runId]) && id in s.commands && s.commands[id] == ClaimedRow(row, token, now) &&
      Abandoned(s, id, now + LEASE_MILLISECONDS)
  {
    hide Run, AllAdmissible, Inv, Apply, Admissible, Terminal, LeasedBeside, Abandoned;
    var a := BlockedPreflight(n, id, row, token, now);
    LeasedFirst(n, id, row, token, now);
    ThenBlocked(Apply(Apply(Apply(Empty, a[0]), a[1]), a[2]), n, id, row, token, now);
    FirstStep(Empty, a);
    FirstStep(Apply(Empty, a[0]), a[1..]);
    assert a[1..][1..] == a[2..] && a[2..] == [a[2], a[3], a[4]];
    ThreeSteps(Apply(Apply(Empty, a[0]), a[1]), a[2], a[3], a[4]);
  }

  lemma {:induction false} ThenBlocked(s: Store, n: NewRun, id: Id, row: CommandRow, token: Id, now: int)
    requires LeasedBeside(s, n, id, row, token, now) && row.runId == n.runId && row.attempts == 0
    requires !Auxiliary(row.kind) && id != n.commandId && n.availableAt <= now
    ensures var d := Claim(n.commandId, token, now, now);
      var e := Complete(n.commandId, token, Output([PreflightBlocked(n, now)], [], []), now);
      var t := Apply(Apply(s, d), e);
      Admissible(s, d) && Admissible(Apply(s, d), e) && n.runId in t.events && Terminal(t.events[n.runId]) &&
      id in t.commands && t.commands[id] == ClaimedRow(row, token, now) && Abandoned(t, id, now + LEASE_MILLISECONDS)
  {
    hide Inv, Append, Apply, Terminal, Evolves, Valid, HoldsLease;
    var first, failure := CreatedEvent(n), PreflightBlocked(n, now);
    FirstEvent(first);
    CreatedIsLive(n, failure);
    AppendsFailure([first], failure);
    FailureEnds([first], failure);
    AppendKeepsValid([first], failure);
    EndedRunBlocks([first] + [failure], id, ClaimedRow(row, token, now));
    FirstClaim(s, n.commandId, token, now, now);
    var d := Claim(n.commandId, token, now, now);
    StepKeeps(s, d);
    EventCompletes(Apply(s, d), n.commandId, token, failure, now);
  }

  lemma {:induction false} CreatedIsLive(n: NewRun, e: Event)
    requires e.source.Command?
    ensures !Terminal([CreatedEvent(n)]) && !HasKey([CreatedEvent(n)], KeyOf(e))
  {
  }

  // ------------------------------------------------------------ a proof bundle

  /** A live journal of milestones only. */
  ghost predicate Underway(j: seq<Event>) {
    Valid(j) && Fold(j).Some? && |Fold(j).value.lifecycle| == |j| && !Terminal(j)
  }

  /** e is the next milestone of j, under a new key. */
  predicate NextMilestone(j: seq<Event>, e: Event) {
    j != [] && e.runId == j[0].runId && e.sequence == |j| + 1 && e.body.Reached? && Rank(e.body.milestone) == |j| &&
    !HasKey(j, KeyOf(e))
  }

  lemma {:induction false} MilestoneTaken(j: seq<Event>, e: Event)
    requires Underway(j) && NextMilestone(j, e)
    ensures Append(j, e) == Ok(j + [e]) && (j + [e])[0] == j[0]
    ensures if e.body.milestone.ConsumerVerified? then Terminal(j + [e]) else Underway(j + [e])
  {
    FoldFacts(j);
    Extend(j, e);
    Projects(j + [e]);
    AppendKeepsValid(j, e);
    assert (j + [e])[|j|] == e;
    hide Fold, Valid;
    LiveOrEnded(j, e);
  }

  lemma {:induction false} LiveOrEnded(j: seq<Event>, e: Event)
    requires !Terminal(j)
    ensures Terminal(j + [e]) <==> Ends(e)
  {
    assert (j + [e])[|j|] == e;
    forall i | 0 <= i < |j| ensures !Ends((j + [e])[i]) { assert (j + [e])[i] == j[i]; }
  }

  /** What a replay records after the preflight: the five later milestones, under derived ids. */
  function ReplayedEvents(n: NewRun, id: Id, now: int): (es: seq<Event>)
    ensures |es| == 5
  {
    [Event(n.runId, 3, Replayed(id, 1), now, Reached(RequestSubmitted("replay", ""))),
     Event(n.runId, 4, Replayed(id, 2), now, Reached(RoundFinalized(1))),
     Event(n.runId, 5, Replayed(id, 3), now, Reached(ProofAvailable(""))),
     Event(n.runId, 6, Replayed(id, 4), now, Reached(ProofVerified(""))),
     Event(n.runId, 7, Replayed(id, 5), now, Reached(ConsumerVerified(true)))]
  }
  lemma {:induction false} MilestoneRecorded(s: Store, e: Event)
    requires Journaled(s) && e.runId in s.events && Underway(s.events[e.runId]) && NextMilestone(s.events[e.runId], e)
    ensures AppendEvent(s, e).Ok?
    ensures var t := AppendEvent(s, e).value; var j := s.events[e.runId] + [e];
      Journaled(t) && t.commands == s.commands && t.artifacts == s.artifacts && t.runs.Keys == s.runs.Keys &&
      t.events == s.events[e.runId := j] && (if e.body.milestone.ConsumerVerified? then Terminal(j) else Underway(j))
  {
    hide Append, AppendEvent, Underway, NextMilestone, Terminal, RunOk;
    NextIsMilestone(s.events[e.runId], e);
    MilestoneTaken(s.events[e.runId], e);
    assert RunOk(e.runId, s.runs[e.runId], s.events[e.runId]);
    AppendedOne(s, e);
    AppendEventKeeps(s, e);
  }

  lemma {:induction false} NextIsMilestone(j: seq<Event>, e: Event)
    requires NextMilestone(j, e)
    ensures e.body.Reached?
  {
  }

  /** The journal of a new run whose preflight was accepted. */
  function AcceptedJournal(n: NewRun, now: int): seq<Event> {
    [CreatedEvent(n), PreflightMilestone(n, now).(sequence := 2)]
  }

  lemma {:induction false} AcceptedUnderway(n: NewRun, now: int)
    ensures Underway([CreatedEvent(n)]) && Underway(AcceptedJournal(n, now))
    ensures NextMilestone([CreatedEvent(n)], AcceptedJournal(n, now)[1])
  {
    FirstEvent(CreatedEvent(n));
    hide Fold, Valid;
    assert NextMilestone([CreatedEvent(n)], AcceptedJournal(n, now)[1]);
    MilestoneTaken([CreatedEvent(n)], AcceptedJournal(n, now)[1]);
    assert [CreatedEvent(n)] + [AcceptedJournal(n, now)[1]] == AcceptedJournal(n, now);
  }

  lemma {:induction false} ReplayedNext(n: NewRun, id: Id, now: int, k: nat)
    requires k < 5
    ensures NextMilestone(AcceptedJournal(n, now) + ReplayedEvents(n, id, now)[..k], ReplayedEvents(n, id, now)[k])
    ensures ReplayedEvents(n, id, now)[k].body.milestone.ConsumerVerified? <==> k == 4
    ensures ReplayedEvents(n, id, now)[k].runId == n.runId
  {
  }

  lemma {:induction false} ReplayAppends(s: Store, n: NewRun, id: Id, now: int, k: nat)
    requires Journaled(s) && n.runId in s.events && s.events[n.runId] == AcceptedJournal(n, now) && k <= 5
    ensures AppendEvents(s, ReplayedEvents(n, id, now)[..k]).Ok?
    ensures var t := AppendEvents(s, ReplayedEvents(n, id, now)[..k]).value;
      var j := AcceptedJournal(n, now) + ReplayedEvents(n, id, now)[..k];
      Journaled(t) && t.commands == s.commands && t.artifacts == s.artifacts && t.runs.Keys == s.runs.Keys &&
      t.events == s.events[n.runId := j] && (if k == 5 then Terminal(j) else Underway(j))
  {
    hide AppendEvent, Underway, NextMilestone, Terminal, Journaled, ReplayedEvents, AcceptedJournal;
    var es := ReplayedEvents(n, id, now);
    var j := AcceptedJournal(n, now);
    if k == 0 {
      AcceptedUnderway(n, now);
      assert j + es[..0] == j;
      assert s.events[n.runId := j] == s.events;
    } else {
      ReplayAppends(s, n, id, now, k - 1);
      ReplayedNext(n, id, now, k - 1);
      var t := AppendEvents(s, es[..k - 1]).value;
      MilestoneRecorded(t, es[k - 1]);
      assert es[..k][..k - 1] == es[..k - 1];
      assert j + es[..k - 1] + [es[k - 1]] == j + es[..k];
    }
  }
  /** A replayed run: its preflight is accepted, the replay completes with everything that
      was recorded and the proof bundle to build, and the bundle is leased. */
  function ReplayedRun(n: NewRun, id: Id, row: CommandRow, b: Id, bundle: CommandRow, token: Id, now: int):
    seq<Action>
  {
    [CreateRun(n), Claim(n.commandId, token, now, now),
     Complete(n.commandId, token, Output([AcceptedJournal(n, now)[1]], [], []), now),
     Insert(id, row), Claim(id, token, now, now),
     Complete(id, token, Output(ReplayedEvents(n, id, now), [], [NewCommand(b, bundle)]), now),
     Claim(b, token, now, now)]
  }

  predicate FreshIn(n: NewRun, row: CommandRow, now: int) {
    row.projectId == n.projectId && row.runId == n.runId && row.key != n.key + ":preflight" && NewRow(row) &&
    row.status == Queued && row.availableAt <= now
  }

  /** The first lease of a replayed run's proof bundle is its last: when it expires, no claim
      of the bundle will ever commit. */
  lemma {:induction false} BundleIsLeasedOnce(n: NewRun, id: Id, row: CommandRow, b: Id, bundle: CommandRow, token: Id,
      now: int)
    requires FreshIn(n, row, now) && row.kind == ApplyReplay && FreshIn(n, bundle, now) && bundle.kind == BuildBundle
    requires n.availableAt <= now && row.key != bundle.key && id != n.commandId && b != n.commandId && b != id
    ensures var s := Run(Empty, ReplayedRun(n, id, row, b, bundle, token, now));
      AllAdmissible(Empty, ReplayedRun(n, id, row, b, bundle, token, now)) && b in s.commands &&
      s.commands[b] == ClaimedRow(bundle, token, now) && Abandoned(s, b, now + LEASE_MILLISECONDS)
  {
    hide Run, AllAdmissible, Inv, Apply, Admissible, Terminal, Abandoned, AfterPreflight, ReplayLeased, FreshIn,
      ReplayedEvents;
    var a := ReplayedRun(n, id, row, b, bundle, token, now);
    PreflightDone(n, token, now);
    var s3 := Apply(Apply(Apply(Empty, a[0]), a[1]), a[2]);
    ReplayClaimed(s3, n, id, row, token, now);
    var s5 := Apply(Apply(s3, a[3]), a[4]);
    BundleLeased(s5, n, id, row, b, bundle, token, now);
    FirstStep(Empty, a);
    SixSteps(Apply(Empty, a[0]), a[1..]);
  }

  ghost predicate AfterPreflight(s: Store, n: NewRun, now: int) {
    Inv(s) && s.events == map[n.runId := AcceptedJournal(n, now)] && s.commands.Keys == {n.commandId} &&
    s.commands[n.commandId].key == n.key + ":preflight" && s.commands[n.commandId].kind == RunPreflight
  }

  ghost predicate ReplayLeased(s: Store, n: NewRun, id: Id, row: CommandRow, token: Id, now: int) {
    Inv(s) && s.events == map[n.runId := AcceptedJournal(n, now)] && s.commands.Keys == {n.commandId, id} &&
    s.commands[n.commandId].key == n.key + ":preflight" && s.commands[id].key == row.key &&
    s.commands[id].runId == n.runId && HoldsLease(s, id, token, now)
  }

  lemma {:induction false} PreflightDone(n: NewRun, token: Id, now: int)
    requires n.availableAt <= now
    ensures var a, b, d := CreateRun(n), Claim(n.commandId, token, now, now),
        Complete(n.commandId, token, Output([AcceptedJournal(n, now)[1]], [], []), now);
      Admissible(Empty, a) && Admissible(Apply(Empty, a), b) && Admissible(Apply(Apply(Empty, a), b), d) &&
      AfterPreflight(Apply(Apply(Apply(Empty, a), b), d), n, now)
  {
    hide Inv, Apply, Evolves, Append, Underway, NextMilestone, HoldsLease;
    var s1 := Apply(Empty, CreateRun(n));
    CreatedJournal(n);
    EmptyKeeps();
    StepKeeps(Empty, CreateRun(n));
    FirstClaim(s1, n.commandId, token, now, now);
    var claim := Claim(n.commandId, token, now, now);
    StepKeeps(s1, claim);
    var s2 := Apply(s1, claim);
    var e := AcceptedJournal(n, now)[1];
    AcceptedUnderway(n, now);
    MilestoneTaken([CreatedEvent(n)], e);
    assert [CreatedEvent(n)] + [e] == AcceptedJournal(n, now);
    EventCompletes(s2, n.commandId, token, e, now);
    StepKeeps(s2, Complete(n.commandId, token, Output([e], [], []), now));
  }

  lemma {:induction false} ReplayClaimed(s: Store, n: NewRun, id: Id, row: CommandRow, token: Id, now: int)
    requires AfterPreflight(s, n, now) && FreshIn(n, row, now) && row.kind == ApplyReplay && id != n.commandId
    ensures var a, b := Insert(id, row), Claim(id, token, now, now);
      Admissible(s, a) && Admissible(Apply(s, a), b) &&
      ReplayLeased(Apply(Apply(s, a), b), n, id, row, token, now)
  {
    hide Inv, Apply, Evolves, HoldsLease, AcceptedJournal, ClaimedRow;
    OneRun(s, n.runId);
    InsertedAlone(s, id, row);
    StepKeeps(s, Insert(id, row));
    var t := Apply(s, Insert(id, row));
    FirstClaim(t, id, token, now, now);
    StepKeeps(t, Claim(id, token, now, now));
    ClaimedShape(row, token, now);
  }

  lemma {:induction false} ClaimedShape(row: CommandRow, token: Id, now: int)
    ensures var after := ClaimedRow(row, token, now); after.runId == row.runId && after.key == row.key
  {
  }

  /** An insert that meets no row of its key, id or submission. */
  lemma {:induction false} InsertedAlone(s: Store, id: Id, row: CommandRow)
    requires id !in s.commands && row.runId in s.runs
    requires forall c :: c in s.commands ==> s.commands[c].key != row.key
    requires Submission(row.kind) ==> forall c :: c in s.commands ==> !Submission(s.commands[c].kind)
    ensures InsertCommand(s, id, row) == Ok(s.(commands := s.commands[id := row]))
    ensures Apply(s, Insert(id, row)) == s.(commands := s.commands[id := row])
  {
  }

  lemma {:induction false} BundleLeased(s: Store, n: NewRun, id: Id, row: CommandRow, b: Id, bundle: CommandRow,
      token: Id, now: int)
    requires ReplayLeased(s, n, id, row, token, now) && FreshIn(n, bundle, now) && bundle.kind == BuildBundle
    requires row.key != bundle.key && b != n.commandId && b != id
    ensures var d := Complete(id, token, Output(ReplayedEvents(n, id, now), [], [NewCommand(b, bundle)]), now);
      var e := Claim(b, token, now, now); var t := Apply(Apply(s, d), e);
      Admissible(s, d) && Admissible(Apply(s, d), e) && b in t.commands &&
      t.commands[b] == ClaimedRow(bundle, token, now) && Abandoned(t, b, now + LEASE_MILLISECONDS)
  {
    hide Inv, Apply, Evolves, AcceptedJournal, Terminal, Valid, ReplayedEvents;
    ReplayedIsOwn(s, n, id, b, bundle, token, now);
    var d := Complete(id, token, Output(ReplayedEvents(n, id, now), [], [NewCommand(b, bundle)]), now);
    ReplayCompletes(s, n, id, b, bundle, token, now);
    StepKeeps(s, d);
    var u := Apply(s, d);
    JournaledRun(u, n.runId);
    FirstClaim(u, b, token, now, now);
    EndedRunBlocks(u.events[n.runId], b, ClaimedRow(bundle, token, now));
  }

  lemma {:induction false} ReplayedIsOwn(s: Store, n: NewRun, id: Id, b: Id, bundle: CommandRow, token: Id, now: int)
    requires id in s.commands && s.commands[id].runId == n.runId && NewRow(bundle)
    ensures Admissible(s, Complete(id, token, Output(ReplayedEvents(n, id, now), [], [NewCommand(b, bundle)]), now))
  {
  }

  lemma {:induction false} ReplayCompletes(s: Store, n: NewRun, id: Id, b: Id, bundle: CommandRow, token: Id,
      now: int)
    requires Inv(s) && s.events == map[n.runId := AcceptedJournal(n, now)] && HoldsLease(s, id, token, now)
    requires b !in s.commands && bundle.runId == n.runId && !Submission(bundle.kind)
    requires forall c :: c in s.commands ==> s.commands[c].key != bundle.key
    ensures var output := Output(ReplayedEvents(n, id, now), [], [NewCommand(b, bundle)]);
      var t := Apply(s, Complete(id, token, output, now));
      n.runId in t.events && Terminal(t.events[n.runId]) &&
      t.commands == s.commands[b := bundle][id := DoneRow(s.commands[id])]
  {
    hide Inv, AcceptedJournal, Terminal, ReplayedEvents, Journaled, AppendEvents, InsertCommand, Underway;
    var es := ReplayedEvents(n, id, now);
    JournaledStore(s);
    ReplayAppends(s, n, id, now, 5);
    assert es[..5] == es;
    var t := AppendEvents(s, es).value;
    OneRun(s, n.runId);
    InsertedAlone(t, b, bundle);
    OneInserted(t, NewCommand(b, bundle));
    assert InsertArtifacts(t, []) == t;
  }

  lemma {:induction false} JournaledStore(s: Store)
    requires Inv(s)
    ensures Journaled(s)
  {
  }

  lemma {:induction false} OneInserted(s: Store, item: NewCommand)
    ensures InsertCommands(s, [item]) == InsertCommand(s, item.id, item.row)
  {
    hide InsertCommand;
    assert [item][..0] == [];
    assert InsertCommands(s, []) == Ok(s);
  }

  // -------------------------------------------------------- effects of commits

  predicate InJournal(s: Store, e: Event) {
    e.runId in s.events &&
    exists i ::
      0 <= i < |s.events[e.runId]| && KeyOf(s.events[e.runId][i]) == KeyOf(e) && SameEffect(s.events[e.runId][i], e)
  }

  lemma {:induction false} InJournalStays(s: Store, t: Store, e: Event)
    requires InJournal(s, e) && e.runId in t.events && s.events[e.runId] <= t.events[e.runId]
    ensures InJournal(t, e)
  {
    var i :| 0 <= i < |s.events[e.runId]| && KeyOf(s.events[e.runId][i]) == KeyOf(e) &&
      SameEffect(s.events[e.runId][i], e);
    assert t.events[e.runId][i] == s.events[e.runId][i];
  }

  lemma {:induction false} AppendRecords(s: Store, e: Event)
    requires AppendEvent(s, e).Ok?
    ensures InJournal(AppendEvent(s, e).value, e)
  {
    hide ProjectRun;
    var j := s.events[e.runId];
    var t := AppendEvent(s, e).value;
    if |Append(j, e).value| != |j| {
      assert t.events[e.runId][|j|] == e;
    }
  }

  lemma {:induction false} AllInJournal(s: Store, es: seq<Event>)
    requires AppendEvents(s, es).Ok?
    ensures forall e :: e in es ==> InJournal(AppendEvents(s, es).value, e)
  {
    hide Append, InJournal;
    if es != [] {
      var front, last := es[..|es| - 1], es[|es| - 1];
      AllInJournal(s, front);
      var u := AppendEvents(s, front).value;
      AppendRecords(u, last);
      NewEventIs(u, last);
      forall e | e in es ensures InJournal(AppendEvents(s, es).value, e) {
        if e in front { InJournalKept(u, AppendEvents(s, es).value, e, last); }
      }
    }
  }

  lemma {:induction false} InJournalKept(s: Store, t: Store, e: Event, last: Event)
    requires InJournal(s, e)
    requires t.events == s.events ||
      (last.runId in s.events && t.events == s.events[last.runId := s.events[last.runId] + [last]])
    ensures InJournal(t, e)
  {
    InJournalStays(s, t, e);
  }

  lemma {:induction false} AllStocked(s: Store, items: seq<Artifact>)
    ensures forall a :: a in items ==> a.key in InsertArtifacts(s, items).artifacts
    ensures s.artifacts.Keys <= InsertArtifacts(s, items).artifacts.Keys
    ensures InsertArtifacts(s, items).events == s.events && InsertArtifacts(s, items).commands == s.commands
  {
    if items != [] {
      AllStocked(s, items[..|items| - 1]);
    }
  }

  lemma {:induction false} AllIntended(s: Store, items: seq<NewCommand>)
    requires InsertCommands(s, items).Ok?
    ensures forall n :: n in items ==> HasIntent(InsertCommands(s, items).value, n.row.projectId, n.row.key)
    ensures forall p, k :: HasIntent(s, p, k) ==> HasIntent(InsertCommands(s, items).value, p, k)
    ensures InsertCommands(s, items).value.artifacts == s.artifacts
  {
    hide HasIntent;
    if items != [] {
      var front, last := items[..|items| - 1], items[|items| - 1];
      AllIntended(s, front);
      IntentAfter(InsertCommands(s, front).value, last.id, last.row);
    }
  }

  lemma {:induction false} IntentAfter(s: Store, id: Id, row: CommandRow)
    requires InsertCommand(s, id, row).Ok?
    ensures var t := InsertCommand(s, id, row).value;
      HasIntent(t, row.projectId, row.key) && t.artifacts == s.artifacts &&
      (forall p, k :: HasIntent(s, p, k) ==> HasIntent(t, p, k))
  {
    var t := InsertCommand(s, id, row).value;
    if !HasIntent(s, row.projectId, row.key) {
      assert t.commands[id] == row;
    }
    forall p, k | HasIntent(s, p, k) ensures HasIntent(t, p, k) {
      var c :| c in s.commands && s.commands[c].projectId == p && s.commands[c].key == k;
      assert c in t.commands && (c != id ==> t.commands[c] == s.commands[c]);
      assert id !in s.commands || t == s;
    }
  }

  /** A completion that commits has delivered all of its output: every event is in the
      journal, every artifact is stored, every follow-up command has its row. */
  lemma {:induction false} CompletionDelivers(s: Store, c: Id, token: Id, output: Output, now: int)
    requires CompleteTx(s, c, token, output, now).Ok?
    ensures var t := CompleteTx(s, c, token, output, now).value;
      (forall e :: e in output.events ==> InJournal(t, e)) &&
      (forall a :: a in output.artifacts ==> a.key in t.artifacts) &&
      (forall n :: n in output.next ==> HasIntent(t, n.row.projectId, n.row.key))
  {
    hide AppendEvents, InsertArtifacts, InsertCommands, HasIntent, InJournal;
    var u := AppendEvents(s, output.events).value;
    var v := InsertArtifacts(u, output.artifacts);
    var x := InsertCommands(v, output.next).value;
    AllInJournal(s, output.events);
    AllStocked(u, output.artifacts);
    AllIntended(v, output.next);
    InsertsKeepEvents(v, output.next);
    var t := CompleteTx(s, c, token, output, now).value;
    assert t.events == u.events && t.artifacts == v.artifacts;
    forall e | e in output.events ensures InJournal(t, e) {
      SameJournals(u, t, e);
    }
    forall n | n in output.next ensures HasIntent(t, n.row.projectId, n.row.key) {
      IntentOnDone(x, c, n.row.projectId, n.row.key);
    }
  }

  lemma {:induction false} SameJournals(s: Store, t: Store, e: Event)
    requires s.events == t.events && InJournal(s, e)
    ensures InJournal(t, e)
  {
  }

  lemma {:induction false} IntentOnDone(s: Store, c: Id, p: Id, k: string)
    requires c in s.commands && HasIntent(s, p, k)
    ensures HasIntent(s.(commands := s.commands[c := DoneRow(s.commands[c])]), p, k)
  {
    var d :| d in s.commands && s.commands[d].projectId == p && s.commands[d].key == k;
    assert s.commands[c := DoneRow(s.commands[c])][d].key == k;
  }

  /** The run of c has ended in t, its other unfinished commands are cancelled, and other
      runs are as they were. */
  ghost predicate RunEnded(s: Store, t: Store, c: Id, d: Id)
    requires c in s.commands && d in s.commands
  {
    var r, q := s.commands[c].runId, s.commands[d].runId;
    c in t.commands && d in t.commands && r in t.events && Terminal(t.events[r]) && t.commands[c].status == Dead &&
    (d != c && q == r && Unfinished(s.commands[d]) ==> t.commands[d].status == Cancelled) &&
    (q != r ==> t.commands[d] == s.commands[d] && q in s.events && q in t.events && t.events[q] == s.events[q])
  }

  /** A terminal failure of a command ends its run and cancels the run's other unfinished
      commands; nothing of any other run changes. */
  lemma {:induction false} TerminalFailureEndsRun(s: Store, c: Id, token: Id, failure: Failure, now: int, wall: int,
      d: Id)
    requires Inv(s) && failure.terminal && !failure.retryable && HoldsLease(s, c, token, now)
    requires !Auxiliary(s.commands[c].kind) && d in s.commands
    ensures RetryTx(s, c, token, failure, now, wall).Ok?
    ensures RunEnded(s, RetryTx(s, c, token, failure, now, wall).value, c, d)
  {
    hide Inv, RetryTx, Terminal, BackoffSeconds, CancelOthers;
    var row := s.commands[c];
    RetryFacts(s, c, token, failure, now, wall);
    RunOf(s, d);
    CancelledRow(s.commands[c := RetriedRow(row, failure, now)], c, row.runId, c);
    CancelledRow(s.commands[c := RetriedRow(row, failure, now)], c, row.runId, d);
  }

  lemma {:induction false} CancelledRow(commands: map<Id, CommandRow>, c: Id, r: Id, d: Id)
    requires d in commands
    ensures d in CancelOthers(commands, c, r)
    ensures CancelOthers(commands, c, r)[d] ==
      if commands[d].runId == r && d != c && Unfinished(commands[d])
      then commands[d].(status := Cancelled, lease := None) else commands[d]
  {
  }

  lemma {:induction false} RunOf(s: Store, d: Id)
    requires Inv(s) && d in s.commands
    ensures s.commands[d].runId in s.events
  {
    hide CommandOk, RunOk, KeysUnique;
  }

  // ------------------------------------------------------------------- inserts

  /** A row of the same project and key. */
  predicate RepeatsKey(a: CommandRow, b: CommandRow) { a.projectId == b.projectId && a.key == b.key }

  /** A submission of the same run, not cancelled. */
  predicate RivalSubmission(a: CommandRow, b: CommandRow) {
    a.runId == b.runId && a.kind in {AttachWallet, SubmitRelayer, ApplyReplay} && a.status != Cancelled &&
    b.kind in {AttachWallet, SubmitRelayer, ApplyReplay} && b.status != Cancelled
  }

  /** An insert for a stored run does nothing when its project has the key already; otherwise it
      stores the row exactly when the id is new and no rival submission of the run is stored. */
  lemma {:induction false} InsertedIff(s: Store, id: Id, row: CommandRow)
    ensures row.runId !in s.runs ==> InsertCommand(s, id, row) == Err(RunMissing)
    ensures row.runId in s.runs ==>
      InsertCommand(s, id, row) ==
        if exists c :: c in s.commands && RepeatsKey(s.commands[c], row) then Ok(s)
        else if id in s.commands || exists c :: c in s.commands && RivalSubmission(s.commands[c], row)
        then Err(UniqueViolation)
        else Ok(s.(commands := s.commands[id := row]))
  {
    assert HasIntent(s, row.projectId, row.key) <==> exists c :: c in s.commands && RepeatsKey(s.commands[c], row);
    assert HoldsSubmission(row, row.runId) && HasSubmission(s, row.runId) <==>
      exists c :: c in s.commands && RivalSubmission(s.commands[c], row) by {
      if c :| c in s.commands && RivalSubmission(s.commands[c], row) {
        assert HoldsSubmission(s.commands[c], row.runId);
      }
      if HoldsSubmission(row, row.runId) && HasSubmission(s, row.runId) {
        var c :| c in s.commands && HoldsSubmission(s.commands[c], row.runId);
        assert RivalSubmission(s.commands[c], row);
      }
    }
  }

  // ------------------------------------------------------- what a report records

  /** The stage a kind of command works at. */
  predicate WorksAt(kind: Kind, stage: Stage) {
    match stage
    case RequestStage => kind in {SubmitRelayer, BroadcastRelayer, AttachWallet, ApplyReplay}
    case RoundStage => kind in {PollReceipt, PollFinalization}
    case ProofStage => kind == FetchDaProof
    case VerifyStage => kind == VerifyProof
    case ConsumerStage => kind in {VerifyConsumer, BuildBundle}
    case PreflightStage => kind.RunPreflight? || kind.VerifyDeployed? || kind.DerivedProduct?
  }

  /** Where a kind of command takes up its run again. */
  predicate ResumesAt(kind: Kind, checkpoint: Checkpoint) {
    match checkpoint
    case AtPreflight => kind == RunPreflight
    case AtSubmission => kind in {SubmitRelayer, BroadcastRelayer, AttachWallet, ApplyReplay}
    case AtReceipt => kind == PollReceipt
    case AtFinalization => kind == PollFinalization
    case AtDaProof => kind == FetchDaProof
    case AtVerification => kind == VerifyProof
    case AtConsumer => kind in {VerifyConsumer, BuildBundle} || kind.VerifyDeployed? || kind.DerivedProduct?
  }

  /** The event a retryable report must leave at the end of the run's journal. */
  predicate HaltRecord(e: Event, c: Id, row: CommandRow, failure: Failure, now: int, wall: int) {
    e.source == Command(c) && e.occurredAt == wall &&
    (e.body.Waiting? || e.body.RetryScheduled?) &&
    (e.body.Waiting? <==> failure.recoveryWaiting || failure.notFinalized) &&
    e.body.attempt == row.attempts && WorksAt(row.kind, e.body.stage) && ResumesAt(row.kind, e.body.resumeFrom) &&
    e.body.schedule == Schedule(now + 1_000 * BackoffSeconds(row.attempts), wall, Reported(failure.code))
  }

  /** A retryable report of a live run's command adds one event at the end of its journal:
      waiting when the failure says so and a scheduled retry otherwise, for this attempt,
      stage and checkpoint, until the row is available again. */
  lemma {:induction false} RetryRecordsHalt(s: Store, c: Id, token: Id, failure: Failure, now: int, wall: int)
    requires Inv(s) && HoldsLease(s, c, token, now) && failure.retryable && !failure.terminal
    requires !Auxiliary(s.commands[c].kind)
    requires s.commands[c].runId in s.events && !Terminal(s.events[s.commands[c].runId])
    ensures var row := s.commands[c]; var j := s.events[row.runId];
      var t := Apply(s, Retry(c, token, failure, now, wall));
      t.events.Keys == s.events.Keys && |t.events[row.runId]| == |j| + 1 && j <= t.events[row.runId] &&
      HaltRecord(t.events[row.runId][|j|], c, row, failure, now, wall) && t.events[row.runId][|j|].sequence == |j| + 1
  {
    hide Inv, CommandOk, Append, AppendEvent, HaltEvent, RunOk, RetriedRow, Valid, Fold, Terminal, HasKey, OwnSources,
      InvExcept, BackoffSeconds, HaltRecord;
    var row := s.commands[c];
    var j := s.events[row.runId];
    var after := RetriedRow(row, failure, now);
    HaltIs(j, c, row, failure, now, wall);
    var e := HaltEvent(j, c, after, failure, wall);
    LeaseSetup(s, c, token, now, after);
    LeasedHaltIsNew(j, c, row, e);
    HaltAccepted(j, c, row, e);
    OneRun(s, row.runId);
    AppendedOne(s.(commands := s.commands[c := after]), e);
    ReportCommits(s, c, token, failure, now, wall);
  }

  lemma {:induction false} HaltIs(j: seq<Event>, c: Id, row: CommandRow, failure: Failure, now: int, wall: int)
    requires failure.retryable
    ensures var after := RetriedRow(row, failure, now); var e := HaltEvent(j, c, after, failure, wall);
      HaltRecord(e, c, row, failure, now, wall) && SameIdentity(after, row) && after.attempts == row.attempts &&
      e.runId == row.runId && e.sequence == |j| + 1 && e.source == Command(c) &&
      (e.body.Waiting? || e.body.RetryScheduled?) && e.body.attempt == row.attempts
  {
    hide BackoffSeconds;
  }

  lemma {:induction false} ReportCommits(s: Store, c: Id, token: Id, failure: Failure, now: int, wall: int)
    requires HoldsLease(s, c, token, now) && failure.retryable && !failure.terminal
    requires !Auxiliary(s.commands[c].kind) && s.commands[c].attempts > 0
    requires var row := RetriedRow(s.commands[c], failure, now);
      row.runId in s.events &&
      AppendEvent(s.(commands := s.commands[c := row]), HaltEvent(s.events[row.runId], c, row, failure, wall)).Ok?
    ensures var row := RetriedRow(s.commands[c], failure, now);
      Apply(s, Retry(c, token, failure, now, wall)) ==
        AppendEvent(s.(commands := s.commands[c := row]), HaltEvent(s.events[row.runId], c, row, failure, wall)).value
  {
    hide AppendEvent, HaltEvent, BackoffSeconds;
  }

  /** The row a committed report leaves: without a lease, with the failure, and queued until
      its wait is over or dead as it was. */
  lemma {:induction false} ReportedRow(s: Store, c: Id, token: Id, failure: Failure, now: int, wall: int)
    requires Inv(s) && !(failure.retryable && failure.terminal) && RetryTx(s, c, token, failure, now, wall).Ok?
    ensures c in s.commands && c in RetryTx(s, c, token, failure, now, wall).value.commands
    ensures var row := s.commands[c]; var after := RetryTx(s, c, token, failure, now, wall).value.commands[c];
      after.status == (if failure.retryable then Queued else Dead) && after.lease == None &&
      after.lastError == Some(failure) && after.attempts == row.attempts && SameIdentity(after, row) &&
      after.availableAt ==
        if failure.retryable then now + 1_000 * BackoffSeconds(row.attempts) else row.availableAt
  {
    hide Inv, RetryTx, BackoffSeconds, Terminal, Grown, CancelOthers;
    RetryFacts(s, c, token, failure, now, wall);
    var after := RetriedRow(s.commands[c], failure, now);
    CancelledRow(s.commands[c := after], c, after.runId, c);
  }

  /** A terminal report of a command adds one event to a live run, its failure at the stage
      of the command with the code reported, and none to a run that has ended. */
  lemma {:induction false} FailureIsRecorded(s: Store, c: Id, token: Id, failure: Failure, now: int, wall: int)
    requires Inv(s) && HoldsLease(s, c, token, now) && !failure.retryable && failure.terminal
    requires !Auxiliary(s.commands[c].kind) && s.commands[c].runId in s.events
    ensures var row := s.commands[c]; var j := s.events[row.runId];
      var t := Apply(s, Retry(c, token, failure, now, wall));
      t.events.Keys == s.events.Keys &&
      if Terminal(j) then t.events == s.events
      else
        |t.events[row.runId]| == |j| + 1 && j <= t.events[row.runId] &&
        var e := t.events[row.runId][|j|];
        e.source == Command(c) && e.occurredAt == wall && e.sequence == |j| + 1 && e.body.Failed? &&
        WorksAt(row.kind, e.body.stage) && e.body.code == failure.code
  {
    hide Inv, CommandOk, Append, AppendEvent, RunOk, Valid, Fold, Terminal, HasKey, OwnSources, InvExcept,
      CancelOthers, BackoffSeconds;
    var row := s.commands[c];
    var j := s.events[row.runId];
    var after := RetriedRow(row, failure, now);
    LeaseSetup(s, c, token, now, after);
    if !Terminal(j) {
      var e := Event(row.runId, |j| + 1, Command(c), wall, Failed(FailureStage(row.kind), failure.code));
      LeasedEffectIsNew(j, c, row, e);
      AppendsFailure(j, e);
      OneRun(s, row.runId);
      AppendedOne(s.(commands := s.commands[c := after]), e);
    }
  }

  // ------------------------------------------------------------------- backoff

  lemma {:induction false} Pow2Doubles(n: nat, m: nat)
    requires n <= m
    ensures 1 <= Pow2(n) <= Pow2(m)
    decreases m
  {
    if n < m {
      Pow2Doubles(n, m - 1);
    } else if n > 0 {
      Pow2Doubles(n - 1, m - 1);
    }
  }

  /** The wait doubles with every attempt up to the eighth and stays there: the limit of
      300 seconds is never reached. */
  lemma {:induction false} BackoffShape(attempts: nat)
    ensures BackoffSeconds(attempts) == if attempts <= 8 then Pow2(attempts) else 256
    ensures 1 <= BackoffSeconds(attempts) <= BackoffSeconds(attempts + 1) <= 256
  {
    assert Pow2(8) == 256 by {
      assert Pow2(2) == 4;
      assert Pow2(4) == 16;
      assert Pow2(6) == 64;
    }
    Pow2Doubles(Min(attempts, 8), 8);
    Pow2Doubles(Min(attempts, 8), Min(attempts + 1, 8));
  }

  /** A reported retry cannot be claimed again before its wait is over, and can after it. */
  lemma {:induction false} RetryWaits(s: Store, c: Id, token: Id, failure: Failure, now: int, wall: int, later: int)
    requires Inv(s) && failure.retryable && !failure.terminal && RetryTx(s, c, token, failure, now, wall).Ok?
    ensures var t := RetryTx(s, c, token, failure, now, wall).value;
      c in s.commands && c in t.commands &&
      (Claimable(t.commands[c], later) <==> later >= now + 1_000 * BackoffSeconds(s.commands[c].attempts))
  {
    hide Inv, RetryTx, BackoffSeconds, Terminal, Grown;
    RetryFacts(s, c, token, failure, now, wall);
  }
}
