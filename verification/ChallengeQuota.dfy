/**
 Wallet challenges: issued under an address and a global minute quota, consumed once,
 cleaned up in bounded batches. apps/api/src/wallet-session-service.ts over the tables
 of migrations 006 and 008.
*/
module ChallengeQuota {
  import opened Wrappers
  import opened QuotaWindows
  import opened SignIn

  type Id = nat

  datatype Policy = Policy(addressPerMinute: nat, globalPerMinute: nat)

  datatype Db = Db(windows: Windows, challenges: map<Id, ChallengeRow>)

  /** The random parts and the database clock of one request. */
  datatype Call = Call(address: string, id: Id, nonce: seq<Byte>, issuedAt: Timestamp, expiresAt: Timestamp)

  datatype Answer = Issued(id: Id, address: string, message: string) | RateLimited(retryAfter: int) | Failed

  function AddressBytes(address: string): seq<nat>
    requires WalletAddress(address)
  {
    LowerHexStays(address[2..]);
    FromHex(LowerAll(address[2..]))
  }

  function AddressKey(c: Call): WindowKey
    requires WalletAddress(c.address)
  {
    KeyAt(AddressMinute, Address(AddressBytes(c.address)), Millis(c.issuedAt))
  }

  function GlobalKey(c: Call): WindowKey { KeyAt(GlobalMinute, Everyone, Millis(c.issuedAt)) }

  function MessageInput(origin: Option<Url>, c: Call): Input
    requires WalletAddress(c.address)
  {
    Input(origin, Normalize(c.address), ToHex(c.nonce), Iso(c.issuedAt), Iso(c.expiresAt), "browser-session")
  }

  function Delay(c: Call, key: WindowKey): int { RetryAfterSeconds(Millis(c.issuedAt), End(key), 60) }

  /** createWalletChallenge up to its commit; every answer but the last rolls back. */
  function Create(db: Db, origin: Option<Url>, policy: Policy, c: Call): (Db, Answer) {
    if !WalletAddress(c.address) || |c.nonce| != 32 then (db, Failed)
    else if Millis(c.expiresAt) - Millis(c.issuedAt) != LIFETIME then (db, Failed)
    else match Reserve(db.windows, AddressKey(c), policy.addressPerMinute)
      case CheckViolation => (db, Failed)
      case Exhausted => (db, RateLimited(Delay(c, AddressKey(c))))
      case Reserved(first) =>
        match Reserve(first, GlobalKey(c), policy.globalPerMinute)
        case CheckViolation => (db, Failed)
        case Exhausted => (db, RateLimited(Delay(c, GlobalKey(c))))
        case Reserved(both) =>
          match Build(MessageInput(origin, c))
          case Err(_) => (db, Failed)
          case Ok(message) =>
            if c.id in db.challenges then (db, Failed)
            else
              (Db(both, db.challenges[c.id := RowFor(c.address, c.nonce, message, c.issuedAt, c.expiresAt)]),
               Issued(c.id, Normalize(c.address), message))
  }

  predicate Expired(row: ChallengeRow, now: int) { Millis(row.expiresAt) <= now - DAY }

  predicate RemovableRows(challenges: map<Id, ChallengeRow>, victims: set<Id>, now: int) {
    |victims| <= CLEANUP_ROWS && victims <= challenges.Keys && forall c :: c in victims ==> Expired(challenges[c], now)
  }

  /** The claiming update of consumeWalletChallenge. */
  function Consume(db: Db, id: Id, now: int, clock: int): (Db, Option<ChallengeRow>) {
    if id !in db.challenges || db.challenges[id].consumedAt.Some? || Millis(db.challenges[id].expiresAt) <= now
    then (db, None)
    else
      var row := db.challenges[id].(consumedAt := Some(Max(Millis(db.challenges[id].issuedAt), clock)));
      (db.(challenges := db.challenges[id := row]), Some(row))
  }

  // ------------------------------------------------------------------ service

  class ChallengeService {
    var db: Db
    const origin: Option<Url>
    const policy: Policy

    constructor (d: Db, o: Option<Url>, p: Policy)
      ensures db == d && origin == o && policy == p
    {
      db, origin, policy := d, o, p;
    }

    method CreateWalletChallenge(c: Call) returns (answer: Answer)
      modifies this
      ensures (db, answer) == Create(old(db), origin, policy, c)
    {
      if !WalletAddress(c.address) || |c.nonce| != 32 { return Failed; }
      if Millis(c.expiresAt) - Millis(c.issuedAt) != LIFETIME { return Failed; }
      var windows := db.windows;
      match Reserve(windows, AddressKey(c), policy.addressPerMinute) {
        case CheckViolation => return Failed;
        case Exhausted => return RateLimited(Delay(c, AddressKey(c)));
        case Reserved(w) => windows := w;
      }
      match Reserve(windows, GlobalKey(c), policy.globalPerMinute) {
        case CheckViolation => return Failed;
        case Exhausted => return RateLimited(Delay(c, GlobalKey(c)));
        case Reserved(w) => windows := w;
      }
      var message := Build(MessageInput(origin, c));
      if message.Err? || c.id in db.challenges { return Failed; }
      var row := RowFor(c.address, c.nonce, message.value, c.issuedAt, c.expiresAt);
      db := Db(windows, db.challenges[c.id := row]);
      answer := Issued(c.id, Normalize(c.address), message.value);
    }

    method ConsumeWalletChallenge(id: Id, now: int, clock: int) returns (hydrated: Option<Hydrated>)
      modifies this
      ensures db == Consume(old(db), id, now, clock).0
      ensures hydrated ==
        match Consume(old(db), id, now, clock).1 case None => None case Some(row) => Hydrate(row, origin)
    {
      if id !in db.challenges { return None; }
      var row := db.challenges[id];
      if row.consumedAt.Some? || Millis(row.expiresAt) <= now { return None; }
      row := row.(consumedAt := Some(Max(Millis(row.issuedAt), clock)));
      db := db.(challenges := db.challenges[id := row]);
      hydrated := Hydrate(row, origin);
    }
  }

  // -------------------------------------------------------------------- world

  /** `spent` counts, by challenge, the consumptions whose session is not decided yet, and
      `sessions` those that became a session; `used` are the ids ever drawn. */
  datatype World = World(db: Db, cleanedTo: int, used: set<Id>, spent: multiset<Id>, sessions: multiset<Id>)

  datatype Step =
    | CreateStep(policy: Policy, call: Call)
    | CleanWindows(keys: set<WindowKey>, now: int)
    | CleanRows(rows: set<Id>, now: int)
    | ConsumeStep(id: Id, now: int, clock: int)
    | Provision(id: Id)
    | Abandon(id: Id)

  function Next(w: World, origin: Option<Url>, step: Step): World {
    match step
    case CreateStep(policy, c) =>
      var db := Create(w.db, origin, policy, c).0;
      w.(db := db, used := if db == w.db then w.used else w.used + {c.id})
    case CleanWindows(keys, now) =>
      w.(db := w.db.(windows := Remove(w.db.windows, keys)), cleanedTo := Max(w.cleanedTo, now))
    case CleanRows(rows, now) =>
      w.(db := w.db.(challenges := w.db.challenges - rows), cleanedTo := Max(w.cleanedTo, now))
    case ConsumeStep(id, now, clock) =>
      var (db, row) := Consume(w.db, id, now, clock);
      w.(db := db, spent := if row.Some? then w.spent + multiset{id} else w.spent)
    case Provision(id) =>
      if id in w.spent then w.(spent := w.spent - multiset{id}, sessions := w.sessions + multiset{id}) else w
    case Abandon(id) => w.(spent := w.spent - multiset{id})
  }

  /** Random challenge ids do not repeat, and cleanups delete what they may. */
  predicate Allowed(w: World, step: Step) {
    match step
    case CreateStep(_, c) => c.id !in w.used
    case CleanWindows(keys, now) => Removable(w.db.windows, keys, now)
    case CleanRows(rows, now) => RemovableRows(w.db.challenges, rows, now)
    case _ => true
  }

  ghost predicate AllAllowed(w: World, origin: Option<Url>, steps: seq<Step>)
    decreases |steps|
  {
    steps == [] || (Allowed(w, steps[0]) && AllAllowed(Next(w, origin, steps[0]), origin, steps[1..]))
  }

  function After(w: World, origin: Option<Url>, steps: seq<Step>): World
    decreases |steps|
  {
    if steps == [] then w else After(Next(w, origin, steps[0]), origin, steps[1..])
  }

  const Start := World(Db(map[], map[]), 0, {}, multiset{}, multiset{})

  // ------------------------------------------------------------------- counts

  function MinuteOf(row: ChallengeRow): int { WindowStart(GlobalMinute, Millis(row.issuedAt)) }

  function IssuedIn(challenges: map<Id, ChallengeRow>, minute: int): set<Id> {
    set c | c in challenges && MinuteOf(challenges[c]) == minute
  }

  function IssuedTo(challenges: map<Id, ChallengeRow>, address: seq<nat>, minute: int): set<Id> {
    set c | c in challenges && MinuteOf(challenges[c]) == minute && challenges[c].address == address
  }

  function AddressKeys(w: Windows, minute: int): set<WindowKey> {
    set k | k in w && k.kind.AddressMinute? && k.start == minute
  }

  ghost function Total(w: Windows, keys: set<WindowKey>): nat
    decreases |keys|
  {
    if keys == {} then 0
    else
      var k :| k in keys;
      Used(w, k) + Total(w, keys - {k})
  }

  lemma {:induction false} TotalWithout(w: Windows, keys: set<WindowKey>, k: WindowKey)
    requires k in keys
    ensures Total(w, keys) == Used(w, k) + Total(w, keys - {k})
    decreases |keys|
  {
    var m :| m in keys && Total(w, keys) == Used(w, m) + Total(w, keys - {m});
    if m != k {
      TotalWithout(w, keys - {m}, k);
      TotalWithout(w, keys - {k}, m);
      assert keys - {m} - {k} == keys - {k} - {m};
    }
  }

  lemma {:induction false} TotalSame(w: Windows, v: Windows, keys: set<WindowKey>)
    requires forall k :: k in keys ==> Used(w, k) == Used(v, k)
    ensures Total(w, keys) == Total(v, keys)
    decreases |keys|
  {
    if keys != {} {
      var k :| k in keys;
      TotalWithout(w, keys, k);
      TotalWithout(v, keys, k);
      TotalSame(w, v, keys - {k});
    }
  }

  /** One more use of one address window is one more in the total. */
  lemma {:induction false} TotalPlusOne(w: Windows, v: Windows, keys: set<WindowKey>, k: WindowKey)
    requires Used(v, k) == Used(w, k) + 1 && (k !in keys ==> Used(w, k) == 0)
    requires forall m :: m in keys && m != k ==> Used(v, m) == Used(w, m)
    ensures Total(v, keys + {k}) == Total(w, keys) + 1
  {
    TotalWithout(v, keys + {k}, k);
    assert keys + {k} - {k} == keys - {k};
    TotalSame(w, v, keys - {k});
    if k in keys {
      TotalWithout(w, keys, k);
    } else {
      assert keys - {k} == keys;
    }
  }

  // --------------------------------------------------------------- invariants

  predicate IsMinute(minute: int) { WindowStart(GlobalMinute, minute) == minute }

  ghost predicate MinuteCounted(w: World, minute: int) {
    var count := Used(w.db.windows, WindowKey(GlobalMinute, Everyone, minute));
    count == |IssuedIn(w.db.challenges, minute)| &&
    count == Total(w.db.windows, AddressKeys(w.db.windows, minute)) &&
    (forall a: seq<nat> ::
      Used(w.db.windows, WindowKey(AddressMinute, Address(a), minute)) == |IssuedTo(w.db.challenges, a, minute)|)
  }

  ghost predicate Counted(w: World) {
    forall minute: int :: IsMinute(minute) && Young(WindowKey(GlobalMinute, Everyone, minute), w.cleanedTo) ==>
      MinuteCounted(w, minute)
  }

  ghost predicate RowsOk(w: World, origin: Option<Url>) {
    forall c :: c in w.db.challenges ==>
      c in w.used && Hydrate(w.db.challenges[c], origin).Some? &&
      Millis(w.db.challenges[c].expiresAt) - Millis(w.db.challenges[c].issuedAt) == LIFETIME
  }

  ghost predicate SpentOnce(w: World) {
    forall c :: w.spent[c] + w.sessions[c] <= 1 &&
      (w.spent[c] + w.sessions[c] > 0 ==>
        c in w.used && (c in w.db.challenges ==> w.db.challenges[c].consumedAt.Some?))
  }

  ghost predicate WorldOk(w: World, origin: Option<Url>) {
    Lawful(w.db.windows) && Counted(w) && RowsOk(w, origin) && SpentOnce(w)
  }

  // -------------------------------------------------------------------- steps

  /** What a successful creation did. */
  ghost predicate Charged(db: Db, after: Db, c: Call) {
    WalletAddress(c.address) && Lawful(after.windows) && c.id !in db.challenges && c.id in after.challenges &&
    after.challenges == db.challenges[c.id := after.challenges[c.id]] &&
    after.challenges[c.id].address == AddressBytes(c.address) && after.challenges[c.id].issuedAt == c.issuedAt &&
    after.challenges[c.id].expiresAt == c.expiresAt && after.challenges[c.id].consumedAt.None? &&
    after.windows.Keys == db.windows.Keys + {AddressKey(c), GlobalKey(c)} &&
    Used(after.windows, AddressKey(c)) == Used(db.windows, AddressKey(c)) + 1 &&
    Used(after.windows, GlobalKey(c)) == Used(db.windows, GlobalKey(c)) + 1 &&
    (forall k :: k != AddressKey(c) && k != GlobalKey(c) ==> Used(after.windows, k) == Used(db.windows, k))
  }

  lemma {:induction false} CreateCharges(db: Db, origin: Option<Url>, policy: Policy, c: Call)
    requires Lawful(db.windows) && Create(db, origin, policy, c).0 != db
    ensures var (after, answer) := Create(db, origin, policy, c);
      Charged(db, after, c) && Hydrate(after.challenges[c.id], origin) ==
        Some(Hydrated(answer.address, answer.message)) &&
      Millis(c.expiresAt) - Millis(c.issuedAt) == LIFETIME && answer.Issued? && answer.id == c.id &&
      answer.address == Normalize(c.address)
  {
    hide Lawful, Build, Iso, Millis, WindowStart, Hydrate, ToHex, FromHex, LowerAll, WalletAddress, Reserve;
    KeyStarts(c);
    ReserveFacts(db.windows, AddressKey(c), policy.addressPerMinute);
    var first := Reserve(db.windows, AddressKey(c), policy.addressPerMinute).windows;
    ReserveFacts(first, GlobalKey(c), policy.globalPerMinute);
    StoredRowHydrates(origin, c.address, c.nonce, c.issuedAt, c.expiresAt, None);
    ReservedKeys(db.windows, AddressKey(c), policy.addressPerMinute);
    ReservedKeys(first, GlobalKey(c), policy.globalPerMinute);
    FreshRow(c, Build(MessageInput(origin, c)).value);
  }

  lemma {:induction false} KeyStarts(c: Call)
    requires WalletAddress(c.address)
    ensures GlobalKey(c).start == WindowStart(GlobalMinute, GlobalKey(c).start)
    ensures AddressKey(c).start == WindowStart(AddressMinute, AddressKey(c).start) == GlobalKey(c).start
  {
    hide Millis, WalletAddress;
  }

  lemma {:induction false} ReservedKeys(w: Windows, key: WindowKey, limit: nat)
    ensures Reserve(w, key, limit).Reserved? ==>
      Reserve(w, key, limit).windows.Keys == w.Keys + {key} &&
      (forall k :: k != key ==> Used(Reserve(w, key, limit).windows, k) == Used(w, k))
  {
  }

  lemma {:induction false} FreshRow(c: Call, message: string)
    requires WalletAddress(c.address)
    ensures var row := RowFor(c.address, c.nonce, message, c.issuedAt, c.expiresAt);
      row.address == AddressBytes(c.address) && row.consumedAt.None?
  {
    hide FromHex, LowerAll;
  }

  /** A refused request leaves both counts as they were. */
  lemma {:induction false} RefusalConsumesNothing(db: Db, origin: Option<Url>, policy: Policy, c: Call)
    ensures Create(db, origin, policy, c).1.Issued? <==> Create(db, origin, policy, c).0 != db
    ensures !Create(db, origin, policy, c).1.Issued? ==> Create(db, origin, policy, c).0.windows == db.windows
  {
    hide Build, Reserve, Millis, WalletAddress, Normalize, WindowStart;
  }

  /** The delay a refused request names leads exactly into the next minute. */
  lemma {:induction false} RefusalNamesDelay(db: Db, origin: Option<Url>, policy: Policy, c: Call)
    ensures var answer := Create(db, origin, policy, c).1;
      answer.RateLimited? ==>
        1 <= answer.retryAfter <= 60 &&
        WindowStart(GlobalMinute, Millis(c.issuedAt) + 1_000 * answer.retryAfter) ==
          WindowStart(GlobalMinute, Millis(c.issuedAt)) + MINUTE
  {
    hide Build, Reserve, Millis, WalletAddress, WindowStart, RetryAfterSeconds;
    DelayIsLeast(GlobalMinute, Millis(c.issuedAt));
    if WalletAddress(c.address) { KeyStarts(c); }
  }

  lemma {:induction false} CreateCounts(w: World, origin: Option<Url>, c: Call, after: Db, minute: int)
    requires Lawful(w.db.windows) && MinuteCounted(w, minute) && Charged(w.db, after, c) && IsMinute(minute)
    ensures MinuteCounted(w.(db := after), minute)
  {
    hide WalletAddress, Millis, WindowStart, AddressBytes, Lawful, Total, IssuedIn, IssuedTo, AddressKeys;
    KeyStarts(c);
    NewIn(w.db.challenges, after.challenges, c, minute);
    forall a: seq<nat>
      ensures Used(after.windows, WindowKey(AddressMinute, Address(a), minute)) ==
        |IssuedTo(after.challenges, a, minute)|
    {
      NewTo(w.db.challenges, after.challenges, c, a, minute);
    }
    NewTotal(w.db, after, c, minute);
  }

  lemma {:induction false} NewTotal(db: Db, after: Db, c: Call, minute: int)
    requires Charged(db, after, c)
    ensures Total(after.windows, AddressKeys(after.windows, minute)) ==
      Total(db.windows, AddressKeys(db.windows, minute)) + (if GlobalKey(c).start == minute then 1 else 0)
  {
    hide WalletAddress, Millis, WindowStart, AddressBytes, Lawful, Total;
    KeyStarts(c);
    var before, now := AddressKeys(db.windows, minute), AddressKeys(after.windows, minute);
    if GlobalKey(c).start == minute {
      assert now == before + {AddressKey(c)};
      TotalPlusOne(db.windows, after.windows, before, AddressKey(c));
    } else {
      assert now == before;
      TotalSame(db.windows, after.windows, before);
    }
  }

  lemma {:induction false} NewIn(before: map<Id, ChallengeRow>, after: map<Id, ChallengeRow>, c: Call, minute: int)
    requires c.id !in before && c.id in after && after == before[c.id := after[c.id]] &&
      after[c.id].issuedAt == c.issuedAt
    ensures |IssuedIn(after, minute)| == |IssuedIn(before, minute)| + (if GlobalKey(c).start == minute then 1 else 0)
  {
    hide WindowStart, Millis;
    if GlobalKey(c).start == minute {
      assert IssuedIn(after, minute) == IssuedIn(before, minute) + {c.id};
    } else {
      assert IssuedIn(after, minute) == IssuedIn(before, minute);
    }
  }

  lemma {:induction false} NewTo(before: map<Id, ChallengeRow>, after: map<Id, ChallengeRow>, c: Call, a: seq<nat>,
      minute: int)
    requires c.id !in before && c.id in after && after == before[c.id := after[c.id]] &&
      after[c.id].issuedAt == c.issuedAt
    ensures |IssuedTo(after, a, minute)| ==
      |IssuedTo(before, a, minute)| + (if GlobalKey(c).start == minute && after[c.id].address == a then 1 else 0)
  {
    hide WindowStart, Millis;
    if GlobalKey(c).start == minute && after[c.id].address == a {
      assert IssuedTo(after, a, minute) == IssuedTo(before, a, minute) + {c.id};
    } else {
      assert IssuedTo(after, a, minute) == IssuedTo(before, a, minute);
    }
  }

  lemma {:induction false} CreateStepKeeps(w: World, origin: Option<Url>, policy: Policy, c: Call)
    requires WorldOk(w, origin) && c.id !in w.used
    ensures WorldOk(Next(w, origin, CreateStep(policy, c)), origin)
  {
    hide Lawful, MinuteCounted, Create, Hydrate, Millis, WindowStart;
    var after := Create(w.db, origin, policy, c).0;
    if after != w.db {
      CreateCharges(w.db, origin, policy, c);
      var t := Next(w, origin, CreateStep(policy, c));
      forall minute: int | IsMinute(minute) && Young(WindowKey(GlobalMinute, Everyone, minute), w.cleanedTo)
        ensures MinuteCounted(t, minute)
      {
        CreateCounts(w, origin, c, after, minute);
        OnlyDb(w.(db := after), t, minute);
      }
    }
  }

  lemma {:induction false} OnlyDb(w: World, t: World, minute: int)
    requires w.db == t.db && MinuteCounted(w, minute)
    ensures MinuteCounted(t, minute)
  {
  }

  lemma {:induction false} CleanWindowsKeeps(w: World, origin: Option<Url>, keys: set<WindowKey>, now: int)
    requires WorldOk(w, origin) && Removable(w.db.windows, keys, now)
    ensures WorldOk(Next(w, origin, CleanWindows(keys, now)), origin)
  {
    hide Lawful, Hydrate, Removable;
    RemoveFacts(w.db.windows, keys, now);
    var t := Next(w, origin, CleanWindows(keys, now));
    forall minute: int | IsMinute(minute) && Young(WindowKey(GlobalMinute, Everyone, minute), t.cleanedTo)
      ensures MinuteCounted(t, minute)
    {
      assert MinuteCounted(w, minute);
      forall k: WindowKey | (k.kind.AddressMinute? || k.kind.GlobalMinute?) && k.start == minute
        ensures (k in t.db.windows <==> k in w.db.windows) && Used(t.db.windows, k) == Used(w.db.windows, k)
      {
        assert Young(k, t.cleanedTo);
      }
      assert AddressKeys(t.db.windows, minute) == AddressKeys(w.db.windows, minute);
      TotalSame(w.db.windows, t.db.windows, AddressKeys(w.db.windows, minute));
    }
  }

  /** A challenge of a young minute expires too late for the cleanup. */
  lemma {:induction false} YoungRowsStay(w: World, rows: set<Id>, now: int, minute: int, origin: Option<Url>)
    requires RowsOk(w, origin) && RemovableRows(w.db.challenges, rows, now)
    requires Young(WindowKey(GlobalMinute, Everyone, minute), now)
    ensures forall c :: c in IssuedIn(w.db.challenges, minute) ==> c !in rows
  {
    hide Millis, Hydrate;
    forall c | c in IssuedIn(w.db.challenges, minute) ensures c !in rows {
      assert Millis(w.db.challenges[c].expiresAt) - Millis(w.db.challenges[c].issuedAt) == LIFETIME;
      assert minute <= Millis(w.db.challenges[c].issuedAt) < minute + MINUTE;
    }
  }

  lemma {:induction false} CleanRowsKeeps(w: World, origin: Option<Url>, rows: set<Id>, now: int)
    requires WorldOk(w, origin) && RemovableRows(w.db.challenges, rows, now)
    ensures WorldOk(Next(w, origin, CleanRows(rows, now)), origin)
  {
    hide Lawful, Hydrate, RemovableRows, Millis, Total, MinuteOf;
    var t := Next(w, origin, CleanRows(rows, now));
    forall minute: int | IsMinute(minute) && Young(WindowKey(GlobalMinute, Everyone, minute), t.cleanedTo)
      ensures MinuteCounted(t, minute)
    {
      assert MinuteCounted(w, minute);
      YoungRowsStay(w, rows, now, minute, origin);
      assert IssuedIn(t.db.challenges, minute) == IssuedIn(w.db.challenges, minute);
      forall a: seq<nat> ensures IssuedTo(t.db.challenges, a, minute) == IssuedTo(w.db.challenges, a, minute) {
        assert IssuedTo(w.db.challenges, a, minute) <= IssuedIn(w.db.challenges, minute);
      }
    }
  }

  lemma {:induction false} ConsumedHydrates(row: ChallengeRow, at: Option<int>, origin: Option<Url>)
    ensures Hydrate(row.(consumedAt := at), origin) == Hydrate(row, origin)
  {
    hide Build, ToHex;
  }

  lemma {:induction false} ConsumeKeeps(w: World, origin: Option<Url>, id: Id, now: int, clock: int)
    requires WorldOk(w, origin)
    ensures WorldOk(Next(w, origin, ConsumeStep(id, now, clock)), origin)
  {
    hide Lawful, Hydrate, Millis, Total, WindowStart;
    var t := Next(w, origin, ConsumeStep(id, now, clock));
    if t != w {
      ConsumedHydrates(w.db.challenges[id], t.db.challenges[id].consumedAt, origin);
      forall minute: int | IsMinute(minute) && Young(WindowKey(GlobalMinute, Everyone, minute), t.cleanedTo)
        ensures MinuteCounted(t, minute)
      {
        assert MinuteCounted(w, minute);
        assert IssuedIn(t.db.challenges, minute) == IssuedIn(w.db.challenges, minute);
        forall a: seq<nat> ensures IssuedTo(t.db.challenges, a, minute) == IssuedTo(w.db.challenges, a, minute) {
        }
      }
    }
  }

  lemma {:induction false} DecideKeeps(w: World, origin: Option<Url>, step: Step)
    requires WorldOk(w, origin) && (step.Provision? || step.Abandon?)
    ensures WorldOk(Next(w, origin, step), origin)
  {
    hide Lawful, Hydrate, Millis, MinuteCounted;
    var t := Next(w, origin, step);
    forall minute: int | IsMinute(minute) && Young(WindowKey(GlobalMinute, Everyone, minute), t.cleanedTo)
      ensures MinuteCounted(t, minute)
    {
      OnlyDb(w, t, minute);
    }
  }

  lemma {:induction false} WorldStep(w: World, origin: Option<Url>, step: Step)
    requires WorldOk(w, origin) && Allowed(w, step)
    ensures WorldOk(Next(w, origin, step), origin)
  {
    hide WorldOk, Next;
    match step {
      case CreateStep(policy, c) => CreateStepKeeps(w, origin, policy, c);
      case CleanWindows(keys, now) => CleanWindowsKeeps(w, origin, keys, now);
      case CleanRows(rows, now) => CleanRowsKeeps(w, origin, rows, now);
      case ConsumeStep(id, now, clock) => ConsumeKeeps(w, origin, id, now, clock);
      case Provision(id) => DecideKeeps(w, origin, step);
      case Abandon(id) => DecideKeeps(w, origin, step);
    }
  }

  lemma {:induction false} WorldRun(w: World, origin: Option<Url>, steps: seq<Step>)
    requires WorldOk(w, origin) && AllAllowed(w, origin, steps)
    ensures WorldOk(After(w, origin, steps), origin)
    decreases |steps|
  {
    hide WorldOk, Next, Allowed;
    if steps != [] {
      WorldStep(w, origin, steps[0]);
      WorldRun(Next(w, origin, steps[0]), origin, steps[1..]);
    }
  }

  lemma {:induction false} StartOk(origin: Option<Url>)
    ensures WorldOk(Start, origin)
  {
    forall minute: int ensures MinuteCounted(Start, minute) {
      assert AddressKeys(Start.db.windows, minute) == {};
      assert IssuedIn(Start.db.challenges, minute) == {};
      forall a: seq<nat> ensures IssuedTo(Start.db.challenges, a, minute) == {} {
      }
    }
  }

  // ----------------------------------------------------------------- theorems

  /** In every reachable state and for every minute too young for cleanup, the global
      count is the number of challenges issued in it and the sum of its address counts,
      and every count is at most its stored limit. */
  lemma {:induction false} CountsAgree(origin: Option<Url>, steps: seq<Step>, minute: int, address: seq<nat>)
    requires AllAllowed(Start, origin, steps) && IsMinute(minute)
    requires Young(WindowKey(GlobalMinute, Everyone, minute), After(Start, origin, steps).cleanedTo)
    ensures var db := After(Start, origin, steps).db;
      var everyone, one := WindowKey(GlobalMinute, Everyone, minute),
        WindowKey(AddressMinute, Address(address), minute);
      Used(db.windows, everyone) == |IssuedIn(db.challenges, minute)| &&
      Used(db.windows, everyone) == Total(db.windows, AddressKeys(db.windows, minute)) &&
      Used(db.windows, one) == |IssuedTo(db.challenges, address, minute)| &&
      (everyone in db.windows ==> |IssuedIn(db.challenges, minute)| <= db.windows[everyone].limit) &&
      (one in db.windows ==> |IssuedTo(db.challenges, address, minute)| <= db.windows[one].limit)
  {
    hide Next, Allowed, RowsOk, SpentOnce, Total, WindowStart;
    StartOk(origin);
    WorldRun(Start, origin, steps);
    assert MinuteCounted(After(Start, origin, steps), minute);
  }

  /** However requests race, a challenge becomes at most one session; while it is stored it
      hydrates, and only until it has expired and once can it be consumed. */
  lemma {:induction false} OneSessionPerChallenge(origin: Option<Url>, steps: seq<Step>, id: Id, now: int, clock: int)
    requires AllAllowed(Start, origin, steps)
    ensures var w := After(Start, origin, steps);
      w.sessions[id] <= 1 &&
      (id in w.db.challenges ==> Hydrate(w.db.challenges[id], origin).Some?) &&
      (Consume(w.db, id, now, clock).1.Some? ==>
        w.sessions[id] + w.spent[id] == 0 && now < Millis(w.db.challenges[id].expiresAt)) &&
      Consume(Consume(w.db, id, now, clock).0, id, now, clock).1.None?
  {
    hide Next, Allowed, Counted, Lawful, Hydrate, Millis;
    StartOk(origin);
    WorldRun(Start, origin, steps);
    var w := After(Start, origin, steps);
    assert w.spent[id] + w.sessions[id] <= 1;
  }

  // ----------------------------------------------------------- what is granted

  /** The minute windows of a request have room under their stored or configured limits. */
  predicate HasRoom(w: Windows, policy: Policy, c: Call)
    requires WalletAddress(c.address)
  {
    Used(w, AddressKey(c)) < LimitOf(w, AddressKey(c), policy.addressPerMinute) &&
    Used(w, GlobalKey(c)) < LimitOf(w, GlobalKey(c), policy.globalPerMinute)
  }

  /** A request is issued a challenge exactly for a wallet address, a nonce of 32 bytes and a
      life of five minutes, at a root HTTPS origin of bounded length, under a new id, while
      both windows have room; the answer is its own. */
  lemma {:induction false} IssuedIff(db: Db, u: Url, policy: Policy, c: Call)
    requires Lawful(db.windows) && ValidTime(c.issuedAt) && ValidTime(c.expiresAt)
    ensures Create(db, Some(u), policy, c).1.Issued? <==>
      WalletAddress(c.address) && |c.nonce| == 32 && Millis(c.expiresAt) - Millis(c.issuedAt) == 300_000 &&
      RootOrigin(u) && |u.host| <= 3_929 && c.id !in db.challenges && HasRoom(db.windows, policy, c)
    ensures Create(db, Some(u), policy, c).1.Issued? ==>
      Create(db, Some(u), policy, c).1.id == c.id && Create(db, Some(u), policy, c).1.address == Normalize(c.address)
  {
    hide Lawful, Build, Iso, Millis, WindowStart, ToHex, FromHex, LowerAll, WalletAddress, Reserve, Normalize, Used,
      LimitOf, RootOrigin, ServerNonce;
    if WalletAddress(c.address) && |c.nonce| == 32 {
      KeyStarts(c);
      ReserveFacts(db.windows, AddressKey(c), policy.addressPerMinute);
      if Reserve(db.windows, AddressKey(c), policy.addressPerMinute).Reserved? {
        var first := Reserve(db.windows, AddressKey(c), policy.addressPerMinute).windows;
        ReserveFacts(first, GlobalKey(c), policy.globalPerMinute);
        OtherWindow(db.windows, first, AddressKey(c), GlobalKey(c), policy.globalPerMinute);
      }
      AddressStays(c.address);
      HexNonce(c.nonce);
      BuiltExactly(u, Normalize(c.address), ToHex(c.nonce), c.issuedAt, c.expiresAt);
    }
  }

  lemma {:induction false} OtherWindow(w: Windows, v: Windows, k: WindowKey, m: WindowKey, limit: nat)
    requires k != m && forall x :: x != k ==> (x in v <==> x in w) && (x in w ==> v[x] == w[x])
    ensures Used(v, m) == Used(w, m) && LimitOf(v, m, limit) == LimitOf(w, m, limit)
    ensures Exhausts(v, m) == Exhausts(w, m)
  {
  }

  lemma {:induction false} AddressStays(address: string)
    requires WalletAddress(address)
    ensures WalletAddress(Normalize(address))
  {
    LowerHexStays(address[2..]);
  }

  lemma {:induction false} HexNonce(nonce: seq<Byte>)
    requires |nonce| == 32
    ensures ServerNonce(ToHex(nonce))
  {
    ToHexShape(nonce);
  }

  /** The window exists and has reached its limit. */
  predicate Exhausts(w: Windows, key: WindowKey) { key in w && w[key].used >= w[key].limit }

  /** A well-formed request is told to wait exactly when its address's window has reached its
      limit, or has room and the global one has reached its own; then until the next minute. */
  lemma {:induction false} LimitedIff(db: Db, origin: Option<Url>, policy: Policy, c: Call)
    requires Lawful(db.windows)
    ensures Create(db, origin, policy, c).1.RateLimited? <==>
      WalletAddress(c.address) && |c.nonce| == 32 && Millis(c.expiresAt) - Millis(c.issuedAt) == 300_000 &&
      (Exhausts(db.windows, AddressKey(c)) ||
       (Used(db.windows, AddressKey(c)) < LimitOf(db.windows, AddressKey(c), policy.addressPerMinute) &&
        Exhausts(db.windows, GlobalKey(c))))
    ensures Create(db, origin, policy, c).1.RateLimited? ==>
      Create(db, origin, policy, c).1.retryAfter ==
        RetryAfterSeconds(Millis(c.issuedAt), WindowStart(GlobalMinute, Millis(c.issuedAt)) + 60_000, 60)
  {
    hide Lawful, Build, Iso, Millis, WindowStart, ToHex, FromHex, LowerAll, WalletAddress, Reserve, Normalize, Used,
      LimitOf, RetryAfterSeconds, Exhausts;
    if WalletAddress(c.address) {
      KeyStarts(c);
      ReserveFacts(db.windows, AddressKey(c), policy.addressPerMinute);
      ReserveFails(db.windows, AddressKey(c), policy.addressPerMinute);
      if Reserve(db.windows, AddressKey(c), policy.addressPerMinute).Reserved? {
        var first := Reserve(db.windows, AddressKey(c), policy.addressPerMinute).windows;
        ReserveFacts(first, GlobalKey(c), policy.globalPerMinute);
        ReserveFails(first, GlobalKey(c), policy.globalPerMinute);
        OtherWindow(db.windows, first, AddressKey(c), GlobalKey(c), policy.globalPerMinute);
      }
    }
  }

  lemma {:induction false} ReserveFails(w: Windows, key: WindowKey, limit: nat)
    ensures Reserve(w, key, limit).Exhausted? <==> Exhausts(w, key)
  {
  }

  /** A cleanup may take up to a hundred stored challenges that expired a day ago. */
  lemma {:induction false} RowsRemovableIff(challenges: map<Id, ChallengeRow>, victims: set<Id>, now: int)
    requires victims <= challenges.Keys
    ensures RemovableRows(challenges, victims, now) <==>
      |victims| <= 100 && forall c :: c in victims ==> Millis(challenges[c].expiresAt) + 86_400_000 <= now
  {
    hide Millis;
  }

  /** What a cleanup deletes is gone, and nothing else. */
  lemma {:induction false} CleanupDeletes(w: World, origin: Option<Url>, keys: set<WindowKey>, rows: set<Id>, now: int)
    requires Allowed(w, CleanWindows(keys, now)) && Allowed(w, CleanRows(rows, now))
    ensures Next(w, origin, CleanWindows(keys, now)).db.windows.Keys == w.db.windows.Keys - keys
    ensures Next(w, origin, CleanRows(rows, now)).db.challenges.Keys == w.db.challenges.Keys - rows
    ensures |rows| <= 100 && forall c :: c in rows ==> Millis(w.db.challenges[c].expiresAt) + 86_400_000 <= now
  {
    hide Millis;
  }

  /** A challenge can be consumed exactly while it is stored, unconsumed and not expired. */
  lemma {:induction false} ConsumedIff(db: Db, id: Id, now: int, clock: int)
    ensures Consume(db, id, now, clock).1.Some? <==>
      id in db.challenges && db.challenges[id].consumedAt == None && now < Millis(db.challenges[id].expiresAt)
    ensures Consume(db, id, now, clock).1.Some? ==>
      var row := Consume(db, id, now, clock).1.value;
      Consume(db, id, now, clock).0 == db.(challenges := db.challenges[id := row]) &&
      row == db.challenges[id].(consumedAt := row.consumedAt) && row.consumedAt.Some? &&
      row.consumedAt.value >= Millis(row.issuedAt)
  {
    hide Millis;
  }

  /** Nothing consumes the challenge, and no cleanup runs a day after its expiry. */
  predicate Spares(step: Step, id: Id, expiry: int) {
    match step
    case ConsumeStep(other, _, _) => other != id
    case CleanRows(_, now) => now < expiry + DAY
    case _ => true
  }

  lemma {:induction false} ChallengeStep(w: World, origin: Option<Url>, step: Step, id: Id)
    requires Allowed(w, step) && id in w.db.challenges && Spares(step, id, Millis(w.db.challenges[id].expiresAt))
    ensures var t := Next(w, origin, step); id in t.db.challenges && t.db.challenges[id] == w.db.challenges[id]
  {
    hide Millis, Create, Removable;
    if step.CreateStep? { CreateOnlyAdds(w.db, origin, step.policy, step.call); }
  }

  lemma {:induction false} CreateOnlyAdds(db: Db, origin: Option<Url>, policy: Policy, c: Call)
    ensures forall id :: id in db.challenges ==>
      id in Create(db, origin, policy, c).0.challenges &&
      Create(db, origin, policy, c).0.challenges[id] == db.challenges[id]
  {
    hide Build, Reserve, Millis, WalletAddress, Normalize, WindowStart, RowFor, ToHex, Iso;
  }

  lemma {:induction false} ChallengeStays(w: World, origin: Option<Url>, steps: seq<Step>, id: Id)
    requires AllAllowed(w, origin, steps) && id in w.db.challenges
    requires forall step :: step in steps ==> Spares(step, id, Millis(w.db.challenges[id].expiresAt))
    ensures var t := After(w, origin, steps); id in t.db.challenges && t.db.challenges[id] == w.db.challenges[id]
    decreases |steps|
  {
    hide Next, Allowed, Spares, Millis;
    if steps != [] {
      assert steps[0] in steps;
      ChallengeStep(w, origin, steps[0], id);
      ChallengeStays(Next(w, origin, steps[0]), origin, steps[1..], id);
    }
  }

  /** Whatever else happens in between, a challenge that was issued is consumed by the first
      call before its expiry, for the address and message it was issued with, and by no
      second one. */
  lemma {:induction false} IssuedIsConsumedOnce(origin: Option<Url>, before: seq<Step>, policy: Policy, c: Call,
      between: seq<Step>, now: int, clock: int, later: int)
    requires AllAllowed(Start, origin, before) && c.id !in After(Start, origin, before).used
    requires Create(After(Start, origin, before).db, origin, policy, c).1.Issued? && now < Millis(c.expiresAt)
    requires AllAllowed(Next(After(Start, origin, before), origin, CreateStep(policy, c)), origin, between)
    requires forall step :: step in between ==> Spares(step, c.id, Millis(c.expiresAt))
    ensures var w := After(Start, origin, before); var answer := Create(w.db, origin, policy, c).1;
      var t := After(Next(w, origin, CreateStep(policy, c)), origin, between);
      var (db, row) := Consume(t.db, c.id, now, clock);
      row.Some? && Hydrate(row.value, origin) == Some(Hydrated(answer.address, answer.message)) &&
      Consume(db, c.id, later, clock).1.None? &&
      Next(Next(t, origin, ConsumeStep(c.id, now, clock)), origin, Provision(c.id)).sessions[c.id] == 1
  {
    hide Next, Allowed, Counted, Lawful, Hydrate, Millis, RowsOk, SpentOnce, Create, Spares;
    StartOk(origin);
    WorldRun(Start, origin, before);
    var w := After(Start, origin, before);
    RefusalConsumesNothing(w.db, origin, policy, c);
    WorldLawful(w, origin);
    CreateCharges(w.db, origin, policy, c);
    CreatedWorld(w, origin, policy, c);
    var u := Next(w, origin, CreateStep(policy, c));
    ChallengeStays(u, origin, between, c.id);
    var t := After(u, origin, between);
    ConsumedIff(t.db, c.id, now, clock);
    var (db, row) := Consume(t.db, c.id, now, clock);
    ConsumedIff(db, c.id, later, clock);
    ConsumedHydrates(t.db.challenges[c.id], row.value.consumedAt, origin);
    NewIdAllowed(w, policy, c);
    SessionsBound(w, origin, CreateStep(policy, c), between, c.id);
    BecomesSession(t, origin, c.id, now, clock);
  }

  lemma {:induction false} NewIdAllowed(w: World, policy: Policy, c: Call)
    requires c.id !in w.used
    ensures Allowed(w, CreateStep(policy, c))
  {
  }

  /** Until a challenge is consumed no session comes of it. */
  lemma {:induction false} SessionsBound(w: World, origin: Option<Url>, step: Step, steps: seq<Step>, id: Id)
    requires WorldOk(w, origin) && Allowed(w, step) && AllAllowed(Next(w, origin, step), origin, steps)
    requires var t := After(Next(w, origin, step), origin, steps);
      id in t.db.challenges && t.db.challenges[id].consumedAt.None?
    ensures var t := After(Next(w, origin, step), origin, steps); t.spent[id] == 0 && t.sessions[id] == 0
  {
    hide Next, Allowed, Counted, Lawful, RowsOk;
    WorldStep(w, origin, step);
    WorldRun(Next(w, origin, step), origin, steps);
    var t := After(Next(w, origin, step), origin, steps);
    assert t.spent[id] + t.sessions[id] == 0;
  }

  lemma {:induction false} BecomesSession(t: World, origin: Option<Url>, id: Id, now: int, clock: int)
    requires Consume(t.db, id, now, clock).1.Some? && t.spent[id] == 0 && t.sessions[id] == 0
    ensures Next(Next(t, origin, ConsumeStep(id, now, clock)), origin, Provision(id)).sessions[id] == 1
  {
    hide Consume;
  }

  lemma {:induction false} WorldLawful(w: World, origin: Option<Url>)
    requires WorldOk(w, origin)
    ensures Lawful(w.db.windows)
  {
  }

  lemma {:induction false} CreatedWorld(w: World, origin: Option<Url>, policy: Policy, c: Call)
    ensures Next(w, origin, CreateStep(policy, c)).db == Create(w.db, origin, policy, c).0
  {
  }
}
