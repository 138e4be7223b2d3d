/**
 The shared table of quota counters (apps/api/db/migrations/008_persisted_admission_quotas.sql)
 with the one statement that reserves from it and the one that cleans it, as used by
 apps/api/src/production-service.ts and apps/api/src/wallet-session-service.ts.
 Times are milliseconds.
*/
module QuotaWindows {
  import opened Wrappers

  datatype QuotaKind = AddressMinute | GlobalMinute | RunDay | ActiveLive

  /** A subject stands for the digest of its domain and name, taken as injective. */
  datatype Subject = Project(id: nat) | Address(bytes: seq<nat>) | Everyone

  datatype WindowKey = WindowKey(kind: QuotaKind, subject: Subject, start: int)

  datatype Window = Window(limit: nat, used: nat)

  type Windows = map<WindowKey, Window>

  const MINUTE := 60_000
  const DAY := 86_400_000
  const CLEANUP_ROWS := 100

  function Length(kind: QuotaKind): int {
    if kind.AddressMinute? || kind.GlobalMinute? then MINUTE else DAY
  }

  /** date_trunc: Dafny's remainder is never negative, so this is the floor. */
  function WindowStart(kind: QuotaKind, now: int): int { now - now % Length(kind) }

  function KeyAt(kind: QuotaKind, subject: Subject, now: int): WindowKey {
    WindowKey(kind, subject, WindowStart(kind, now))
  }

  function End(key: WindowKey): int { key.start + Length(key.kind) }

  /** The table's own checks. */
  ghost predicate Lawful(w: Windows) {
    forall k :: k in w ==>
      k.start == WindowStart(k.kind, k.start) && w[k].limit > 0 &&
      (if k.kind.ActiveLive? then w[k].used == 0 else 1 <= w[k].used <= w[k].limit)
  }

  datatype Reservation = Reserved(windows: Windows) | Exhausted | CheckViolation

  /** INSERT ... ON CONFLICT DO UPDATE SET used_count = used_count + 1 WHERE used_count < limit_value. */
  function Reserve(w: Windows, key: WindowKey, limit: nat): Reservation {
    if key in w then
      if w[key].used < w[key].limit then Reserved(w[key := w[key].(used := w[key].used + 1)])
      else Exhausted
    else if limit == 0 then CheckViolation
    else Reserved(w[key := Window(limit, 1)])
  }

  /** The count a window has reached; a window never reserved from has none. */
  function Used(w: Windows, key: WindowKey): nat { if key in w then w[key].used else 0 }

  /** The limit that counts: the stored one, which is the first writer's. */
  function LimitOf(w: Windows, key: WindowKey, limit: nat): nat { if key in w then w[key].limit else limit }

  function Remove(w: Windows, victims: set<WindowKey>): Windows {
    map k | k in w && k !in victims :: w[k]
  }

  /** What one cleanup may delete: at most 100 windows that ended a day ago. Any such set:
      locked rows are skipped. */
  predicate Removable(w: Windows, victims: set<WindowKey>, now: int) {
    |victims| <= CLEANUP_ROWS && victims <= w.Keys && forall k :: k in victims ==> End(k) <= now - DAY
  }

  /** A window that no cleanup up to this time can have deleted. */
  predicate Young(key: WindowKey, cleanedTo: int) { End(key) > cleanedTo - DAY }

  lemma {:induction false} ReserveFacts(w: Windows, key: WindowKey, limit: nat)
    requires Lawful(w) && key.start == WindowStart(key.kind, key.start) && !key.kind.ActiveLive?
    ensures Reserve(w, key, limit).Reserved? <==> Used(w, key) < LimitOf(w, key, limit)
    ensures Reserve(w, key, limit).Reserved? ==>
      var v := Reserve(w, key, limit).windows;
      Lawful(v) && Used(v, key) == Used(w, key) + 1 && v[key].limit == LimitOf(w, key, limit) &&
      (forall k :: k != key ==> (k in v <==> k in w) && (k in w ==> v[k] == w[k]))
  {
  }

  lemma {:induction false} RemoveFacts(w: Windows, victims: set<WindowKey>, now: int)
    requires Lawful(w) && Removable(w, victims, now)
    ensures Lawful(Remove(w, victims))
    ensures forall k, cleanedTo :: now <= cleanedTo && Young(k, cleanedTo) ==>
      (k in Remove(w, victims) <==> k in w) && (k in w ==> Remove(w, victims)[k] == w[k])
  {
    forall k, cleanedTo | now <= cleanedTo && Young(k, cleanedTo) ensures k !in victims {
    }
  }

  /** A window holds its times: those of one minute for challenges, of one UTC day for runs
      and live runs. */
  lemma {:induction false} WindowHolds(kind: QuotaKind, now: int)
    ensures var key := KeyAt(kind, Everyone, now);
      key.kind == kind && key.start <= now < End(key) &&
      (if kind == AddressMinute || kind == GlobalMinute
       then End(key) == key.start + 60_000 && key.start % 60_000 == 0
       else End(key) == key.start + 86_400_000 && key.start % 86_400_000 == 0)
  {
    MinuteOf(MINUTE * (now / MINUTE), now / MINUTE, 0);
    DayOf(DAY * (now / DAY), now / DAY, 0);
  }

  /** A cleanup may take up to a hundred windows that ended a day ago, and takes those only. */
  lemma {:induction false} CleanupIs(w: Windows, victims: set<WindowKey>, now: int)
    requires victims <= w.Keys
    ensures Removable(w, victims, now) <==>
      |victims| <= 100 && forall k :: k in victims ==> k.start + Length(k.kind) + 86_400_000 <= now
    ensures Remove(w, victims).Keys == w.Keys - victims
    ensures forall k :: k in w && k !in victims ==> Remove(w, victims)[k] == w[k]
  {
  }

  // -------------------------------------------------------------- retry delay

  /** Math.ceil(milliseconds / 1000) */
  function CeilSeconds(milliseconds: int): int { -((-milliseconds) / 1_000) }

  /** quotaRetryAfterSeconds and boundedRetryAfterSeconds. */
  function RetryAfterSeconds(now: int, windowEnd: int, maximum: int): int {
    Max(1, Min(maximum, CeilSeconds(windowEnd - now)))
  }

  function Maximum(kind: QuotaKind): int { if Length(kind) == MINUTE then 60 else 86_400 }

  /** Waiting the delay ends in the next window exactly; one second less is too short. */
  lemma {:induction false} DelayIsLeast(kind: QuotaKind, now: int)
    ensures var d := RetryAfterSeconds(now, WindowStart(kind, now) + Length(kind), Maximum(kind));
      1 <= d <= Maximum(kind) &&
      WindowStart(kind, now + 1_000 * d) == WindowStart(kind, now) + Length(kind) &&
      (d > 1 ==> WindowStart(kind, now + 1_000 * (d - 1)) == WindowStart(kind, now))
  {
    var offset := now % Length(kind);
    var d := RetryAfterSeconds(now, now - offset + Length(kind), Maximum(kind));
    CeilBounds(Length(kind) - offset);
    if Length(kind) == MINUTE {
      MinuteOf(now + 1_000 * d, now / MINUTE + 1, offset + 1_000 * d - MINUTE);
      if d > 1 { MinuteOf(now + 1_000 * (d - 1), now / MINUTE, offset + 1_000 * (d - 1)); }
    } else {
      DayOf(now + 1_000 * d, now / DAY + 1, offset + 1_000 * d - DAY);
      if d > 1 { DayOf(now + 1_000 * (d - 1), now / DAY, offset + 1_000 * (d - 1)); }
    }
  }

  lemma {:induction false} CeilBounds(milliseconds: int)
    ensures 1_000 * CeilSeconds(milliseconds) - 1_000 < milliseconds <= 1_000 * CeilSeconds(milliseconds)
  {
  }

  lemma {:induction false} MinuteOf(t: int, minute: int, rest: int)
    requires t == MINUTE * minute + rest && 0 <= rest < MINUTE
    ensures t % MINUTE == rest && t / MINUTE == minute
  {
  }

  lemma {:induction false} DayOf(t: int, day: int, rest: int)
    requires t == DAY * day + rest && 0 <= rest < DAY
    ensures t % DAY == rest && t / DAY == day
  {
  }
}
