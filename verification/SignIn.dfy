/**
 The sign-in message of apps/api/src/wallet-auth.ts (section "ABNF Message Format" of
 EIP-4361), the timestamps of packages/contracts/src/auth-timestamp.ts, and the check
 of a stored challenge against its message in apps/api/src/wallet-session-service.ts.
*/
module SignIn {
  import opened Wrappers
  import opened RetryAfter

  // --------------------------------------------------------------- timestamps

  /** A millisecond in UTC, by its calendar fields. */
  datatype Timestamp = Timestamp(
    year: nat, month: nat, day: nat, hour: nat, minute: nat, second: nat, milli: nat)

  predicate Leap(year: nat) { year % 4 == 0 && (year % 100 != 0 || year % 400 == 0) }

  function DaysIn(year: nat, month: nat): nat {
    if month == 2 then (if Leap(year) then 29 else 28)
    else if month == 4 || month == 6 || month == 9 || month == 11 then 30 else 31
  }

  predicate ValidTime(t: Timestamp) {
    t.year <= 9999 && 1 <= t.month <= 12 && 1 <= t.day <= DaysIn(t.year, t.month) &&
    t.hour < 24 && t.minute < 60 && t.second < 60 && t.milli < 1000
  }

  function DaysBefore(year: nat, month: nat): nat {
    if month <= 1 then 365 * year + (year + 3) / 4 - (year + 99) / 100 + (year + 399) / 400
    else DaysBefore(year, month - 1) + DaysIn(year, month - 1)
  }

  /** getTime: milliseconds since the first of January 1970. */
  function Millis(t: Timestamp): int {
    ((DaysBefore(t.year, t.month) - 719_528 + t.day - 1) * 24 + t.hour) * 3_600_000 +
    (t.minute * 60 + t.second) * 1_000 + t.milli
  }

  /** The same time of the next day, by the calendar. */
  function Tomorrow(t: Timestamp): Timestamp {
    if t.day < DaysIn(t.year, t.month) then t.(day := t.day + 1)
    else if t.month < 12 then t.(month := t.month + 1, day := 1)
    else t.(year := t.year + 1, month := 1, day := 1)
  }

  /** Months have their lengths, and every fourth year is a leap year except the centuries
      that 400 does not divide. */
  lemma {:induction false} MonthLengths(year: nat)
    ensures forall month :: month in {1, 3, 5, 7, 8, 10, 12} ==> DaysIn(year, month) == 31
    ensures forall month :: month in {4, 6, 9, 11} ==> DaysIn(year, month) == 30
    ensures DaysIn(year, 2) == 28 || DaysIn(year, 2) == 29
    ensures DaysIn(year, 2) == 29 <==> (year % 400 == 0 || (year % 4 == 0 && year % 100 != 0))
  {
    FourDivides(year);
  }

  lemma {:induction false} FourDivides(year: nat)
    ensures year % 400 == 0 ==> year % 4 == 0
  {
    if year % 400 == 0 {
      FourTimes(100 * (year / 400));
    }
  }

  lemma {:induction false} FourTimes(n: nat)
    ensures 4 * n % 4 == 0
  {
  }

  /** The next millisecond on the clock. */
  function Tick(t: Timestamp): Timestamp {
    if t.milli < 999 then t.(milli := t.milli + 1)
    else if t.second < 59 then t.(second := t.second + 1, milli := 0)
    else if t.minute < 59 then t.(minute := t.minute + 1, second := 0, milli := 0)
    else if t.hour < 23 then t.(hour := t.hour + 1, minute := 0, second := 0, milli := 0)
    else Tomorrow(t).(hour := 0, minute := 0, second := 0, milli := 0)
  }

  /** Calendar time and milliseconds agree: up to the end of the year 9999 each tick of the
      clock leads to a valid time and counts one, and the count is zero when 1970 began. */
  lemma {:induction false} ClockTicks(t: Timestamp)
    requires ValidTime(t) && t != Timestamp(9999, 12, 31, 23, 59, 59, 999)
    ensures ValidTime(Tick(t)) && Millis(Tick(t)) == Millis(t) + 1
    ensures ValidTime(Timestamp(1970, 1, 1, 0, 0, 0, 0)) && Millis(Timestamp(1970, 1, 1, 0, 0, 0, 0)) == 0
  {
    hide DaysIn, DaysBefore, Millis, Tomorrow;
    Epoch();
    if t.hour == 23 && t.minute == 59 && t.second == 59 && t.milli == 999 {
      DaysFollow(t);
      TomorrowIsValid(t);
      Midnight(Tomorrow(t));
    } else {
      TicksWithinDay(t);
    }
  }

  lemma {:induction false} Epoch()
    ensures ValidTime(Timestamp(1970, 1, 1, 0, 0, 0, 0)) && Millis(Timestamp(1970, 1, 1, 0, 0, 0, 0)) == 0
  {
    assert DaysBefore(1970, 1) == 719_528;
  }

  lemma {:induction false} TicksWithinDay(t: Timestamp)
    requires ValidTime(t) && !(t.hour == 23 && t.minute == 59 && t.second == 59 && t.milli == 999)
    ensures ValidTime(Tick(t)) && Millis(Tick(t)) == Millis(t) + 1
  {
    hide DaysIn, DaysBefore;
  }

  lemma {:induction false} Midnight(u: Timestamp)
    requires u.hour == 23 && u.minute == 59 && u.second == 59 && u.milli == 999
    ensures Millis(u.(hour := 0, minute := 0, second := 0, milli := 0)) == Millis(u) - 86_399_999
  {
    hide DaysBefore;
  }

  lemma {:induction false} TomorrowIsValid(t: Timestamp)
    requires ValidTime(t) && !(t.year == 9999 && t.month == 12 && t.day == 31)
    ensures ValidTime(Tomorrow(t))
  {
    MonthLengths(t.year);
    hide DaysIn;
    MonthIsLong(t.year, t.month + 1);
    MonthIsLong(t.year + 1, 1);
  }

  lemma {:induction false} MonthIsLong(year: nat, month: nat)
    ensures 28 <= DaysIn(year, month) <= 31
  {
  }

  /** A day later on the calendar is a day later in milliseconds. */
  lemma {:induction false} DaysFollow(t: Timestamp)
    requires ValidTime(t)
    ensures Millis(Tomorrow(t)) == Millis(t) + 86_400_000
    ensures Tomorrow(t).hour == t.hour && Tomorrow(t).minute == t.minute && Tomorrow(t).second == t.second &&
      Tomorrow(t).milli == t.milli
  {
    var u := Tomorrow(t);
    MonthLengths(t.year);
    YearEnds(t.year);
    hide DaysIn;
    assert DaysBefore(t.year, t.month + 1) == DaysBefore(t.year, t.month) + DaysIn(t.year, t.month);
    assert DaysBefore(u.year, u.month) + u.day == DaysBefore(t.year, t.month) + t.day + 1;
  }

  /** January begins a year of 365 days after the last, or 366 after a leap year. */
  lemma {:induction false} YearEnds(year: nat)
    ensures DaysBefore(year + 1, 1) == DaysBefore(year, 12) + 31
  {
    MonthsAdd(year);
    LeapCount(year);
    By4(year);
    By100(year);
    By400(year);
  }

  lemma {:induction false} MonthsAdd(year: nat)
    ensures DaysBefore(year, 12) == DaysBefore(year, 1) + 306 + DaysIn(year, 2)
  {
    MonthLengths(year);
    var feb := DaysIn(year, 2);
    assert DaysBefore(year, 3) == DaysBefore(year, 1) + 31 + feb by {
      assert DaysBefore(year, 2) == DaysBefore(year, 1) + 31;
    }
    hide Leap, DaysIn;
    assert DaysBefore(year, 4) == DaysBefore(year, 3) + 31;
    assert DaysBefore(year, 6) == DaysBefore(year, 4) + 61;
    assert DaysBefore(year, 8) == DaysBefore(year, 6) + 61;
    assert DaysBefore(year, 10) == DaysBefore(year, 8) + 61;
    assert DaysBefore(year, 12) == DaysBefore(year, 10) + 61;
  }

  /** One when d divides n. */
  function Divides(n: nat, d: nat): int
    requires d > 0
  {
    if n % d == 0 then 1 else 0
  }

  lemma {:induction false} LeapCount(year: nat)
    ensures DaysIn(year, 2) == 28 + Divides(year, 4) - Divides(year, 100) + Divides(year, 400)
  {
    Multiples(year);
  }

  lemma {:induction false} Multiples(year: nat)
    ensures year % 400 == 0 ==> year % 100 == 0
    ensures year % 100 == 0 ==> year % 4 == 0
  {
    if year % 400 == 0 {
      Quotient100(year, 4 * (year / 400), 0);
    }
    if year % 100 == 0 {
      FourTimes(25 * (year / 100));
    }
  }

  lemma {:induction false} Quotient4(n: nat, q: nat, r: nat)
    requires n == 4 * q + r && r < 4
    ensures n / 4 == q && n % 4 == r
  {
  }

  lemma {:induction false} Quotient100(n: nat, q: nat, r: nat)
    requires n == 100 * q + r && r < 100
    ensures n / 100 == q && n % 100 == r
  {
  }

  lemma {:induction false} Quotient400(n: nat, q: nat, r: nat)
    requires n == 400 * q + r && r < 400
    ensures n / 400 == q && n % 400 == r
  {
  }

  lemma {:induction false} By4(n: nat)
    ensures (n + 4) / 4 == (n + 3) / 4 + Divides(n, 4)
  {
    var q, r := n / 4, n % 4;
    Quotient4(n + 4, q + 1, r);
    if r == 0 {
      Quotient4(n + 3, q, 3);
    } else {
      Quotient4(n + 3, q + 1, r - 1);
    }
  }

  lemma {:induction false} By100(n: nat)
    ensures (n + 100) / 100 == (n + 99) / 100 + Divides(n, 100)
  {
    var q, r := n / 100, n % 100;
    Quotient100(n + 100, q + 1, r);
    if r == 0 {
      Quotient100(n + 99, q, 99);
    } else {
      Quotient100(n + 99, q + 1, r - 1);
    }
  }

  lemma {:induction false} By400(n: nat)
    ensures (n + 400) / 400 == (n + 399) / 400 + Divides(n, 400)
  {
    var q, r := n / 400, n % 400;
    Quotient400(n + 400, q + 1, r);
    if r == 0 {
      Quotient400(n + 399, q, 399);
    } else {
      Quotient400(n + 399, q + 1, r - 1);
    }
  }

  function Numeral(n: nat): char { Digit(n % 10) }

  /** toISOString */
  function Iso(t: Timestamp): string {
    [Numeral(t.year / 1000), Numeral(t.year / 100), Numeral(t.year / 10), Numeral(t.year), '-',
     Numeral(t.month / 10), Numeral(t.month), '-', Numeral(t.day / 10), Numeral(t.day), 'T',
     Numeral(t.hour / 10), Numeral(t.hour), ':', Numeral(t.minute / 10), Numeral(t.minute), ':',
     Numeral(t.second / 10), Numeral(t.second), '.',
     Numeral(t.milli / 100), Numeral(t.milli / 10), Numeral(t.milli), 'Z']
  }

  predicate TwoDigits(s: string, i: nat) {
    i + 1 < |s| && IsDigit(s[i]) && IsDigit(s[i + 1])
  }

  predicate IsoShape(s: string) {
    |s| == 24 && s[4] == '-' && s[7] == '-' && s[10] == 'T' && s[13] == ':' && s[16] == ':' && s[19] == '.' &&
    s[23] == 'Z' && TwoDigits(s, 0) && TwoDigits(s, 2) && TwoDigits(s, 5) && TwoDigits(s, 8) && TwoDigits(s, 11) &&
    TwoDigits(s, 14) && TwoDigits(s, 17) && IsDigit(s[20]) && TwoDigits(s, 21)
  }

  function Two(s: string, i: nat): nat
    requires TwoDigits(s, i)
  {
    10 * DigitValue(s[i]) + DigitValue(s[i + 1])
  }

  /** Date.parse on the canonical form: absent where isCanonicalAuthTimestampV1 is false. */
  function ParseIso(s: string): Option<Timestamp> {
    if !IsoShape(s) then None
    else
      var t := Timestamp(
        100 * Two(s, 0) + Two(s, 2), Two(s, 5), Two(s, 8), Two(s, 11), Two(s, 14), Two(s, 17),
        100 * DigitValue(s[20]) + Two(s, 21));
      if ValidTime(t) then Some(t) else None
  }

  lemma {:induction false} NumeralValue(n: nat)
    ensures IsDigit(Numeral(n)) && DigitValue(Numeral(n)) == n % 10
  {
  }

  lemma {:induction false} TwoRead(s: string, i: nat, n: nat)
    requires i + 1 < |s| && s[i] == Numeral(n / 10) && s[i + 1] == Numeral(n)
    ensures TwoDigits(s, i) && Two(s, i) == n % 100
  {
    hide Numeral, DigitValue, IsDigit, Digit;
    NumeralValue(n / 10);
    NumeralValue(n);
    TwoOf(n);
  }

  lemma {:induction false} TwoOf(n: nat)
    ensures 10 * (n / 10 % 10) + n % 10 == n % 100
  {
  }

  /** A printed timestamp is read back unchanged. */
  lemma {:induction false} IsoReads(t: Timestamp)
    requires ValidTime(t)
    ensures ParseIso(Iso(t)) == Some(t)
  {
    hide Digit, DigitValue, Numeral, DaysIn, TwoDigits, Two, IsDigit;
    var s := Iso(t);
    assert t.year / 100 / 10 == t.year / 1000;
    TwoRead(s, 0, t.year / 100);
    TwoRead(s, 2, t.year);
    TwoRead(s, 5, t.month);
    TwoRead(s, 8, t.day);
    TwoRead(s, 11, t.hour);
    TwoRead(s, 14, t.minute);
    TwoRead(s, 17, t.second);
    NumeralValue(t.milli / 100);
    TwoRead(s, 21, t.milli);
    assert IsoShape(s);
    Small(t);
    assert ParseIso(s).Some? ==> ParseIso(s).value == t;
  }

  lemma {:induction false} Small(t: Timestamp)
    requires ValidTime(t)
    ensures 100 * (t.year / 100 % 100) + t.year % 100 == t.year && 100 * (t.milli / 100 % 10) + t.milli % 100 == t.milli
    ensures t.month % 100 == t.month && t.day % 100 == t.day && t.hour % 100 == t.hour
    ensures t.minute % 100 == t.minute && t.second % 100 == t.second
  {
  }

  lemma {:induction false} TwoPrints(s: string, i: nat, n: nat)
    requires TwoDigits(s, i) && n % 100 == Two(s, i)
    ensures Numeral(n / 10) == s[i] && Numeral(n) == s[i + 1]
  {
    hide Digit, DigitValue, IsDigit;
    DigitPrints(s[i]);
    DigitPrints(s[i + 1]);
    TwoPlaces(n, DigitValue(s[i]), DigitValue(s[i + 1]));
  }

  lemma {:induction false} TwoPlaces(n: nat, high: nat, low: nat)
    requires high < 10 && low < 10 && n % 100 == 10 * high + low
    ensures n / 10 % 10 == high && n % 10 == low
  {
    var hundreds := n / 100;
    assert n == 10 * (10 * hundreds + high) + low;
    Decimal(10 * hundreds + high, low);
    Decimal(hundreds, high);
  }

  /** The canonical timestamps are exactly the printed ones. */
  lemma {:induction false} ReadPrintsIso(s: string)
    requires ParseIso(s).Some?
    ensures ValidTime(ParseIso(s).value) && Iso(ParseIso(s).value) == s
  {
    hide Digit, DigitValue, Numeral, DaysIn, TwoDigits, Two, IsDigit;
    var t := ParseIso(s).value;
    TwoBelow(s, 0);
    TwoBelow(s, 2);
    assert t.year / 100 == Two(s, 0) && t.year / 100 / 10 == t.year / 1000;
    TwoBelow(s, 5);
    TwoBelow(s, 8);
    TwoBelow(s, 11);
    TwoBelow(s, 14);
    TwoBelow(s, 17);
    TwoBelow(s, 21);
    TwoPrints(s, 0, t.year / 100);
    TwoPrints(s, 2, t.year);
    TwoPrints(s, 5, t.month);
    TwoPrints(s, 8, t.day);
    TwoPrints(s, 11, t.hour);
    TwoPrints(s, 14, t.minute);
    TwoPrints(s, 17, t.second);
    TwoPrints(s, 21, t.milli);
    DigitPrints(s[20]);
    assert t.milli / 100 == DigitValue(s[20]);
    NumeralIs(t.milli / 100);
    Dashed(s, t);
  }

  lemma {:induction false} NumeralIs(n: nat)
    ensures n < 10 ==> Numeral(n) == Digit(n)
  {
  }

  lemma {:induction false} Dashed(s: string, t: Timestamp)
    requires |s| == 24 && forall i :: 0 <= i < 24 ==> s[i] == Iso(t)[i]
    ensures Iso(t) == s
  {
    hide Numeral;
  }

  lemma {:induction false} TwoBelow(s: string, i: nat)
    requires TwoDigits(s, i)
    ensures Two(s, i) < 100
  {
  }

  // ------------------------------------------------------------------ message

  /** What new URL made of the configured web origin. */
  datatype Url = Url(
    protocol: string, host: string, port: string, username: string, password: string, pathname: string,
    search: string, hash: string)

  datatype Input = Input(
    origin: Option<Url>, address: string, nonce: string, issuedAt: string, expiresAt: string, purpose: string)

  datatype MessageError =
    | PurposeError | NonceError | TimestampError | LifetimeError | OriginError | AddressError | TooLong

  const LIFETIME := 300_000
  const MAX_MESSAGE := 8_192

  predicate ServerNonce(s: string) { |s| == 64 && forall c :: c in s ==> LowerHex(c) }

  predicate WalletAddress(s: string) {
    |s| == 42 && s[0] == '0' && (s[1] == 'x' || s[1] == 'X') && forall c :: c in s[2..] ==> AnyHex(c)
  }

  function LowerAll(s: string): string { seq(|s|, i requires 0 <= i < |s| => Lower(s[i])) }

  /** normalizeWalletAddress */
  function Normalize(s: string): string
    requires WalletAddress(s)
  {
    "0x" + LowerAll(s[2..])
  }

  predicate RootOrigin(u: Url) {
    u.protocol == "https:" && (u.port == "" || u.port == "443") && u.username == "" && u.password == "" &&
    u.pathname == "/" && u.search == "" && u.hash == ""
  }

  const ASKS := " wants you to sign in with your Ethereum account:\n"
  const STATEMENT := "\n\nSign in to Orivra and create your default project.\n\nURI: https://"
  const CHAIN := "\nVersion: 1\nChain ID: 114\nNonce: "
  const ISSUED := "\nIssued At: "
  const EXPIRES := "\nExpiration Time: "

  function Compose(host: string, address: string, nonce: string, issuedAt: string, expiresAt: string): string {
    host + (ASKS + (address + (STATEMENT + (host + (CHAIN + (nonce + (ISSUED + (issuedAt + (EXPIRES + expiresAt)))))))))
  }

  /** buildEip4361Message */
  function Build(i: Input): Result<string, MessageError> {
    if i.purpose != "browser-session" then Err(PurposeError)
    else if !ServerNonce(i.nonce) then Err(NonceError)
    else if ParseIso(i.issuedAt).None? || ParseIso(i.expiresAt).None? then Err(TimestampError)
    else if Millis(ParseIso(i.expiresAt).value) - Millis(ParseIso(i.issuedAt).value) != LIFETIME then Err(LifetimeError)
    else if i.origin.None? || !RootOrigin(i.origin.value) then Err(OriginError)
    else if !WalletAddress(i.address) then Err(AddressError)
    else
      var message := Compose(i.origin.value.host, Normalize(i.address), i.nonce, i.issuedAt, i.expiresAt);
      if |message| > MAX_MESSAGE then Err(TooLong) else Ok(message)
  }

  lemma {:induction false} SplitAt(a: string, b: string, rest: string, tail: string)
    requires |a| == |b| && a + rest == b + tail
    ensures a == b && rest == tail
  {
    assert a == (a + rest)[..|a|] && b == (b + tail)[..|b|];
    assert rest == (a + rest)[|a|..] && tail == (b + tail)[|b|..];
  }

  lemma {:induction false} ComposeLength(host: string, address: string, nonce: string, issuedAt: string,
      expiresAt: string)
    ensures |Compose(host, address, nonce, issuedAt, expiresAt)| ==
      2 * |host| + |address| + |nonce| + |issuedAt| + |expiresAt| +
      |ASKS| + |STATEMENT| + |CHAIN| + |ISSUED| + |EXPIRES|
  {
  }

  /** The tails of two composed messages, peeled from the front. */
  lemma {:induction false} ComposeInjective(h: string, a: string, n: string, i: string, e: string, h': string,
      a': string, n': string, i': string, e': string)
    requires |a| == |a'| && |n| == |n'| && |i| == |i'| && |e| == |e'|
    requires Compose(h, a, n, i, e) == Compose(h', a', n', i', e')
    ensures h == h' && a == a' && n == n' && i == i' && e == e'
  {
    ComposeLength(h, a, n, i, e);
    ComposeLength(h', a', n', i', e');
    hide Compose;
    var t9, u9 := EXPIRES + e, EXPIRES + e';
    var t8, u8 := i + t9, i' + u9;
    var t7, u7 := ISSUED + t8, ISSUED + u8;
    var t6, u6 := n + t7, n' + u7;
    var t5, u5 := CHAIN + t6, CHAIN + u6;
    var t4, u4 := h + t5, h' + u5;
    var t3, u3 := STATEMENT + t4, STATEMENT + u4;
    var t2, u2 := a + t3, a' + u3;
    var t1, u1 := ASKS + t2, ASKS + u2;
    ComposeIs(h, a, n, i, e);
    ComposeIs(h', a', n', i', e');
    SplitAt(h, h', t1, u1);
    SplitAt(ASKS, ASKS, t2, u2);
    SplitAt(a, a', t3, u3);
    SplitAt(STATEMENT, STATEMENT, t4, u4);
    SplitAt(h, h', t5, u5);
    SplitAt(CHAIN, CHAIN, t6, u6);
    SplitAt(n, n', t7, u7);
    SplitAt(ISSUED, ISSUED, t8, u8);
    SplitAt(i, i', t9, u9);
    SplitAt(EXPIRES, EXPIRES, e, e');
  }

  lemma {:induction false} ComposeIs(h: string, a: string, n: string, i: string, e: string)
    ensures Compose(h, a, n, i, e) ==
      h + (ASKS + (a + (STATEMENT + (h + (CHAIN + (n + (ISSUED + (i + (EXPIRES + e)))))))))
  {
  }

  /** Two inputs with one message agree on origin, address, nonce and both times. */
  lemma {:induction false} MessageInjective(x: Input, y: Input)
    requires Build(x).Ok? && Build(x) == Build(y)
    ensures x.origin.value.host == y.origin.value.host && Normalize(x.address) == Normalize(y.address)
    ensures x.nonce == y.nonce && x.issuedAt == y.issuedAt && x.expiresAt == y.expiresAt
  {
    hide Compose, Millis, ParseIso, LowerAll;
    IsoLength(x.issuedAt);
    IsoLength(x.expiresAt);
    IsoLength(y.issuedAt);
    IsoLength(y.expiresAt);
    assert |Normalize(x.address)| == 42 && |Normalize(y.address)| == 42 by {
      LowerLength(x.address[2..]);
      LowerLength(y.address[2..]);
    }
    ComposeInjective(x.origin.value.host, Normalize(x.address), x.nonce, x.issuedAt, x.expiresAt,
                     y.origin.value.host, Normalize(y.address), y.nonce, y.issuedAt, y.expiresAt);
  }

  lemma {:induction false} LowerLength(s: string)
    ensures |LowerAll(s)| == |s|
  {
  }

  lemma {:induction false} IsoLength(s: string)
    ensures ParseIso(s).Some? ==> |s| == 24
  {
  }

  /** For calendar times the message is built exactly for a root HTTPS origin, an address, a
      nonce and a lifetime of five minutes; only a host of over 3,929 characters is too long. */
  lemma {:induction false} BuiltExactly(u: Url, address: string, nonce: string, issuedAt: Timestamp,
      expiresAt: Timestamp)
    requires ValidTime(issuedAt) && ValidTime(expiresAt)
    ensures Build(Input(Some(u), address, nonce, Iso(issuedAt), Iso(expiresAt), "browser-session")).Ok? <==>
      RootOrigin(u) && WalletAddress(address) && ServerNonce(nonce) &&
      Millis(expiresAt) - Millis(issuedAt) == LIFETIME && |u.host| <= 3_929
  {
    hide Compose, Millis, ParseIso, Iso, ServerNonce, RootOrigin;
    IsoReads(issuedAt);
    IsoReads(expiresAt);
    IsoLength(Iso(issuedAt));
    IsoLength(Iso(expiresAt));
    if WalletAddress(address) {
      LowerLength(address[2..]);
      ComposeLength(u.host, Normalize(address), nonce, Iso(issuedAt), Iso(expiresAt));
    }
    NonceLength(nonce);
  }

  /** An origin is bare exactly for HTTPS at its own port, without credentials, path, query
      or fragment. */
  lemma {:induction false} RootOriginIff(u: Url)
    ensures RootOrigin(u) <==> u == Url("https:", u.host, u.port, "", "", "/", "", "") && u.port in {"", "443"}
  {
  }

  /** An address is 40 hex digits in any case after "0x" or "0X". */
  lemma {:induction false} WalletAddressIff(s: string)
    ensures WalletAddress(s) <==>
      exists digits: string :: (s == "0x" + digits || s == "0X" + digits) && FortyHex(digits)
  {
    if WalletAddress(s) {
      assert s == [s[0], s[1]] + s[2..];
    }
    if digits: string :| (s == "0x" + digits || s == "0X" + digits) && FortyHex(digits) {
      assert s[2..] == digits;
    }
  }

  predicate FortyHex(digits: string) { |digits| == 40 && forall c :: c in digits ==> AnyHex(c) }

  /** No message is built for another purpose. */
  lemma {:induction false} OtherPurposeRefused(i: Input)
    requires i.purpose != "browser-session"
    ensures Build(i) == Err(PurposeError)
  {
  }

  lemma {:induction false} NonceLength(nonce: string)
    ensures ServerNonce(nonce) ==> |nonce| == 64
  {
  }

  // --------------------------------------------------------- stored challenges

  function HexChar(n: nat): char
    requires n < 16
  {
    "0123456789abcdef"[n]
  }

  function HexValue(c: char): nat
    requires LowerHex(c)
  {
    if c <= '9' then c as nat - '0' as nat else c as nat - 'a' as nat + 10
  }

  function ToHex(b: seq<Byte>): string {
    if b == [] then [] else [HexChar(b[0] / 16), HexChar(b[0] % 16)] + ToHex(b[1..])
  }

  function FromHex(s: string): seq<Byte>
    requires forall c :: c in s ==> LowerHex(c)
  {
    if |s| < 2 then [] else [16 * HexValue(s[0]) + HexValue(s[1])] + FromHex(s[2..])
  }

  lemma {:induction false} HexRoundTrip(s: string)
    requires |s| % 2 == 0 && forall c :: c in s ==> LowerHex(c)
    ensures |FromHex(s)| == |s| / 2 && ToHex(FromHex(s)) == s
  {
    hide HexValue, HexChar, LowerHex, ToHex, FromHex;
    if |s| < 2 {
      NoHex();
    } else {
      var rest := s[2..];
      HexRoundTrip(rest);
      assert s[0] in s && s[1] in s;
      FromHexFirst(s);
      HexPair(s[0], s[1], FromHex(rest));
      assert s == [s[0], s[1]] + rest;
    }
  }

  lemma {:induction false} NoHex()
    ensures FromHex([]) == [] && ToHex([]) == []
  {
  }

  lemma {:induction false} FromHexFirst(s: string)
    requires |s| >= 2 && forall c :: c in s ==> LowerHex(c)
    ensures LowerHex(s[0]) && LowerHex(s[1]) && HexValue(s[0]) < 16 && HexValue(s[1]) < 16
    ensures FromHex(s) == [16 * HexValue(s[0]) + HexValue(s[1])] + FromHex(s[2..])
  {
    hide HexValue, LowerHex;
    HexCharOf(s[0]);
    HexCharOf(s[1]);
  }

  lemma {:induction false} HexPair(c: char, d: char, rest: seq<Byte>)
    requires LowerHex(c) && LowerHex(d)
    ensures HexValue(c) < 16 && HexValue(d) < 16
    ensures ToHex([16 * HexValue(c) + HexValue(d)] + rest) == [c, d] + ToHex(rest)
  {
    hide HexValue, HexChar, LowerHex;
    HexCharOf(c);
    HexCharOf(d);
    var b := 16 * HexValue(c) + HexValue(d);
    Nibbles(HexValue(c), HexValue(d));
    ToHexFirst(b, rest);
  }

  lemma {:induction false} ToHexFirst(b: Byte, rest: seq<Byte>)
    ensures ToHex([b] + rest) == [HexChar(b / 16), HexChar(b % 16)] + ToHex(rest)
  {
    hide HexChar;
    assert ([b] + rest)[1..] == rest;
  }

  lemma {:induction false} Nibbles(high: nat, low: nat)
    requires high < 16 && low < 16
    ensures (16 * high + low) / 16 == high && (16 * high + low) % 16 == low
  {
  }

  lemma {:induction false} HexCharOf(c: char)
    requires LowerHex(c)
    ensures HexValue(c) < 16 && HexChar(HexValue(c)) == c
  {
  }

  lemma {:induction false} HexCharLower(n: nat)
    requires n < 16
    ensures LowerHex(HexChar(n))
  {
  }

  lemma {:induction false} ToHexShape(b: seq<Byte>)
    ensures |ToHex(b)| == 2 * |b| && forall c :: c in ToHex(b) ==> LowerHex(c)
  {
    hide HexChar;
    if b != [] {
      ToHexShape(b[1..]);
      HexCharLower(b[0] / 16);
      HexCharLower(b[0] % 16);
    }
  }

  lemma {:induction false} LowerHexStays(s: string)
    requires forall c :: c in s ==> AnyHex(c)
    ensures forall c :: c in LowerAll(s) ==> LowerHex(c)
    ensures (forall c :: c in s ==> LowerHex(c)) ==> LowerAll(s) == s
  {
    forall i | 0 <= i < |s| ensures LowerHex(LowerAll(s)[i]) && (LowerHex(s[i]) ==> LowerAll(s)[i] == s[i]) {
      assert s[i] in s;
      LowerOne(s[i]);
    }
    if forall c :: c in s ==> LowerHex(c) {
      forall i | 0 <= i < |s| ensures LowerAll(s)[i] == s[i] {
        assert s[i] in s;
      }
    }
  }

  lemma {:induction false} LowerOne(c: char)
    requires AnyHex(c)
    ensures LowerHex(Lower(c)) && (LowerHex(c) ==> Lower(c) == c)
  {
    if 'A' <= c <= 'F' {
      assert Lower(c) as int == c as int + 32;
    }
  }

  datatype ChallengeRow = ChallengeRow(
    address: seq<Byte>, nonce: seq<Byte>, message: string, issuedAt: Timestamp, expiresAt: Timestamp,
      consumedAt: Option<int>)

  function AuthorityOf(row: ChallengeRow, origin: Option<Url>): Input {
    Input(origin, "0x" + ToHex(row.address), ToHex(row.nonce), Iso(row.issuedAt), Iso(row.expiresAt), "browser-session")
  }

  datatype Hydrated = Hydrated(address: string, message: string)

  /** hydrateConsumedChallenge */
  function Hydrate(row: ChallengeRow, origin: Option<Url>): Option<Hydrated> {
    if |row.address| != 20 || |row.nonce| != 32 then None
    else match Build(AuthorityOf(row, origin))
      case Err(_) => None
      case Ok(message) =>
        if row.message != message || !WalletAddress("0x" + ToHex(row.address)) then None
        else Some(Hydrated(Normalize("0x" + ToHex(row.address)), message))
  }

  /** What createWalletChallenge stores for an address. */
  function RowFor(address: string, nonce: seq<Byte>, message: string, issuedAt: Timestamp,
      expiresAt: Timestamp): ChallengeRow
    requires WalletAddress(address)
  {
    LowerHexStays(address[2..]);
    ChallengeRow(FromHex(LowerAll(address[2..])), nonce, message, issuedAt, expiresAt, None)
  }

  /** Every stored row hydrates back to the address and message it was created with, also
      after it is marked consumed. */
  lemma {:induction false} StoredRowHydrates(origin: Option<Url>, address: string, nonce: seq<Byte>,
      issuedAt: Timestamp, expiresAt: Timestamp, consumedAt: Option<int>)
    requires WalletAddress(address) && |nonce| == 32
    requires Build(Input(origin, Normalize(address), ToHex(nonce), Iso(issuedAt), Iso(expiresAt),
      "browser-session")).Ok?
    ensures var message :=
        Build(Input(origin, Normalize(address), ToHex(nonce), Iso(issuedAt), Iso(expiresAt), "browser-session")).value;
      Hydrate(RowFor(address, nonce, message, issuedAt, expiresAt).(consumedAt := consumedAt), origin) ==
        Some(Hydrated(Normalize(address), message))
  {
    hide Build, ParseIso, Iso;
    LowerHexStays(address[2..]);
    HexRoundTrip(LowerAll(address[2..]));
    assert Normalize(address)[2..] == LowerAll(address[2..]);
    LowerHexStays(LowerAll(address[2..]));
    assert Normalize(Normalize(address)) == Normalize(address);
  }

  /** A row that carries the message of any other address, nonce, time or origin is refused. */
  lemma {:induction false} ForeignMessageRefused(row: ChallengeRow, origin: Option<Url>, other: Input)
    requires Build(other) == Ok(row.message)
    requires ValidTime(row.issuedAt) && ValidTime(row.expiresAt)
    ensures Hydrate(row, origin).Some? ==>
      other.origin.value.host == origin.value.host && Normalize(other.address) == "0x" + ToHex(row.address) &&
      other.nonce == ToHex(row.nonce) && ParseIso(other.issuedAt) == Some(row.issuedAt) &&
      ParseIso(other.expiresAt) == Some(row.expiresAt)
  {
    hide Build, ParseIso, Iso;
    if Hydrate(row, origin).Some? {
      BuiltFrom(other);
      BuiltFrom(AuthorityOf(row, origin));
      MessageInjective(AuthorityOf(row, origin), other);
      IsoReads(row.issuedAt);
      IsoReads(row.expiresAt);
      ToHexShape(row.address);
      assert ("0x" + ToHex(row.address))[2..] == ToHex(row.address);
      LowerHexStays(ToHex(row.address));
    }
  }

  lemma {:induction false} BuiltFrom(i: Input)
    requires Build(i).Ok?
    ensures i.origin.Some? && WalletAddress(i.address)
  {
    hide ParseIso, Compose, Millis;
  }

  /** Row for row: a challenge hydrates exactly when its message is the one built from its
      own fields. */
  lemma {:induction false} HydratesExactly(row: ChallengeRow, origin: Option<Url>)
    ensures Hydrate(row, origin).Some? <==>
      |row.address| == 20 && |row.nonce| == 32 && Build(AuthorityOf(row, origin)) == Ok(row.message)
    ensures Hydrate(row, origin).Some? ==>
      Hydrate(row, origin).value == Hydrated("0x" + ToHex(row.address), row.message)
  {
    hide Build, ParseIso, Iso;
    ToHexShape(row.address);
    assert ("0x" + ToHex(row.address))[2..] == ToHex(row.address);
    LowerHexStays(ToHex(row.address));
  }
}
