/**
 The retry delay on its way to the user: printed into the retry-after header by
 apps/api/src/app.ts, read back by src/services/run-client.ts and
 src/services/wallet-access-client.ts.
*/
module RetryAfter {
  import opened Wrappers
  import opened QuotaWindows

  datatype ErrorCode = ChallengeRateLimited | RunQuotaExhausted | OtherCode

  /** A failure as the API sees it: the delay is attached by the quota code, or absent. */
  datatype Failure = Failure(status: int, code: ErrorCode, delay: Option<int>)

  datatype Response = Response(status: int, code: ErrorCode, retryAfter: Option<string>)

  predicate IsDigit(c: char) { '0' <= c <= '9' }

  function Digit(n: nat): char
    requires n < 10
  {
    '0' + n as char
  }

  /** String(n) for a non-negative integer. */
  function Print(n: nat): string {
    if n < 10 then [Digit(n)] else Print(n / 10) + [Digit(n % 10)]
  }

  function DigitValue(c: char): nat
    requires IsDigit(c)
  {
    c as nat - '0' as nat
  }

  /** Number(s) for a string of digits. */
  function Value(s: string): nat
    requires forall c :: c in s ==> IsDigit(c)
  {
    if s == [] then 0 else 10 * Value(s[..|s| - 1]) + DigitValue(s[|s| - 1])
  }

  /** The clients' pattern /^[1-9]\d*$/. */
  predicate Canonical(s: string) {
    s != [] && s[0] != '0' && forall c :: c in s ==> IsDigit(c)
  }

  function Bound(status: int, code: ErrorCode): Option<int> {
    if status != 429 then None
    else match code
      case ChallengeRateLimited => Some(60)
      case RunQuotaExhausted => Some(86_400)
      case OtherCode => None
  }

  /** The tail of responseError in app.ts. */
  function Respond(f: Failure): Response {
    var status := if 400 <= f.status < 600 then f.status else 500;
    var bound := Bound(status, f.code);
    Response(status, f.code,
      if bound.None? || f.delay.None? || f.delay.value < 1 || f.delay.value > bound.value then None
      else Some(Print(f.delay.value)))
  }

  function Read(header: Option<string>, length: nat, maximum: nat): Option<nat> {
    if header.Some? && Canonical(header.value) && |header.value| <= length && Value(header.value) <= maximum
    then Some(Value(header.value)) else None
  }

  /** responseError in run-client.ts, for a response to a run creation. */
  function RunClientDelay(r: Response): Option<nat> {
    if r.status == 429 && r.code.RunQuotaExhausted? then Read(r.retryAfter, 5, 86_400) else None
  }

  /** httpError in wallet-access-client.ts, whose allow list ties the code to its status. */
  function WalletClientDelay(r: Response): Option<nat> {
    if r.status == 429 && r.code.ChallengeRateLimited? then Read(r.retryAfter, 2, 60) else None
  }

  lemma {:induction false} PrintReads(n: nat)
    ensures forall c :: c in Print(n) ==> IsDigit(c)
    ensures Value(Print(n)) == n && (n > 0 ==> Canonical(Print(n)))
  {
    if n >= 10 {
      PrintReads(n / 10);
      assert Print(n)[..|Print(n)| - 1] == Print(n / 10);
      assert Print(n)[0] == Print(n / 10)[0];
    }
  }

  lemma {:induction false} DigitPrints(c: char)
    requires IsDigit(c)
    ensures DigitValue(c) < 10 && Digit(DigitValue(c)) == c && (DigitValue(c) == 0 <==> c == '0')
  {
    var d := DigitValue(c);
    assert ('0' as int + d) as char == c;
  }

  lemma {:induction false} Decimal(high: nat, low: nat)
    requires low < 10
    ensures (10 * high + low) / 10 == high && (10 * high + low) % 10 == low
  {
  }

  /** A canonical header is the print of its own value: no two headers read alike. */
  lemma {:induction false} ReadPrints(s: string)
    requires Canonical(s)
    ensures Value(s) > 0 && Print(Value(s)) == s
  {
    var n := |s| - 1;
    assert s[n] in s;
    if n > 0 {
      assert s[..n][0] == s[0];
      ReadPrints(s[..n]);
      assert s == s[..n] + [s[n]];
      DigitPrints(s[n]);
      Decimal(Value(s[..n]), DigitValue(s[n]));
    } else {
      DigitPrints(s[0]);
      assert s[..0] == [];
    }
  }

  lemma {:induction false} PrintLength(n: nat)
    ensures n < 100 ==> |Print(n)| <= 2
    ensures n < 100_000 ==> |Print(n)| <= 5
  {
    if n >= 10 {
      assert |Print(n)| == |Print(n / 10)| + 1;
      if n / 10 >= 10 {
        assert |Print(n / 10)| == |Print(n / 10 / 10)| + 1;
        if n / 10 / 10 >= 10 {
          assert |Print(n / 10 / 10)| == |Print(n / 10 / 10 / 10)| + 1;
        }
      }
    }
  }

  /** A client reads exactly the prints of the delays it allows, and nothing else. */
  lemma {:induction false} ReadsExactly(s: string, length: nat, maximum: nat, d: nat)
    requires (length == 2 && maximum == 60) || (length == 5 && maximum == 86_400)
    ensures Read(Some(s), length, maximum) == Some(d) <==> 1 <= d <= maximum && s == Print(d)
  {
    PrintReads(d);
    PrintLength(d);
    if Read(Some(s), length, maximum) == Some(d) {
      ReadPrints(s);
    }
  }

  /** Each client reads a delay exactly from the print of one in its range, on its own quota
      failure and with its own status. */
  lemma {:induction false} ClientsReadIff(r: Response, d: nat)
    ensures RunClientDelay(r) == Some(d) <==>
      r.status == 429 && r.code == RunQuotaExhausted && r.retryAfter == Some(Print(d)) && 1 <= d <= 86_400
    ensures WalletClientDelay(r) == Some(d) <==>
      r.status == 429 && r.code == ChallengeRateLimited && r.retryAfter == Some(Print(d)) && 1 <= d <= 60
  {
    if r.retryAfter.Some? {
      ReadsExactly(r.retryAfter.value, 5, 86_400, d);
      ReadsExactly(r.retryAfter.value, 2, 60, d);
    }
    hide Print;
  }

  /** A response keeps the code, and the status if it is one of an error. */
  lemma {:induction false} StatusOfError(f: Failure)
    ensures Respond(f).code == f.code && 400 <= Respond(f).status <= 599
    ensures 400 <= f.status <= 599 ==> Respond(f).status == f.status
    ensures !(400 <= f.status <= 599) ==> Respond(f).status == 500
  {
    hide Print;
  }

  /** Whatever delay is attached to a quota failure, the client of that surface reads back
      that delay if it lies in the surface's range, and none otherwise. */
  lemma {:induction false} DelaySurvives(f: Failure)
    requires f.status == 429
    ensures f.code.RunQuotaExhausted? ==>
      RunClientDelay(Respond(f)) == (if f.delay.Some? &&
        1 <= f.delay.value <= 86_400 then Some(f.delay.value) else None)
    ensures f.code.ChallengeRateLimited? ==>
      WalletClientDelay(Respond(f)) == (if f.delay.Some? && 1 <= f.delay.value <= 60 then Some(f.delay.value) else None)
  {
    if f.delay.Some? && f.delay.value >= 1 {
      ReadsExactly(Print(f.delay.value), 5, 86_400, f.delay.value);
      ReadsExactly(Print(f.delay.value), 2, 60, f.delay.value);
    }
  }

  /** No response carries a delay the clients could misread: a header is present only on the
      two quota failures, and then the matching client accepts it. */
  lemma {:induction false} HeaderOnlyOnQuotas(f: Failure)
    ensures Respond(f).retryAfter.Some? ==>
      f.status == 429 && f.delay.Some? &&
      ((f.code.RunQuotaExhausted? && RunClientDelay(Respond(f)) == Some(f.delay.value)) ||
       (f.code.ChallengeRateLimited? && WalletClientDelay(Respond(f)) == Some(f.delay.value)))
  {
    if f.status == 429 {
      DelaySurvives(f);
    }
  }

  /** From the refusal to the user: the delay a client shows for an exhausted window leads
      into the next window, and no shorter whole number of seconds above zero does. */
  lemma {:induction false} ShownDelayLeavesWindow(kind: QuotaKind, now: int)
    requires !kind.ActiveLive?
    ensures var windowEnd := WindowStart(kind, now) + Length(kind);
      var code := if kind.RunDay? then RunQuotaExhausted else ChallengeRateLimited;
      var r := Respond(Failure(429, code, Some(RetryAfterSeconds(now, windowEnd, Maximum(kind)))));
      var shown := if kind.RunDay? then RunClientDelay(r) else WalletClientDelay(r);
      shown.Some? && WindowStart(kind, now + 1_000 * shown.value) == windowEnd &&
      (forall d: nat :: 1 <= d && WindowStart(kind, now + 1_000 * d) != WindowStart(kind, now) ==> shown.value <= d)
  {
    var windowEnd := WindowStart(kind, now) + Length(kind);
    var shown := RetryAfterSeconds(now, windowEnd, Maximum(kind));
    DelayIsLeast(kind, now);
    DelaySurvives(Failure(429, if kind.RunDay? then RunQuotaExhausted else ChallengeRateLimited, Some(shown)));
    forall d: nat | 1 <= d < shown ensures WindowStart(kind, now + 1_000 * d) == WindowStart(kind, now) {
      WithinWindow(kind, now, 1_000 * (shown - 1), 1_000 * d);
    }
  }

  /** Windows are intervals. */
  lemma {:induction false} WithinWindow(kind: QuotaKind, now: int, far: int, near: int)
    requires 0 <= near <= far && WindowStart(kind, now + far) == WindowStart(kind, now)
    ensures WindowStart(kind, now + near) == WindowStart(kind, now)
  {
    if Length(kind) == MINUTE {
      MinuteOf(now + near, now / MINUTE, now % MINUTE + near);
    } else {
      DayOf(now + near, now / DAY, now % DAY + near);
    }
  }
}
