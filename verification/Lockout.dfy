/** Account lockout: the failed-login counter of a user, and the login view that drives it.

    Times are minutes as exact reals.  Account is the stored pair; CustomUser updates it in
    place and LoginView.Post is one login request. */
module Lockout {
  import opened Common

  const MAX_ATTEMPTS := 5
  const LOCKOUT_MINUTES := 15.0

  datatype Account = Account(failedLoginAttempts: nat, lockedUntil: Option<real>)

  predicate IsLockedAt(a: Account, now: real) {
    a.lockedUntil.Some? && now < a.lockedUntil.value
  }

  /** Reading is_locked_out lifts an expired lock. */
  function Refreshed(a: Account, now: real): Account {
    if a.lockedUntil.Some? && now >= a.lockedUntil.value then Account(0, None) else a
  }

  function Failed(a: Account, now: real): Account {
    var n := a.failedLoginAttempts + 1;
    Account(n, if n >= MAX_ATTEMPTS then Some(now + LOCKOUT_MINUTES) else a.lockedUntil)
  }

  const CLEAR := Account(0, None)

  class CustomUser {
    var failedLoginAttempts: nat
    var lockedUntil: Option<real>
    const totpEnabled: bool

    ghost function Value(): Account
      reads this
    {
      Account(failedLoginAttempts, lockedUntil)
    }

    constructor (totpEnabled: bool)
      ensures Value() == CLEAR && this.totpEnabled == totpEnabled
    {
      failedLoginAttempts, lockedUntil := 0, None;
      this.totpEnabled := totpEnabled;
    }

    method IsLockedOut(now: real) returns (locked: bool)
      modifies this
      ensures locked <==> IsLockedAt(old(Value()), now)
      ensures Value() == Refreshed(old(Value()), now)
    {
      if lockedUntil.None? {
        return false;
      }
      if now >= lockedUntil.value {
        failedLoginAttempts := 0;
        lockedUntil := None;
        return false;
      }
      return true;
    }

    method RecordFailedLogin(now: real)
      modifies this
      ensures Value() == Failed(old(Value()), now)
    {
      failedLoginAttempts := failedLoginAttempts + 1;
      if failedLoginAttempts >= MAX_ATTEMPTS {
        lockedUntil := Some(now + LOCKOUT_MINUTES);
      }
    }

    method ClearFailedLogins()
      modifies this
      ensures Value() == CLEAR
    {
      if failedLoginAttempts > 0 || lockedUntil.Some? {
        failedLoginAttempts := 0;
        lockedUntil := None;
      }
    }
  }

  /** One login request: when the lock is checked, when the outcome is recorded, and what the
      credential checks say. */
  datatype Attempt = Attempt(
    checkedAt: real, recordedAt: real,
    totpGiven: bool, passwordOk: bool, totpOk: bool, tokenOk: bool)

  datatype Response = TooManyRequests | Unauthorized | TotpRequired | Success

  /** The outcome of a request to an account that is not locked. */
  function Outcome(totpEnabled: bool, t: Attempt): Response {
    if totpEnabled && !t.totpGiven then if t.passwordOk then TotpRequired else Unauthorized
    else if totpEnabled && !t.totpOk then Unauthorized
    else if t.tokenOk then Success else Unauthorized
  }

  function Answer(a: Account, totpEnabled: bool, t: Attempt): Response {
    if IsLockedAt(a, t.checkedAt) then TooManyRequests else Outcome(totpEnabled, t)
  }

  function Step(a: Account, totpEnabled: bool, t: Attempt): Account {
    var b := Refreshed(a, t.checkedAt);
    match Answer(a, totpEnabled, t)
    case TooManyRequests => b
    case TotpRequired => b
    case Unauthorized => Failed(b, t.recordedAt)
    case Success => CLEAR
  }

  /** Tokens are issued exactly to unlocked accounts with every required factor right, and a
      failure is counted exactly for an unlocked account with a wrong factor among those
      given: asking for the missing second factor counts for nothing. */
  lemma AnswerMeaning(a: Account, totpEnabled: bool, t: Attempt)
    ensures Answer(a, totpEnabled, t).Success? <==>
              !IsLockedAt(a, t.checkedAt) && t.tokenOk && (totpEnabled ==> t.totpGiven && t.totpOk)
    ensures Step(a, totpEnabled, t).failedLoginAttempts > Refreshed(a, t.checkedAt).failedLoginAttempts <==>
              && !IsLockedAt(a, t.checkedAt)
              && (if totpEnabled && !t.totpGiven then !t.passwordOk else (totpEnabled && !t.totpOk) || !t.tokenOk)
    ensures totpEnabled && !t.totpGiven && t.passwordOk ==> Step(a, totpEnabled, t) == Refreshed(a, t.checkedAt)
    ensures Answer(a, totpEnabled, t).TotpRequired? <==>
              !IsLockedAt(a, t.checkedAt) && totpEnabled && !t.totpGiven && t.passwordOk
    ensures Answer(a, totpEnabled, t).TooManyRequests? <==> IsLockedAt(a, t.checkedAt)
  {
  }

  /** What one request does to the account, in its own terms: a lock in force changes nothing;
      an expired one counts for nothing; a wrong factor counts one failure, and the fifth locks
      for 15 minutes from when it is recorded; a success clears both. */
  lemma StepMeaning(a: Account, totpEnabled: bool, t: Attempt)
    ensures var b, answer := Step(a, totpEnabled, t), Answer(a, totpEnabled, t);
            var expired := a.lockedUntil.Some? && a.lockedUntil.value <= t.checkedAt;
            var failures := if expired then 0 else a.failedLoginAttempts;
            if a.lockedUntil.Some? && t.checkedAt < a.lockedUntil.value then answer.TooManyRequests? && b == a
            else match answer
                 case TooManyRequests => false
                 case Success => b.failedLoginAttempts == 0 && b.lockedUntil.None?
                 case TotpRequired => b.failedLoginAttempts == failures && b.lockedUntil.None?
                 case Unauthorized =>
                   && b.failedLoginAttempts == failures + 1
                   && b.lockedUntil == if failures + 1 >= 5 then Some(t.recordedAt + 15.0) else None
  {
  }

  /** A request for a known user. */
  method Post(user: CustomUser, t: Attempt) returns (response: Response)
    modifies user
    ensures response == Answer(old(user.Value()), user.totpEnabled, t)
    ensures user.Value() == Step(old(user.Value()), user.totpEnabled, t)
  {
    var locked := user.IsLockedOut(t.checkedAt);
    if locked {
      return TooManyRequests;
    }
    if user.totpEnabled && !t.totpGiven {
      if !t.passwordOk {
        user.RecordFailedLogin(t.recordedAt);
        return Unauthorized;
      }
      return TotpRequired;
    }
    if user.totpEnabled && t.totpGiven {
      if !t.totpOk {
        user.RecordFailedLogin(t.recordedAt);
        return Unauthorized;
      }
    }
    if !t.tokenOk {
      user.RecordFailedLogin(t.recordedAt);
      return Unauthorized;
    }
    user.ClearFailedLogins();
    return Success;
  }

  // ---- Runs ----

  /** The counter stays within the limit and the account is locked exactly at the limit. */
  predicate Valid(a: Account) {
    a.failedLoginAttempts <= MAX_ATTEMPTS && (a.lockedUntil.Some? <==> a.failedLoginAttempts == MAX_ATTEMPTS)
  }

  function Run(a: Account, totpEnabled: bool, ts: seq<Attempt>): Account
    decreases |ts|
  {
    if ts == [] then a else Run(Step(a, totpEnabled, ts[0]), totpEnabled, ts[1..])
  }

  lemma {:induction false} CounterStaysWithinLimit(a: Account, totpEnabled: bool, ts: seq<Attempt>)
    requires Valid(a)
    ensures Valid(Run(a, totpEnabled, ts))
    decreases |ts|
  {
    if ts != [] {
      CounterStaysWithinLimit(Step(a, totpEnabled, ts[0]), totpEnabled, ts[1..]);
    }
  }

  function Failures(a: Account, totpEnabled: bool, ts: seq<Attempt>): nat
    decreases |ts|
  {
    if ts == [] then 0
    else (if Answer(a, totpEnabled, ts[0]).Unauthorized? then 1 else 0)
         + Failures(Step(a, totpEnabled, ts[0]), totpEnabled, ts[1..])
  }

  function Successes(a: Account, totpEnabled: bool, ts: seq<Attempt>): nat
    decreases |ts|
  {
    if ts == [] then 0
    else (if Answer(a, totpEnabled, ts[0]).Success? then 1 else 0)
         + Successes(Step(a, totpEnabled, ts[0]), totpEnabled, ts[1..])
  }

  /** Requests follow one another on a clock that does not step back. */
  predicate Ordered(ts: seq<Attempt>, from_: real)
    decreases |ts|
  {
    ts == [] || (from_ <= ts[0].checkedAt <= ts[0].recordedAt && Ordered(ts[1..], ts[0].recordedAt))
  }

  predicate AllBefore(ts: seq<Attempt>, end: real) {
    forall i :: 0 <= i < |ts| ==> ts[i].checkedAt < end
  }

  predicate AllFrom(ts: seq<Attempt>, start: real) {
    forall i :: 0 <= i < |ts| ==> start <= ts[i].checkedAt
  }

  predicate AllBlocked(a: Account, totpEnabled: bool, ts: seq<Attempt>)
    decreases |ts|
  {
    ts == []
    || (Answer(a, totpEnabled, ts[0]).TooManyRequests? && AllBlocked(Step(a, totpEnabled, ts[0]), totpEnabled, ts[1..]))
  }

  /** Until the lock expires every request is turned away, right credentials included, and
      the account does not change. */
  lemma {:induction false} LockHolds(a: Account, totpEnabled: bool, ts: seq<Attempt>)
    requires a.lockedUntil.Some? && AllBefore(ts, a.lockedUntil.value)
    ensures AllBlocked(a, totpEnabled, ts) && Run(a, totpEnabled, ts) == a
    decreases |ts|
  {
    if ts != [] {
      LockHolds(a, totpEnabled, ts[1..]);
    }
  }

  /** Failures still possible for requests arriving before the given end. */
  function Allowance(a: Account, end: real): int {
    match a.lockedUntil
    case Some(until) => if until >= end then 0 else MAX_ATTEMPTS
    case None => MAX_ATTEMPTS - a.failedLoginAttempts
  }

  /** In a window of at most a quarter of an hour every success makes room for at most four
      more failures, and under a lock that outlasts the window there is neither. */
  lemma {:induction false} FailuresWithinAllowance(
    a: Account, totpEnabled: bool, ts: seq<Attempt>, start: real, end: real)
    requires Valid(a) && Ordered(ts, start) && AllBefore(ts, end) && end <= start + LOCKOUT_MINUTES
    ensures Failures(a, totpEnabled, ts) <= Allowance(a, end) + (MAX_ATTEMPTS - 1) * Successes(a, totpEnabled, ts)
    ensures a.lockedUntil.Some? && a.lockedUntil.value >= end ==>
              Failures(a, totpEnabled, ts) == Successes(a, totpEnabled, ts) == 0
    decreases |ts|
  {
    if ts != [] {
      FailuresWithinAllowance(Step(a, totpEnabled, ts[0]), totpEnabled, ts[1..], ts[0].recordedAt, end);
    }
  }

  lemma {:induction false} FailuresSplit(a: Account, totpEnabled: bool, ts: seq<Attempt>, m: nat)
    requires m <= |ts|
    ensures Failures(a, totpEnabled, ts)
            == Failures(a, totpEnabled, ts[..m]) + Failures(Run(a, totpEnabled, ts[..m]), totpEnabled, ts[m..])
    ensures Successes(a, totpEnabled, ts)
            == Successes(a, totpEnabled, ts[..m]) + Successes(Run(a, totpEnabled, ts[..m]), totpEnabled, ts[m..])
    decreases |ts|
  {
    if m == 0 {
      assert ts[0..] == ts;
    } else {
      FailuresSplit(Step(a, totpEnabled, ts[0]), totpEnabled, ts[1..], m - 1);
      assert ts[1..][..m - 1] == ts[..m][1..] && ts[1..][m - 1..] == ts[m..];
    }
  }

  lemma {:induction false} OrderedSplit(ts: seq<Attempt>, from_: real, m: nat)
    requires Ordered(ts, from_) && m <= |ts|
    ensures Ordered(ts[..m], from_)
    ensures AllFrom(ts, from_)
    ensures forall later :: m < |ts| && later <= ts[m].checkedAt ==> Ordered(ts[m..], later)
    decreases |ts|
  {
    if ts != [] {
      if m == 0 {
        OrderedSplit(ts[1..], ts[0].recordedAt, 0);
      } else {
        OrderedSplit(ts[1..], ts[0].recordedAt, m - 1);
        assert ts[1..][..m - 1] == ts[..m][1..] && ts[1..][m - 1..] == ts[m..];
      }
      assert forall i :: 0 < i < |ts| ==> ts[i] == ts[1..][i - 1];
    }
  }

  /** How many of the first requests arrive before the given time. */
  function CountBefore(ts: seq<Attempt>, end: real): (m: nat)
    ensures m <= |ts| && AllBefore(ts[..m], end)
    ensures m < |ts| ==> ts[m].checkedAt >= end
  {
    if ts == [] || ts[0].checkedAt >= end then 0
    else
      var m := CountBefore(ts[1..], end);
      assert ts[..m + 1] == [ts[0]] + ts[1..][..m];
      m + 1
  }

  /** The rate bound: however many requests come, at most five failures are recorded per
      started quarter of an hour, and at most four more per success. */
  lemma {:induction false} FailureRate(a: Account, totpEnabled: bool, ts: seq<Attempt>, start: real, k: nat)
    requires Valid(a) && Ordered(ts, start)
    requires k >= 1 && AllBefore(ts, start + LOCKOUT_MINUTES * k as real)
    ensures Failures(a, totpEnabled, ts) <= MAX_ATTEMPTS * k + (MAX_ATTEMPTS - 1) * Successes(a, totpEnabled, ts)
    decreases k
  {
    if k == 1 {
      FailuresWithinAllowance(a, totpEnabled, ts, start, start + LOCKOUT_MINUTES);
    } else {
      var end := start + LOCKOUT_MINUTES;
      var m := CountBefore(ts, end);
      OrderedSplit(ts, start, m);
      FailuresSplit(a, totpEnabled, ts, m);
      CounterStaysWithinLimit(a, totpEnabled, ts[..m]);
      FailuresWithinAllowance(a, totpEnabled, ts[..m], start, end);
      assert end + LOCKOUT_MINUTES * (k - 1) as real == start + LOCKOUT_MINUTES * k as real;
      if m < |ts| {
        assert Ordered(ts[m..], end);
      }
      FailureRate(Run(a, totpEnabled, ts[..m]), totpEnabled, ts[m..], end, k - 1);
    }
  }

  function WrongPassword(now: real): Attempt {
    Attempt(now, now, false, false, false, false)
  }

  function RightPassword(now: real): Attempt {
    Attempt(now, now, false, true, true, true)
  }

  function Repeat(t: Attempt, n: nat): seq<Attempt> {
    if n == 0 then [] else [t] + Repeat(t, n - 1)
  }

  predicate InOneInstant(ts: seq<Attempt>, now: real) {
    forall i :: 0 <= i < |ts| ==> ts[i].checkedAt == ts[i].recordedAt == now
  }

  lemma {:induction false} FailingBurst(a: Account, n: nat, now: real, rest: seq<Attempt>)
    requires a.lockedUntil.None? && a.failedLoginAttempts + n < MAX_ATTEMPTS
    ensures Failures(a, false, Repeat(WrongPassword(now), n) + rest)
            == n + Failures(Account(a.failedLoginAttempts + n, None), false, rest)
    ensures Successes(a, false, Repeat(WrongPassword(now), n) + rest)
            == Successes(Account(a.failedLoginAttempts + n, None), false, rest)
    ensures InOneInstant(rest, now) ==> InOneInstant(Repeat(WrongPassword(now), n) + rest, now)
    decreases n
  {
    var ts := Repeat(WrongPassword(now), n) + rest;
    if n == 0 {
      assert ts == rest;
    } else {
      assert ts[0] == WrongPassword(now) && ts[1..] == Repeat(WrongPassword(now), n - 1) + rest;
      FailingBurst(Account(a.failedLoginAttempts + 1, None), n - 1, now, rest);
    }
  }

  /** n times four failures and a success, then five failures, all in one instant. */
  function Bursts(now: real, n: nat): seq<Attempt> {
    Repeat(WrongPassword(now), MAX_ATTEMPTS - 1)
    + if n == 0 then [WrongPassword(now)] else [RightPassword(now)] + Bursts(now, n - 1)
  }

  /** The bound is exact: for every n some run with n successes reaches it in one instant. */
  lemma {:induction false} FailureBoundIsReached(now: real, n: nat)
    ensures Failures(CLEAR, false, Bursts(now, n)) == MAX_ATTEMPTS + (MAX_ATTEMPTS - 1) * n
    ensures Successes(CLEAR, false, Bursts(now, n)) == n && InOneInstant(Bursts(now, n), now)
  {
    var rest := if n == 0 then [WrongPassword(now)] else [RightPassword(now)] + Bursts(now, n - 1);
    FailingBurst(CLEAR, MAX_ATTEMPTS - 1, now, rest);
    if n == 0 {
      assert Failures(Account(MAX_ATTEMPTS - 1, None), false, rest) == 1;
    } else {
      FailureBoundIsReached(now, n - 1);
      assert rest[0] == RightPassword(now) && rest[1..] == Bursts(now, n - 1);
    }
  }
}
