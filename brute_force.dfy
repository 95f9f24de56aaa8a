/** The login lockout policy (src/Service/BruteForceProtectionService.php):
    every failed login of a known user is counted in that user's record,
    created on the first failure; from the tenth consecutive failure on,
    every failure locks the account, for 300 seconds doubled for each
    further batch of ten failures; a successful login clears the record. */
module BruteForce {
  import opened Common
  import opened LoginAttempts

  const FailedAttemptsThreshold := 10
  const BaseLockoutDuration := 300
  const LockoutMultiplier := 2

  function Pow(b: nat, e: nat): nat
  {
    if e == 0 then 1 else b * Pow(b, e - 1)
  }

  /** `ceil(n / d)` for a natural number n and a positive divisor d. */
  function CeilDiv(n: nat, d: nat): nat
    requires d > 0
  {
    (n + d - 1) / d
  }

  /** How long the n-th consecutive failure locks the account:
      300 · 2^(⌈n/10⌉ − 1) seconds. */
  function LockoutDuration(n: int): int
    requires n >= FailedAttemptsThreshold
  {
    BaseLockoutDuration * Pow(LockoutMultiplier, CeilDiv(n, FailedAttemptsThreshold) - 1)
  }

  // ---------------------------------------------------------------------
  // The schedule

  lemma {:induction false} PowPositive(b: nat, e: nat)
    requires b >= 1
    ensures Pow(b, e) >= 1
  {
    if e > 0 {
      PowPositive(b, e - 1);
    }
  }

  /** Doubling never shrinks the lockout: 2^d <= 2^e for d <= e. */
  lemma {:induction false} PowMonotone(d: nat, e: nat)
    requires d <= e
    ensures Pow(LockoutMultiplier, d) <= Pow(LockoutMultiplier, e)
  {
    if d < e {
      PowMonotone(d, e - 1);
      PowPositive(LockoutMultiplier, e - 1);
      assert Pow(LockoutMultiplier, e) == 2 * Pow(LockoutMultiplier, e - 1);
    }
  }

  /** The first three batches: 300 s at the tenth failure, 600 s for the
      11th to the 20th, 1200 s for the 21st to the 30th. */
  lemma LockoutSchedule()
    ensures LockoutDuration(10) == 300
    ensures forall n :: 11 <= n <= 20 ==> LockoutDuration(n) == 600
    ensures forall n :: 21 <= n <= 30 ==> LockoutDuration(n) == 1200
  {
    forall n | 11 <= n <= 20 ensures LockoutDuration(n) == 600 {
      assert CeilDiv(n, 10) == 2;
    }
    forall n | 21 <= n <= 30 ensures LockoutDuration(n) == 1200 {
      assert CeilDiv(n, 10) == 3;
      assert Pow(2, 2) == 4;
    }
  }

  /** Ten more failures double the lock. */
  lemma LockoutDoublesEveryTenFailures(n: int)
    requires n >= FailedAttemptsThreshold
    ensures LockoutDuration(n + 10) == 2 * LockoutDuration(n)
  {
    assert CeilDiv(n + 10, 10) == CeilDiv(n, 10) + 1;
  }

  /** More failures never shorten the lock, and no lock is shorter than
      the base duration. */
  lemma LockoutMonotone(m: int, n: int)
    requires FailedAttemptsThreshold <= m <= n
    ensures BaseLockoutDuration <= LockoutDuration(m) <= LockoutDuration(n)
  {
    PowPositive(LockoutMultiplier, CeilDiv(m, 10) - 1);
    PowMonotone(CeilDiv(m, 10) - 1, CeilDiv(n, 10) - 1);
  }

  /** The same duration in closed form: 300 · 2^⌊(n − 1)/10⌋. */
  lemma LockoutClosedForm(n: int)
    requires n >= FailedAttemptsThreshold
    ensures LockoutDuration(n) == BaseLockoutDuration * Pow(LockoutMultiplier, (n - 1) / 10)
  {
    assert CeilDiv(n, 10) - 1 == (n - 1) / 10;
  }

  lemma {:induction false} PowAdd(b: nat, d: nat, e: nat)
    ensures Pow(b, d + e) == Pow(b, d) * Pow(b, e)
  {
    if e > 0 {
      PowAdd(b, d, e - 1);
      assert Pow(b, d + e) == b * Pow(b, d + e - 1);
    }
  }

  /** PHP's largest integer on a 64-bit build. */
  const PhpIntMax := 0x7fff_ffff_ffff_ffff

  /** The source computes the duration as a float and casts it with `(int)`:
      the product stays within PHP's integers exactly up to the 550th
      failure, so that far the cast gives the duration above exactly. */
  lemma LockoutFitsPhpInt(n: int)
    requires n >= FailedAttemptsThreshold
    ensures LockoutDuration(n) <= PhpIntMax <==> n <= 550
  {
    assert Pow(2, 10) == 0x400;
    PowAdd(2, 10, 10);
    PowAdd(2, 20, 20);
    PowAdd(2, 40, 10);
    PowAdd(2, 50, 4);
    assert Pow(2, 54) == 0x40_0000_0000_0000;
    assert LockoutDuration(550) == 300 * 0x40_0000_0000_0000;
    assert LockoutDuration(551) == 600 * 0x40_0000_0000_0000 by {
      assert CeilDiv(551, 10) - 1 == 55;
    }
    if n <= 550 {
      LockoutMonotone(n, 550);
    } else {
      LockoutMonotone(551, n);
    }
  }

  // ---------------------------------------------------------------------
  // The policy on one user's record (absent until the first failure)

  /** A record the policy can produce: a lock is only ever set once ten
      failures have been counted, and the count is never negative. */
  predicate Consistent(r: Record)
  {
    r.failedAttempts >= 0 && (r.lockedUntil.Some? ==> r.failedAttempts >= FailedAttemptsThreshold)
  }

  function FailuresOf(r: Option<Record>): int
  {
    if r.Some? then r.value.failedAttempts else 0
  }

  /** `recordFailedAttempt`: the new record and the result, which is the
      number of attempts left before a lock, or `None` when the failure
      locked the account. */
  function AfterFailure(r: Option<Record>, now: int): (Record, Option<int>)
  {
    var n := FailuresOf(r) + 1;
    var lock := if r.Some? then r.value.lockedUntil else None;
    if n >= FailedAttemptsThreshold then (Record(n, Some(now + LockoutDuration(n))), None)
    else (Record(n, lock), Some(FailedAttemptsThreshold - n))
  }

  /** `recordSuccessfulLogin` and `resetLoginAttempts`. */
  function AfterSuccess(r: Option<Record>): Option<Record>
  {
    if r.Some? then Some(Record(0, None)) else None
  }

  /** `isAccountLocked`. */
  predicate AccountLocked(r: Option<Record>, now: int)
  {
    r.Some? && Locked(r.value, now)
  }

  /** `getRemainingLockoutTime`: seconds until the lock ends, never
      negative; `None` without a record or without a lock instant. */
  function RemainingLockoutTime(r: Option<Record>, now: int): Option<int>
  {
    if r.None? || r.value.lockedUntil.None? then None
    else Some(Max(0, r.value.lockedUntil.value - now))
  }

  /** The array `getLockoutInfo` returns. */
  datatype LockoutInfo = LockoutInfo(isLocked: bool, failedAttempts: int,
                                     lockedUntil: Option<int>, remainingTime: Option<int>)

  function LockoutInfoOf(r: Option<Record>, now: int): (info: LockoutInfo)
    ensures r.None? ==> info == LockoutInfo(false, 0, None, None)
    ensures info.isLocked == AccountLocked(r, now)
    ensures info.remainingTime.Some? <==> info.isLocked
    ensures info.isLocked ==> info.remainingTime.value > 0
                              && info.remainingTime == RemainingLockoutTime(r, now)
  {
    if r.None? then LockoutInfo(false, 0, None, None)
    else
      var locked := Locked(r.value, now);
      LockoutInfo(locked, r.value.failedAttempts, r.value.lockedUntil,
                  if locked then RemainingLockoutTime(r, now) else None)
  }

  // ---------------------------------------------------------------------
  // What the policy guarantees

  /** A failure adds exactly one to the count. Below the threshold it
      reports 10 − n attempts left (between 1 and 9) and sets no lock; from
      the threshold on it reports `None` and the account is then locked for
      exactly `LockoutDuration(n)` seconds. The counter is never reset by a
      lock, and the record stays consistent. */
  lemma FailureOutcome(r: Option<Record>, now: int)
    requires r.Some? ==> Consistent(r.value)
    ensures var (rec, result) := AfterFailure(r, now);
            var n := FailuresOf(r) + 1;
            && rec.failedAttempts == n
            && Consistent(rec)
            && (n < FailedAttemptsThreshold ==>
                  result == Some(FailedAttemptsThreshold - n) && 1 <= result.value <= 9
                  && rec.lockedUntil.None? && !AccountLocked(Some(rec), now))
            && (n >= FailedAttemptsThreshold ==>
                  result.None? && AccountLocked(Some(rec), now)
                  && RemainingLockoutTime(Some(rec), now) == Some(LockoutDuration(n)))
  {
    var n := FailuresOf(r) + 1;
    if n >= FailedAttemptsThreshold {
      LockoutMonotone(n, n);
    }
  }

  /** The result of a failure is `None` exactly when the account is locked
      afterwards. */
  lemma NullResultMeansLocked(r: Option<Record>, now: int)
    requires r.Some? ==> Consistent(r.value)
    ensures AfterFailure(r, now).1.None? <==> AccountLocked(Some(AfterFailure(r, now).0), now)
  {
    FailureOutcome(r, now);
  }

  /** A success leaves the account unlocked with no failures counted, and
      does not create a record for a user who has none. */
  lemma SuccessOutcome(r: Option<Record>, now: int)
    ensures AfterSuccess(r).None? <==> r.None?
    ensures !AccountLocked(AfterSuccess(r), now) && FailuresOf(AfterSuccess(r)) == 0
    ensures AfterSuccess(r).Some? ==> Consistent(AfterSuccess(r).value)
  {
  }

  /** Locked exactly while some lock time remains. */
  lemma LockedIffTimeRemains(r: Option<Record>, now: int)
    ensures AccountLocked(r, now)
            <==> RemainingLockoutTime(r, now).Some? && RemainingLockoutTime(r, now).value > 0
  {
  }

  /** The record after consecutive failures at the given instants. */
  function AfterFailures(r: Option<Record>, times: seq<int>): Option<Record>
    decreases |times|
  {
    if times == [] then r
    else AfterFailures(Some(AfterFailure(r, times[0]).0), times[1..])
  }

  /** Without a lock, failures that keep the count below ten only count. */
  lemma {:induction false} FailuresBelowThresholdOnlyCount(c: nat, times: seq<int>)
    requires c + |times| < FailedAttemptsThreshold
    decreases |times|
    ensures AfterFailures(Some(Record(c, None)), times) == Some(Record(c + |times|, None))
  {
    if times != [] {
      FailuresBelowThresholdOnlyCount(c + 1, times[1..]);
    }
  }

  /** From a clean slate (no record, or a record just cleared by a
      successful login) nine failures never lock, whenever they happen, and
      the tenth locks the account for 300 seconds. */
  lemma TenthFailureLocks(r: Option<Record>, times: seq<int>, now: int)
    requires r == None || r == Some(Record(0, None))
    requires |times| == 9
    ensures forall k :: 0 <= k <= 9 ==> !AccountLocked(AfterFailures(r, times[..k]), now)
    ensures AfterFailure(AfterFailures(r, times), now) == (Record(10, Some(now + 300)), None)
  {
    forall k | 0 <= k <= 9 ensures !AccountLocked(AfterFailures(r, times[..k]), now) {
      if k > 0 {
        var first := AfterFailure(r, times[0]).0;
        assert first == Record(1, None);
        assert times[..k][1..] == times[1..k];
        FailuresBelowThresholdOnlyCount(1, times[1..k]);
      }
    }
    var first := AfterFailure(r, times[0]).0;
    FailuresBelowThresholdOnlyCount(1, times[1..]);
    assert CeilDiv(10, 10) == 1;
  }

  // ---------------------------------------------------------------------
  // The service over the table of records

  class BruteForceProtection {
    /** The login-attempt table, one record per user that has failed. */
    var records: map<UserId, LoginAttempt>

    constructor()
      ensures records == map[]
    {
      records := map[];
    }

    /** Each user's record is filed under that user (so records of distinct
        users are distinct objects), and every record is consistent. */
    predicate Valid()
      reads this, records.Values
    {
      forall u :: u in records ==> records[u].user == u && Consistent(records[u].Snapshot())
    }

    function RecordOf(u: UserId): Option<Record>
      reads this, records.Values
    {
      if u in records then Some(records[u].Snapshot()) else None
    }

    /** `isAccountLocked`: a user without a record is never locked, and a
        user is locked exactly while some lockout time remains. */
    predicate IsAccountLocked(u: UserId, now: int)
      reads this, records.Values
      ensures u !in records ==> !IsAccountLocked(u, now)
      ensures IsAccountLocked(u, now)
              <==> GetRemainingLockoutTime(u, now).Some? && GetRemainingLockoutTime(u, now).value > 0
    {
      LockedIffTimeRemains(RecordOf(u), now);
      AccountLocked(RecordOf(u), now)
    }

    /** `getRemainingLockoutTime`: null without a record or a lock instant,
        otherwise never negative, and a positive remainder ends exactly at
        the lock instant. */
    function GetRemainingLockoutTime(u: UserId, now: int): (r: Option<int>)
      reads this, records.Values
      ensures r.None? <==> u !in records || records[u].lockedUntil.None?
      ensures r.Some? ==> r.value >= 0
      ensures r.Some? && r.value > 0 ==> records[u].lockedUntil == Some(now + r.value)
    {
      RemainingLockoutTime(RecordOf(u), now)
    }

    /** `getLockoutInfo`: the defaults for a user without a record; the
        lock status, the remaining time (present exactly while locked) and
        the failure count of the user's record otherwise. */
    function GetLockoutInfo(u: UserId, now: int): (info: LockoutInfo)
      reads this, records.Values
      ensures u !in records ==> info == LockoutInfo(false, 0, None, None)
      ensures info.isLocked == IsAccountLocked(u, now)
      ensures info.failedAttempts == FailuresOf(RecordOf(u))
      ensures info.remainingTime.Some? <==> info.isLocked
      ensures info.isLocked ==> info.remainingTime == GetRemainingLockoutTime(u, now)
                                && info.remainingTime.value > 0
    {
      LockoutInfoOf(RecordOf(u), now)
    }

    method RecordFailedAttempt(u: UserId, now: int) returns (remaining: Option<int>)
      requires Valid()
      modifies this`records, records.Values
      ensures Valid()
      ensures RecordOf(u) == Some(old(AfterFailure(RecordOf(u), now)).0)
      ensures remaining == old(AfterFailure(RecordOf(u), now)).1
      ensures records.Keys == old(records.Keys) + {u}
      ensures forall v :: v in old(records) ==> records[v] == old(records[v])
      ensures forall v :: v != u ==> RecordOf(v) == old(RecordOf(v))
    {
      FailureOutcome(RecordOf(u), now);
      var attempt: LoginAttempt;
      if u in records {
        attempt := records[u];
      } else {
        attempt := new LoginAttempt(u, now);
        records := records[u := attempt];
      }
      attempt.IncrementFailedAttempts(now);
      var n := attempt.failedAttempts;
      if n >= FailedAttemptsThreshold {
        attempt.LockAccount(LockoutDuration(n), now);
        remaining := None;
      } else {
        remaining := Some(FailedAttemptsThreshold - n);
      }
    }

    method RecordSuccessfulLogin(u: UserId, now: int)
      requires Valid()
      modifies records.Values
      ensures Valid()
      ensures RecordOf(u) == old(AfterSuccess(RecordOf(u)))
      ensures forall v :: v != u ==> RecordOf(v) == old(RecordOf(v))
    {
      if u in records {
        records[u].ResetFailedAttempts(now);
      }
    }

    /** The manual reset does what a successful login does. */
    method ResetLoginAttempts(u: UserId, now: int)
      requires Valid()
      modifies records.Values
      ensures Valid()
      ensures RecordOf(u) == old(AfterSuccess(RecordOf(u)))
      ensures forall v :: v != u ==> RecordOf(v) == old(RecordOf(v))
    {
      RecordSuccessfulLogin(u, now);
    }
  }
}
