/** The per-user record of failed logins (src/Entity/LoginAttempt.php):
    a counter and the instant until which the account is locked. Instants
    are whole seconds since the epoch, and the current instant, which the
    source reads from the clock, is a parameter. */
module LoginAttempts {
  import opened Common

  /** The two fields the lockout policy reads and writes. */
  datatype Record = Record(failedAttempts: int, lockedUntil: Option<int>)

  /** `isLocked`: a lock is in force strictly before its end instant. */
  predicate Locked(r: Record, now: int)
  {
    r.lockedUntil.Some? && r.lockedUntil.value > now
  }

  class LoginAttempt {
    const user: UserId
    var failedAttempts: int
    var lockedUntil: Option<int>
    const createdAt: int
    var updatedAt: int

    /** A fresh record: no failures and no lock. */
    constructor(user: UserId, now: int)
      ensures this.user == user && createdAt == now && updatedAt == now
      ensures failedAttempts == 0 && lockedUntil == None
    {
      this.user := user;
      failedAttempts := 0;
      lockedUntil := None;
      createdAt := now;
      updatedAt := now;
    }

    function Snapshot(): Record
      reads this
    {
      Record(failedAttempts, lockedUntil)
    }

    /** Sets the counter and nothing else (the source does not touch
        `updatedAt` here). */
    method SetFailedAttempts(n: int)
      modifies this`failedAttempts
      ensures failedAttempts == n
    {
      failedAttempts := n;
    }

    method IncrementFailedAttempts(now: int)
      modifies this`failedAttempts, this`updatedAt
      ensures failedAttempts == old(failedAttempts) + 1 && updatedAt == now
    {
      failedAttempts := failedAttempts + 1;
      updatedAt := now;
    }

    method ResetFailedAttempts(now: int)
      modifies this`failedAttempts, this`lockedUntil, this`updatedAt
      ensures failedAttempts == 0 && lockedUntil == None && updatedAt == now
      ensures !Locked(Snapshot(), now)
    {
      failedAttempts := 0;
      lockedUntil := None;
      updatedAt := now;
    }

    method SetLockedUntil(until: Option<int>, now: int)
      modifies this`lockedUntil, this`updatedAt
      ensures lockedUntil == until && updatedAt == now
    {
      lockedUntil := until;
      updatedAt := now;
    }

    /** `isLocked`: a record without a lock instant is never locked; a
        lock in force now stays in force up to its end instant and is over
        at that instant. */
    predicate IsLocked(now: int)
      reads this
      ensures lockedUntil.None? ==> !IsLocked(now)
      ensures IsLocked(now) ==> forall t :: now <= t < lockedUntil.value ==> Locked(Snapshot(), t)
      ensures IsLocked(now) ==> !Locked(Snapshot(), lockedUntil.value)
    {
      Locked(Snapshot(), now)
    }

    /** Locks for `seconds` seconds from now; the counter is kept. */
    method LockAccount(seconds: int, now: int)
      modifies this`lockedUntil, this`updatedAt
      ensures lockedUntil == Some(now + seconds) && updatedAt == now
      ensures seconds > 0 ==> IsLocked(now)
    {
      lockedUntil := Some(now + seconds);
      updatedAt := now;
    }
  }
}
