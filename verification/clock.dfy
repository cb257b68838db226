/** Deadline arithmetic: client clocks run in nanoseconds, stamps and server expiries in milliseconds. */
module Clock {
  const MS := 1_000_000

  /** The millisecond stamp of a clock reading. */
  function Stamp(t: int): int { t / MS }

  function TtlMs(ttl: int): int { ttl / MS }

  /** The silence, in milliseconds, after which a queued contender counts as crashed: twice the lease ttl. */
  function WaiterTimeout(ttl: nat): nat { (ttl * 2) / MS }

  /** The local deadline of a request begun at `start`. */
  function RequestExpiry(start: int, ttl: int): int {
    start + (ttl - ttl / 100 - MS)
  }

  /** The score (or earliest key expiry) that a request begun at `start` leaves on the server, in nanoseconds. */
  function ServerExpiry(start: int, ttl: int): int {
    (Stamp(start) + TtlMs(ttl)) * MS
  }

  /** The 1% + 1 ms reserve absorbs both millisecond truncations and a clock difference of `skew`. */
  predicate Margin(ttl: int, skew: int) {
    skew + ttl % MS <= ttl / 100 + 1
  }

  lemma StampBounds(t: int)
    ensures Stamp(t) * MS <= t < Stamp(t) * MS + MS
  {
  }

  lemma StampMonotone(t: int, u: int)
    requires t <= u
    ensures Stamp(t) <= Stamp(u)
  {
  }

  /** The waiter timeout is two ttls, in whole milliseconds. */
  lemma TimeoutIsTwoTtls(ttl: nat)
    ensures WaiterTimeout(ttl) * 1_000_000 <= 2 * ttl < (WaiterTimeout(ttl) + 1) * 1_000_000
  {
  }

  lemma DeadlineWithinMargin(start: int, ttl: int, skew: int)
    requires Margin(ttl, skew)
    ensures RequestExpiry(start, ttl) <= ServerExpiry(start, ttl) - skew
  {
    StampBounds(start);
    assert TtlMs(ttl) * MS == ttl - ttl % MS;
  }

  /** The margin condition is exact: it holds if and only if no request outlives its server record. */
  lemma MarginIsExact(ttl: int, skew: int)
    ensures Margin(ttl, skew) <==>
            forall start :: RequestExpiry(start, ttl) <= ServerExpiry(start, ttl) - skew
  {
    if Margin(ttl, skew) {
      forall start
        ensures RequestExpiry(start, ttl) <= ServerExpiry(start, ttl) - skew
      {
        DeadlineWithinMargin(start, ttl, skew);
      }
    } else {
      var worst := MS - 1;
      assert Stamp(worst) == 0;
      assert TtlMs(ttl) * MS == ttl - ttl % MS;
      assert ServerExpiry(worst, ttl) - skew < RequestExpiry(worst, ttl);
    }
  }

  /** A whole number of milliseconds tolerates a skew of 1% of the ttl; 100 ms or more needs no whole number. */
  lemma UsualMargins(ttl: int)
    requires ttl >= 0
    ensures ttl % MS == 0 ==> Margin(ttl, ttl / 100)
    ensures ttl >= 100 * MS ==> Margin(ttl, 0)
  {
    if ttl >= 100 * MS {
      assert ttl / 100 >= MS;
    }
  }
}
