/** Why a contender looping in Lock or RLock is never mistaken for a crashed one. */
module Patience {
  import opened Store
  import opened ArrivalQueue
  import opened Clock

  datatype RetryPolicy = RetryPolicy(base: int, max: int)

  function Base(r: RetryPolicy): int { if r.base <= 0 then 50 * MS else r.base }

  function Max(r: RetryPolicy): int { if r.max <= 0 then 2000 * MS else r.max }

  function Pow2(k: nat): nat { if k == 0 then 1 else 2 * Pow2(k - 1) }

  /** Exponential backoff capped at the maximum, then jittered by 0.8 up to 1.2. */
  function Delay(r: RetryPolicy, attempt: nat, jitter: real): int
    requires 0.8 <= jitter <= 1.2
  {
    Scaled(Capped(r, attempt), jitter)
  }

  function Scaled(d: int, jitter: real): int { (d as real * jitter).Floor }

  function Capped(r: RetryPolicy, attempt: nat): int {
    var d := Base(r) * Pow2(attempt);
    if d > Max(r) then Max(r) else d
  }

  function LongestDelay(r: RetryPolicy): int { Max(r) * 6 / 5 }

  lemma Jittered(d: int, m: int, jitter: real)
    requires 0 <= d <= m && 0.8 <= jitter <= 1.2
    ensures 0 <= Scaled(d, jitter) <= m * 6 / 5
  {
    ScaleBound(d as real, m as real, jitter);
    FloorBound((d as real * jitter).Floor, m);
  }

  lemma Product(a: int, b: int)
    requires a >= 0 && b >= 0
    ensures a * b >= 0
  {
  }

  lemma DelayBound(r: RetryPolicy, attempt: nat, jitter: real)
    requires 0.8 <= jitter <= 1.2
    ensures 0 <= Delay(r, attempt, jitter) <= LongestDelay(r)
  {
    Product(Base(r), Pow2(attempt));
    Jittered(Capped(r, attempt), Max(r), jitter);
  }

  /** The pause before jitter, step by step: it starts at the base, doubles, and stops at the maximum. */
  function Backoff(r: RetryPolicy, attempt: nat): int {
    var most := if r.max <= 0 then 2_000_000_000 else r.max;
    var d := if attempt > 0 then 2 * Backoff(r, attempt - 1) else if r.base <= 0 then 50_000_000 else r.base;
    if d > most then most else d
  }

  lemma {:induction false} BackoffIsPower(r: RetryPolicy, attempt: nat)
    ensures Backoff(r, attempt) == Capped(r, attempt)
  {
    if attempt > 0 {
      BackoffIsPower(r, attempt - 1);
      assert Base(r) * Pow2(attempt) == 2 * (Base(r) * Pow2(attempt - 1)) by {
        Double(Base(r), Pow2(attempt - 1));
      }
    }
  }

  lemma Double(a: int, b: int)
    ensures a * (2 * b) == 2 * (a * b)
  {
  }

  lemma ScaledBetween(d: int, jitter: real)
    ensures Scaled(d, jitter) as real <= d as real * jitter < (Scaled(d, jitter) + 1) as real
  {
    var x := d as real * jitter;
    assert x.Floor as real <= x < (x.Floor + 1) as real;
  }

  /** The pause is the backoff times its jitter, in whole nanoseconds. */
  lemma DelayIsBackoff(r: RetryPolicy, attempt: nat, jitter: real)
    requires 0.8 <= jitter <= 1.2
    ensures Delay(r, attempt, jitter) == Scaled(Backoff(r, attempt), jitter)
  {
    BackoffIsPower(r, attempt);
  }

  lemma FloorBound(d: int, m: int)
    requires d as real <= m as real * 6.0 / 5.0
    ensures d <= m * 6 / 5
  {
    assert (5 * d) as real == 5.0 * d as real;
    assert (m * 6) as real == m as real * 6.0;
  }

  lemma ScaleBound(x: real, m: real, jitter: real)
    requires 0.0 <= x <= m && 0.8 <= jitter <= 1.2
    ensures 0.0 <= x * jitter <= m * 6.0 / 5.0
  {
    assert x * jitter <= x * 1.2;
  }

  // ---------------------------------------------------------------- a contender in the retry loop

  predicate IsLock(c: Command) { c.Write? || c.Read? }

  /** Command `c` in `s` joins or refreshes the entry of `m`, rather than replaying a grant. */
  predicate Enters(s: Redis, c: Command, m: Waiter) {
    Joiner(c) == Some(m) && !(c.Write? && OwnedBy(s, c.token)) && !(c.Read? && ReadHeld(s, c.token, c.stamp))
  }

  /** Command `c` neither admits `m` nor is part of `m` giving up. */
  predicate Spares(s: Redis, c: Command, m: Waiter) {
    Grants(s, c) != Some(m) && c != RemoveRank(m) && c != RemoveSeen(m)
  }

  /** A point of a history: the state at nanosecond `time` of the server's clock, the command that executes next, when
      it was begun and how far the clock of its client was ahead, and when the latest executed attempt of the
      contender was begun. */
  datatype Moment = Moment(state: Redis, time: int, cmd: Command, begun: int, offset: int, latest: int)

  /** Clients stamp with their own clocks: `mine` ahead for the contender, at most `skew` further ahead for others. */
  ghost predicate OnClock(a: Moment, m: Waiter, mine: int, skew: nat, timeout: nat) {
    && a.state.now == Stamp(a.time)
    && (IsLock(a.cmd) ==>
          && a.cmd.stamp == Stamp(a.begun + a.offset) && a.begun <= a.time && a.cmd.timeout == timeout
          && (if Joiner(a.cmd) == Some(m) then a.offset == mine else a.offset <= mine + skew))
  }

  ghost predicate Follows(a: Moment, b: Moment, m: Waiter) {
    b.state == Apply(a.state, a.cmd) && b.latest == if Enters(a.state, a.cmd, m) then a.begun else a.latest
  }

  /** Until it is admitted or gives up, the contender attempts again within `gap` of its latest attempt. */
  ghost predicate Prompt(a: Moment, b: Moment, m: Waiter, gap: int) {
    Spares(a.state, a.cmd, m) && a.time <= a.latest + gap && b.time <= b.latest + gap
  }

  ghost predicate Waits(run: seq<Moment>, m: Waiter, mine: int, skew: nat, gap: int, timeout: nat) {
    && |run| > 1
    && Enters(run[0].state, run[0].cmd, m) && Queued(run[1].state, m)
    && (forall k :: 0 <= k < |run| ==> OnClock(run[k], m, mine, skew, timeout))
    && (forall k :: 0 <= k < |run| - 1 ==> Follows(run[k], run[k + 1], m))
    && (forall k :: 0 < k < |run| - 1 ==> Prompt(run[k], run[k + 1], m, gap))
  }

  /** The gap between attempts is shorter than the timeout on the server's clock, and no longer than it on the clock
      that is furthest ahead. */
  predicate Roomy(gap: int, skew: nat, timeout: nat) {
    gap <= (timeout - 1) * MS && gap + skew <= timeout * MS
  }

  ghost predicate HoldsPlace(s: Redis, m: Waiter, rank: nat, start: int, mine: int, timeout: nat) {
    var q, since := s.queue, Stamp(start);
    && m in q.waiters && q.waiters[m] == rank
    && m in q.seen && q.seen[m] == Stamp(start + mine)
    && since <= s.now
    && since + timeout <= q.waitersExp
    && since + timeout <= q.seenExp
  }

  lemma OthersKeepPlace(q: Queue, m: Waiter, other: Waiter, now: int, stamp: int, timeout: nat)
    requires m in q.waiters && m in q.seen && other != m && stamp <= q.seen[m] + timeout
    ensures var e := Enter(q, other, now, stamp, timeout);
            m in e.waiters && e.waiters[m] == q.waiters[m] && m in e.seen && e.seen[m] == q.seen[m] &&
            e.waitersExp == e.seenExp == now + timeout
  {
    var j := Join(q, other, now, stamp, timeout);
    assert !Stale(j, m, stamp, timeout);
    assert Shielded(j, m, stamp, timeout);
  }

  lemma RefreshKeepsPlace(q: Queue, m: Waiter, now: int, stamp: int, timeout: nat)
    ensures var e := Enter(q, m, now, stamp, timeout);
            m in e.waiters && (m in q.waiters ==> e.waiters[m] == q.waiters[m]) && m in e.seen && e.seen[m] == stamp &&
            e.waitersExp == e.seenExp == now + timeout
  {
    EnterKeepsCaller(q, m, now, stamp, timeout);
  }

  lemma OwnAttemptKeepsPlace(s: Redis, c: Command, begun: int, m: Waiter, rank: nat, start: int, mine: int,
                             timeout: nat)
    requires HoldsPlace(s, m, rank, start, mine, timeout) && IsLock(c)
    requires Joiner(c) == Some(m) && Grants(s, c) != Some(m)
    requires Stamp(begun) <= s.now && c.timeout == timeout && c.stamp == Stamp(begun + mine)
    ensures HoldsPlace(Apply(s, c), m, rank, if Enters(s, c, m) then begun else start, mine, timeout)
  {
    RefreshKeepsPlace(s.queue, m, s.now, c.stamp, timeout);
    if c.Write? { WriteShape(s, c); } else { ReadShape(s, c); }
  }

  /** The part of `HoldsPlace` that is about the queue. */
  ghost predicate InPlace(q: Queue, m: Waiter, rank: nat, seen: int, expiry: int) {
    && m in q.waiters && q.waiters[m] == rank && m in q.seen && q.seen[m] == seen
    && expiry <= q.waitersExp && expiry <= q.seenExp
  }

  lemma OthersLeaveInPlace(q: Queue, m: Waiter, rank: nat, seen: int, expiry: int, other: Waiter, now: int, stamp: int,
                           timeout: nat)
    requires InPlace(q, m, rank, seen, expiry) && other != m && stamp <= seen + timeout && expiry <= now + timeout
    ensures var e := Enter(q, other, now, stamp, timeout);
            InPlace(e, m, rank, seen, expiry) && InPlace(Leave(e, other), m, rank, seen, expiry)
  {
    OthersKeepPlace(q, m, other, now, stamp, timeout);
  }

  lemma OtherAttemptKeepsPlace(s: Redis, c: Command, m: Waiter, rank: nat, start: int, mine: int, timeout: nat)
    requires HoldsPlace(s, m, rank, start, mine, timeout) && IsLock(c) && Joiner(c) != Some(m)
    requires c.timeout == timeout && c.stamp <= Stamp(start + mine) + timeout
    ensures HoldsPlace(Apply(s, c), m, rank, start, mine, timeout)
  {
    var seen, expiry := Stamp(start + mine), Stamp(start) + timeout;
    OthersLeaveInPlace(s.queue, m, rank, seen, expiry, Joiner(c).value, s.now, c.stamp, timeout);
    if c.Write? { WriteShape(s, c); } else { ReadShape(s, c); }
    assert InPlace(Apply(s, c).queue, m, rank, seen, expiry);
  }

  lemma StepKeepsPlace(s: Redis, c: Command, begun: int, m: Waiter, rank: nat, start: int, mine: int, timeout: nat)
    requires HoldsPlace(s, m, rank, start, mine, timeout)
    requires IsLock(c) ==> Stamp(begun) <= s.now && c.timeout == timeout
    requires IsLock(c) ==>
               if Joiner(c) == Some(m) then c.stamp == Stamp(begun + mine) else c.stamp <= Stamp(start + mine) + timeout
    requires !Enters(s, c, m) ==> Apply(s, c).now < Stamp(start) + timeout
    requires Spares(s, c, m)
    ensures HoldsPlace(Apply(s, c), m, rank, if Enters(s, c, m) then begun else start, mine, timeout)
  {
    if IsLock(c) && Joiner(c) == Some(m) {
      OwnAttemptKeepsPlace(s, c, begun, m, rank, start, mine, timeout);
    } else if IsLock(c) {
      OtherAttemptKeepsPlace(s, c, m, rank, start, mine, timeout);
    }
  }

  lemma JoinTakesPlace(s: Redis, c: Command, begun: int, mine: int, m: Waiter, timeout: nat)
    requires Enters(s, c, m) && Queued(Apply(s, c), m)
    requires c.stamp == Stamp(begun + mine) && Stamp(begun) <= s.now && c.timeout == timeout
    ensures HoldsPlace(Apply(s, c), m, Rank(Apply(s, c), m), begun, mine, timeout)
  {
    RefreshKeepsPlace(s.queue, m, s.now, c.stamp, timeout);
    if c.Write? { WriteShape(s, c); } else { ReadShape(s, c); }
  }

  lemma PromptStepKeepsPlace(
    a: Moment, b: Moment, m: Waiter, rank: nat, mine: int, skew: nat, gap: int, timeout: nat)
    requires HoldsPlace(a.state, m, rank, a.latest, mine, timeout)
    requires OnClock(a, m, mine, skew, timeout) && OnClock(b, m, mine, skew, timeout)
    requires Follows(a, b, m) && Prompt(a, b, m, gap) && Roomy(gap, skew, timeout)
    ensures HoldsPlace(b.state, m, rank, b.latest, mine, timeout)
  {
    if !Enters(a.state, a.cmd, m) {
      GapWithinTimeout(a.latest, b.time, gap, timeout);
    }
    if IsLock(a.cmd) {
      StampMonotone(a.begun, a.time);
      if Joiner(a.cmd) != Some(m) { StampWithin(a.begun + a.offset, a.latest + mine, timeout); }
    }
    StepKeepsPlace(a.state, a.cmd, a.begun, m, rank, a.latest, mine, timeout);
  }

  lemma {:induction false} PromptContenderKeepsPlace(
    run: seq<Moment>, m: Waiter, mine: int, skew: nat, gap: int, timeout: nat, j: nat)
    requires Waits(run, m, mine, skew, gap, timeout) && Roomy(gap, skew, timeout) && 0 < j < |run|
    ensures HoldsPlace(run[j].state, m, Rank(run[1].state, m), run[j].latest, mine, timeout)
  {
    var a, b := run[j - 1], run[j];
    assert Follows(run[j - 1], run[j - 1 + 1], m);
    if j == 1 {
      StampMonotone(a.begun, a.time);
      JoinTakesPlace(a.state, a.cmd, a.begun, mine, m, timeout);
    } else {
      PromptContenderKeepsPlace(run, m, mine, skew, gap, timeout, j - 1);
      assert Prompt(run[j - 1], run[j - 1 + 1], m, gap);
      PromptStepKeepsPlace(a, b, m, Rank(run[1].state, m), mine, skew, gap, timeout);
    }
  }

  lemma GapWithinTimeout(start: int, t: int, gap: int, timeout: nat)
    requires t <= start + gap && gap <= (timeout - 1) * MS
    ensures Stamp(t) < Stamp(start) + timeout
  {
    StampBounds(start);
    StampBounds(t);
  }

  lemma StampWithin(x: int, y: int, timeout: nat)
    requires x <= y + timeout * MS
    ensures Stamp(x) <= Stamp(y) + timeout
  {
    StampBounds(x);
    StampBounds(y);
  }

  // ---------------------------------------------------------------- how long a pause is too long

  /** A contender that pauses for at most `gap` never loses its rank, in any history. */
  ghost predicate NeverLoses(m: Waiter, mine: int, skew: nat, gap: int, timeout: nat) {
    forall run: seq<Moment>, k: nat :: Waits(run, m, mine, skew, gap, timeout) && 0 < k < |run| ==> KeepsRank(run, m, k)
  }

  ghost predicate KeepsRank(run: seq<Moment>, m: Waiter, k: nat)
    requires 0 < k < |run| && Queued(run[1].state, m)
  {
    Queued(run[k].state, m) && Rank(run[k].state, m) == Rank(run[1].state, m)
  }

  function Attempt(m: Waiter, stamp: int, timeout: nat): Command {
    if m.Writer? then Write(m.token, 1, stamp, timeout) else Read(m.token, 1, stamp, timeout)
  }

  /** A lock held by somebody else, with an empty queue. */
  function Occupied(m: Waiter, now: int, timeout: nat): Redis {
    Redis(now, Owned(m.token + "x", now + timeout), 0, map[], Queue(map[], 0, map[], 0, 0, 0))
  }

  /** Only `m` is queued, last seen at `stamp`, behind a holder, until `expiry`. */
  ghost predicate Alone(s: Redis, m: Waiter, stamp: int, expiry: int) {
    && s.owner == Owned(m.token + "x", expiry) && s.permits == map[] && Ordered(s.queue)
    && s.queue.waiters.Keys == {m} && s.queue.seen == map[m := stamp]
    && s.queue.waitersExp == s.queue.seenExp == expiry
  }

  lemma JoinsEmpty(m: Waiter, now: int, stamp: int, timeout: nat)
    ensures var e := Enter(Queue(map[], 0, map[], 0, 0, 0), m, now, stamp, timeout);
            && e.waiters.Keys == {m} && e.seen == map[m := stamp]
            && e.waitersExp == e.seenExp == now + timeout && Ordered(e)
  {
    RefreshKeepsPlace(Queue(map[], 0, map[], 0, 0, 0), m, now, stamp, timeout);
    EnterEvolves(Queue(map[], 0, map[], 0, 0, 0), m, now, stamp, timeout);
  }

  lemma JoinsOccupied(m: Waiter, now: int, stamp: int, timeout: nat)
    ensures var s := Occupied(m, now, timeout); var s' := Apply(s, Attempt(m, stamp, timeout));
            Enters(s, Attempt(m, stamp, timeout), m) && s'.now == now && Alone(s', m, stamp, now + timeout)
  {
    var s := Occupied(m, now, timeout);
    assert |m.token + "x"| == |m.token| + 1;
    assert !ReadHeld(s, m.token, stamp) by { assert Permit(m.token, 0) !in s.permits; }
    JoinsEmpty(m, now, stamp, timeout);
  }

  lemma AloneLater(s: Redis, m: Waiter, stamp: int, expiry: int, ms: nat)
    requires Alone(s, m, stamp, expiry)
    ensures if s.now + ms < expiry then Alone(Advance(s, ms), m, stamp, expiry) else !Queued(Advance(s, ms), m)
  {
  }

  /** The pause lasts until the queue key expires. */
  lemma KeyExpires(m: Waiter, mine: int, skew: nat, gap: int, timeout: nat) returns (run: seq<Moment>)
    requires gap > (timeout - 1) * MS && timeout >= 1
    ensures Waits(run, m, mine, skew, gap, timeout) && |run| == 3 && !KeepsRank(run, m, 2)
  {
    var t := MS - 1;
    var try := Attempt(m, Stamp(t + mine), timeout);
    JoinsOccupied(m, 0, Stamp(t + mine), timeout);
    var s0 := Occupied(m, 0, timeout);
    var s1 := Apply(s0, try);
    AloneLater(s1, m, Stamp(t + mine), timeout, timeout);
    run := [Moment(s0, t, try, t, mine, t), Moment(s1, t, Tick(timeout), t, mine, t),
            Moment(Advance(s1, timeout), timeout * MS, Tick(0), t, mine, t)];
    assert Stamp(timeout * MS) == timeout;
  }

  lemma PurgesStale(s: Redis, m: Waiter, o: Token, seen: int, expiry: int, stamp: int, timeout: nat)
    requires Alone(s, m, seen, expiry) && o != m.token && o != m.token + "x" && seen < stamp - timeout
    ensures !Queued(Apply(s, Write(o, 1, stamp, timeout)), m) && Grants(s, Write(o, 1, stamp, timeout)).None?
    ensures Apply(s, Write(o, 1, stamp, timeout)).now == s.now
  {
    var q, w := s.queue, Writer(o);
    var j := Join(q, w, s.now, stamp, timeout);
    assert j.waiters.Keys == {m, w} && j.waiters[m] < j.waiters[w];
    assert Stale(j, m, stamp, timeout);
    assert !Shielded(j, m, stamp, timeout);
  }

  lemma StampedPast(gap: nat, skew: nat, timeout: nat)
    requires gap + skew > timeout * MS
    ensures Stamp(MS - 1 + gap + skew) > timeout
  {
    StampMonotone((timeout + 1) * MS, MS - 1 + gap + skew);
  }

  /** On the server: `m` joins, `d` milliseconds pass, and `o` with stamp `late` purges it. */
  lemma Purged(m: Waiter, o: Token, now: int, d: nat, late: int, timeout: nat)
    returns (s0: Redis, s1: Redis, s2: Redis, s3: Redis)
    requires d < timeout && timeout < late && |o| == |m.token| + 2
    ensures Enters(s0, Attempt(m, 0, timeout), m) && s1 == Apply(s0, Attempt(m, 0, timeout)) && Queued(s1, m)
    ensures s2 == Apply(s1, Tick(d)) && s3 == Apply(s2, Write(o, 1, late, timeout)) && !Queued(s3, m)
    ensures Grants(s2, Write(o, 1, late, timeout)).None?
    ensures s0.now == s1.now == now && s2.now == s3.now == now + d
  {
    s0 := Occupied(m, now, timeout);
    JoinsOccupied(m, now, 0, timeout);
    s1 := Apply(s0, Attempt(m, 0, timeout));
    AloneLater(s1, m, 0, now + timeout, d);
    s2 := Advance(s1, d);
    assert |m.token + "x"| == |m.token| + 1;
    PurgesStale(s2, m, o, 0, now + timeout, late, timeout);
    s3 := Apply(s2, Write(o, 1, late, timeout));
  }

  /** The pause lasts until a contender whose clock is furthest ahead takes it for a crash. */
  lemma TakenForCrashed(m: Waiter, mine: int, skew: nat, gap: nat, timeout: nat) returns (run: seq<Moment>)
    requires gap <= (timeout - 1) * MS && gap + skew > timeout * MS
    ensures Waits(run, m, mine, skew, gap, timeout) && |run| == 4 && !KeepsRank(run, m, 3)
  {
    var t, o := MS - 1 - mine, m.token + "yy";
    var late := Stamp(MS - 1 + gap + skew);
    StampMonotone(t, t + gap);
    GapWithinTimeout(t, t + gap, gap, timeout);
    StampedPast(gap, skew, timeout);
    var d: nat := Stamp(t + gap) - Stamp(t);
    var s0, s1, s2, s3 := Purged(m, o, Stamp(t), d, late, timeout);
    var try, other := Attempt(m, 0, timeout), Write(o, 1, late, timeout);
    run := Timeline(m, try, other, mine, skew, gap, t, d, timeout, s0, s1, s2, s3);
  }

  lemma Timeline(m: Waiter, try: Command, other: Command, mine: int, skew: nat, gap: nat, t: int, d: nat, timeout: nat,
                 s0: Redis, s1: Redis, s2: Redis, s3: Redis) returns (run: seq<Moment>)
    requires IsLock(try) && Joiner(try) == Some(m) && try.stamp == Stamp(t + mine) && try.timeout == timeout
    requires IsLock(other) && Joiner(other) != Some(m) && other.timeout == timeout
    requires other.stamp == Stamp(t + gap + mine + skew) && Stamp(t + gap) == Stamp(t) + d
    requires Enters(s0, try, m) && s1 == Apply(s0, try) && Queued(s1, m) && s2 == Apply(s1, Tick(d))
    requires s3 == Apply(s2, other) && !Queued(s3, m) && Grants(s2, other).None?
    requires s0.now == s1.now == Stamp(t) && s2.now == s3.now == Stamp(t) + d
    ensures Waits(run, m, mine, skew, gap, timeout) && |run| == 4 && !KeepsRank(run, m, 3)
  {
    var m0, m1 := Moment(s0, t, try, t, mine, t), Moment(s1, t, Tick(d), t, mine, t);
    var m2 := Moment(s2, t + gap, other, t + gap, mine + skew, t);
    var m3 := Moment(s3, t + gap, Tick(0), t, mine, t);
    Overtaken(m0, m1, m2, m3, m, mine, skew, gap, timeout);
    run := [m0, m1, m2, m3];
  }

  /** An attempt of `m`, a pause, and an attempt of somebody else that is not admitted. */
  lemma Overtaken(m0: Moment, m1: Moment, m2: Moment, m3: Moment, m: Waiter, mine: int, skew: nat, gap: nat,
                  timeout: nat)
    requires OnClock(m0, m, mine, skew, timeout) && OnClock(m1, m, mine, skew, timeout)
    requires OnClock(m2, m, mine, skew, timeout) && OnClock(m3, m, mine, skew, timeout)
    requires Enters(m0.state, m0.cmd, m) && m1.state == Apply(m0.state, m0.cmd) && Queued(m1.state, m)
    requires m1.cmd.Tick? && m2.state == Apply(m1.state, m1.cmd) && m3.state == Apply(m2.state, m2.cmd)
    requires IsLock(m2.cmd) && Joiner(m2.cmd) != Some(m) && Grants(m2.state, m2.cmd).None?
    requires m0.begun == m1.latest == m2.latest == m3.latest
    requires m1.time <= m1.latest + gap && m2.time <= m1.latest + gap && m3.time <= m1.latest + gap
    ensures Waits([m0, m1, m2, m3], m, mine, skew, gap, timeout)
  {
    FourMoments(m0, m1, m2, m3, m, mine, skew, gap, timeout);
  }

  lemma FourMoments(a: Moment, b: Moment, c: Moment, d: Moment, m: Waiter, mine: int, skew: nat, gap: int, timeout: nat)
    requires OnClock(a, m, mine, skew, timeout) && OnClock(b, m, mine, skew, timeout)
    requires OnClock(c, m, mine, skew, timeout) && OnClock(d, m, mine, skew, timeout)
    requires Enters(a.state, a.cmd, m) && Queued(b.state, m)
    requires Follows(a, b, m) && Follows(b, c, m) && Follows(c, d, m) && Prompt(b, c, m, gap) && Prompt(c, d, m, gap)
    ensures Waits([a, b, c, d], m, mine, skew, gap, timeout)
  {
  }

  /** A contender that pauses for at most `gap` keeps its rank in every history if and only if the gap is roomy. */
  lemma KeepsPlaceExactlyWhenRoomy(m: Waiter, mine: int, skew: nat, gap: nat, timeout: nat)
    requires timeout >= 1
    ensures NeverLoses(m, mine, skew, gap, timeout) <==> Roomy(gap, skew, timeout)
  {
    if Roomy(gap, skew, timeout) {
      forall run: seq<Moment>, k: nat | Waits(run, m, mine, skew, gap, timeout) && 0 < k < |run|
        ensures KeepsRank(run, m, k)
      {
        PromptContenderKeepsPlace(run, m, mine, skew, gap, timeout, k);
      }
    } else if gap > (timeout - 1) * MS {
      var run := KeyExpires(m, mine, skew, gap, timeout);
      assert !KeepsRank(run, m, 2);
    } else {
      var run := TakenForCrashed(m, mine, skew, gap, timeout);
      assert !KeepsRank(run, m, 3);
    }
  }

  // ---------------------------------------------------------------- the retry loop itself

  /** One turn of the loop: when the client read its clock, when the server first executed the attempt, when the reply
      (busy) was in, and the jitter of the pause that followed. */
  datatype Try = Try(begun: int, executed: int, replied: int, jitter: real)

  ghost predicate Timely(a: Try, latency: nat) {
    a.begun <= a.executed <= a.begun + latency && a.begun <= a.replied <= a.begun + latency && 0.8 <= a.jitter <= 1.2
  }

  /** Attempt, reply, pause, next attempt. */
  ghost predicate Loops(tries: seq<Try>, retry: RetryPolicy, latency: nat) {
    && (forall k :: 0 <= k < |tries| ==> Timely(tries[k], latency))
    && (forall k {:trigger tries[k]} :: 0 < k < |tries| ==>
          tries[k].begun == tries[k - 1].replied + Delay(retry, k - 1, tries[k - 1].jitter))
  }

  /** The execution of `a`, with `n` tries of the contender executed before it and `n'` after it: it is the next try of
      the loop, or a repeated execution of the last one, or somebody else's command. */
  ghost predicate Counts(a: Moment, m: Waiter, tries: seq<Try>, n: nat, n': nat) {
    if !Enters(a.state, a.cmd, m) then n' == n
    else if n' == n then 0 < n <= |tries| && a.begun == tries[n - 1].begun
    else n' == n + 1 && n < |tries| && a.begun == tries[n].begun && a.time == tries[n].executed
  }

  /** A history of the server with a contender in its loop: `done[k]` tries have been executed before moment `k`, the
      next one is not overdue, and the contender has been neither admitted nor has it given up. */
  ghost predicate Contends(
    run: seq<Moment>, done: seq<nat>, tries: seq<Try>, m: Waiter, mine: int, skew: nat, timeout: nat)
  {
    && |run| == |done| > 1 && done[0] == 0 && done[1] == 1
    && Enters(run[0].state, run[0].cmd, m) && Queued(run[1].state, m)
    && (forall k :: 0 <= k < |run| ==> OnClock(run[k], m, mine, skew, timeout))
    && (forall k :: 0 <= k < |run| ==> done[k] < |tries| && run[k].time <= tries[done[k]].executed)
    && (forall k: nat :: k < |run| - 1 ==> Advances(run, done, tries, m, k))
    && (forall k :: 0 < k < |run| - 1 ==> Spares(run[k].state, run[k].cmd, m))
  }

  ghost predicate Advances(run: seq<Moment>, done: seq<nat>, tries: seq<Try>, m: Waiter, k: nat)
    requires k + 1 < |run| == |done|
  {
    Follows(run[k], run[k + 1], m) && Counts(run[k], m, tries, done[k], done[k + 1])
  }

  /** Two tries in a row lie within two call latencies and one pause. */
  lemma NextTrySoon(tries: seq<Try>, retry: RetryPolicy, latency: nat, n: nat)
    requires Loops(tries, retry, latency) && 0 < n < |tries|
    ensures tries[n].executed <= tries[n - 1].begun + 2 * latency + LongestDelay(retry)
  {
    assert Timely(tries[n], latency) && Timely(tries[n - 1], latency);
    DelayBound(retry, n - 1, tries[n - 1].jitter);
  }

  lemma LatestAfter(a: Moment, b: Moment, tries: seq<Try>, m: Waiter, n: nat, n': nat)
    requires Follows(a, b, m) && Counts(a, m, tries, n, n') && n <= |tries|
    requires if n == 0 then Enters(a.state, a.cmd, m) else a.latest == tries[n - 1].begun
    ensures 0 < n' <= |tries| && b.latest == tries[n' - 1].begun
  {
  }

  lemma {:induction false} LatestIsLastTry(
    run: seq<Moment>, done: seq<nat>, tries: seq<Try>, m: Waiter, mine: int, skew: nat, timeout: nat, k: nat)
    requires Contends(run, done, tries, m, mine, skew, timeout) && 0 < k < |run|
    ensures done[k] > 0 && run[k].latest == tries[done[k] - 1].begun
  {
    assert Advances(run, done, tries, m, k - 1);
    if k > 1 { LatestIsLastTry(run, done, tries, m, mine, skew, timeout, k - 1); }
    LatestAfter(run[k - 1], run[k], tries, m, done[k - 1], done[k]);
  }

  lemma LoopIsPrompt(run: seq<Moment>, done: seq<nat>, tries: seq<Try>, m: Waiter, mine: int, skew: nat, timeout: nat,
                     retry: RetryPolicy, latency: nat, k: nat)
    requires Contends(run, done, tries, m, mine, skew, timeout) && Loops(tries, retry, latency) && 0 < k < |run|
    ensures run[k].time <= run[k].latest + 2 * latency + LongestDelay(retry)
  {
    LatestIsLastTry(run, done, tries, m, mine, skew, timeout, k);
    NextTrySoon(tries, retry, latency, done[k]);
  }

  /** A contender looping in Lock or RLock, whatever its jitter and whatever others do, is never purged and keeps its
      rank until it is admitted or gives up, if two call latencies and the longest pause fit into the waiter timeout. */
  lemma PatientContenderKeepsPlace(run: seq<Moment>, done: seq<nat>, tries: seq<Try>, m: Waiter, mine: int,
                                   skew: nat, ttl: nat, retry: RetryPolicy, latency: nat)
    requires Contends(run, done, tries, m, mine, skew, WaiterTimeout(ttl)) && Loops(tries, retry, latency)
    requires Roomy(2 * latency + LongestDelay(retry), skew, WaiterTimeout(ttl))
    ensures forall k :: 0 < k < |run| ==>
              Queued(run[k].state, m) && Rank(run[k].state, m) == Rank(run[1].state, m)
  {
    var gap := 2 * latency + LongestDelay(retry);
    forall k | 0 < k < |run| - 1 ensures Prompt(run[k], run[k + 1], m, gap) {
      LoopIsPrompt(run, done, tries, m, mine, skew, WaiterTimeout(ttl), retry, latency, k);
      LoopIsPrompt(run, done, tries, m, mine, skew, WaiterTimeout(ttl), retry, latency, k + 1);
    }
    forall k | 0 <= k < |run| - 1 ensures Follows(run[k], run[k + 1], m) { assert Advances(run, done, tries, m, k); }
    forall k | 0 < k < |run|
      ensures Queued(run[k].state, m) && Rank(run[k].state, m) == Rank(run[1].state, m)
    {
      PromptContenderKeepsPlace(run, m, mine, skew, gap, WaiterTimeout(ttl), k);
    }
  }
}
