/** The token-bucket and leaky-bucket rate limiters, over real arithmetic. */
module Buckets {
  /** Capacity and refill (or drain) rate per second. */
  datatype Rate = Rate(capacity: real, perSecond: real)

  ghost predicate Positive(l: Rate) { l.capacity > 0.0 && l.perSecond > 0.0 }

  function Ceil(x: real): int { -((-x).Floor) }

  /** The budget that `ms` milliseconds bring. */
  function Gain(l: Rate, ms: int): real { ms as real / 1000.0 * l.perSecond }

  /** How long, in milliseconds, an amount takes to come back. */
  function WaitFor(l: Rate, amount: real): int
    requires l.perSecond > 0.0
  {
    Ceil(amount / l.perSecond * 1000.0)
  }

  /** The key expiry set by every call: a full refill and one second. */
  function Life(l: Rate): int
    requires l.perSecond > 0.0
  {
    WaitFor(l, l.capacity) + 1000
  }

  datatype Decision = Decision(allowed: bool, retryMs: int)

  /** A call that reaches the server at `server` ms with client stamp `stamp`, asking for `n`. */
  datatype Call = Call(server: int, stamp: int, n: real)

  // ---------------------------------------------------------------- token bucket

  datatype Bucket = Unused | Bucket(tokens: real, ts: int, expireAt: int)

  function Look(b: Bucket, server: int): Bucket {
    if b.Bucket? && b.expireAt <= server then Unused else b
  }

  function Refilled(l: Rate, b: Bucket, stamp: int): real {
    if b.Unused? then l.capacity
    else
      var r := b.tokens + Gain(l, stamp - b.ts);
      if r > l.capacity then l.capacity else r
  }

  /** The script on a key that is either absent or live. */
  function TokenCore(l: Rate, b: Bucket, c: Call): (Bucket, Decision)
    requires l.perSecond > 0.0
  {
    var r := Refilled(l, b, c.stamp);
    if r >= c.n
    then (Bucket(r - c.n, c.stamp, c.server + Life(l)), Decision(true, 0))
    else (Bucket(r, c.stamp, c.server + Life(l)), Decision(false, WaitFor(l, c.n - r)))
  }

  function TokenStep(l: Rate, b: Bucket, c: Call): (Bucket, Decision)
    requires l.perSecond > 0.0
  {
    TokenCore(l, Look(b, c.server), c)
  }

  // ---------------------------------------------------------------- leaky bucket

  datatype Leak = Dry | Leak(level: real, ts: int, expireAt: int)

  function LookLeak(k: Leak, server: int): Leak {
    if k.Leak? && k.expireAt <= server then Dry else k
  }

  function LeakyStep(l: Rate, k0: Leak, c: Call): (Leak, Decision)
    requires l.perSecond > 0.0
  {
    var k := LookLeak(k0, c.server);
    var level := if k.Dry? then 0.0 else k.level;
    var ts := if k.Dry? then c.stamp else k.ts;
    var drained := level - Gain(l, c.stamp - ts);
    var d := if drained < 0.0 then 0.0 else drained;
    if d + c.n <= l.capacity
    then (Leak(d + c.n, c.stamp, c.server + Life(l)), Decision(true, 0))
    else (Leak(d, c.stamp, c.server + Life(l)), Decision(false, WaitFor(l, d + c.n - l.capacity)))
  }

  // ---------------------------------------------------------------- the two are one

  ghost predicate Mirror(l: Rate, b: Bucket, k: Leak) {
    match (b, k)
    case (Unused, Dry) => true
    case (Bucket(tokens, ts, e), Leak(level, ts', e')) => level == l.capacity - tokens && ts' == ts && e' == e
    case _ => false
  }

  function TokenRun(l: Rate, b: Bucket, calls: seq<Call>): seq<Decision>
    requires l.perSecond > 0.0
    decreases |calls|
  {
    if calls == [] then []
    else var (b', d) := TokenStep(l, b, calls[0]); [d] + TokenRun(l, b', calls[1..])
  }

  function LeakyRun(l: Rate, k: Leak, calls: seq<Call>): seq<Decision>
    requires l.perSecond > 0.0
    decreases |calls|
  {
    if calls == [] then []
    else var (k', d) := LeakyStep(l, k, calls[0]); [d] + LeakyRun(l, k', calls[1..])
  }

  lemma MirrorStep(l: Rate, b: Bucket, k: Leak, c: Call)
    requires Positive(l) && Mirror(l, b, k)
    ensures Mirror(l, TokenStep(l, b, c).0, LeakyStep(l, k, c).0)
    ensures TokenStep(l, b, c).1 == LeakyStep(l, k, c).1
  {
    var r := Refilled(l, Look(b, c.server), c.stamp);
    assert Gain(l, 0) == 0.0;
    assert l.capacity - r == var k' := LookLeak(k, c.server);
           var drained := if k'.Dry? then 0.0 else k'.level - Gain(l, c.stamp - k'.ts);
           if drained < 0.0 then 0.0 else drained;
  }

  /** Whatever the calls, their stamps, their amounts and the key expiries: token and leaky bucket take the same
      decisions and report the same waits. */
  lemma {:induction false} TokenAndLeakyAgree(l: Rate, b: Bucket, k: Leak, calls: seq<Call>)
    requires Positive(l) && Mirror(l, b, k)
    ensures TokenRun(l, b, calls) == LeakyRun(l, k, calls)
    decreases |calls|
  {
    if calls != [] {
      MirrorStep(l, b, k, calls[0]);
      TokenAndLeakyAgree(l, TokenStep(l, b, calls[0]).0, LeakyStep(l, k, calls[0]).0, calls[1..]);
    }
  }

  // ---------------------------------------------------------------- how much a bucket admits

  ghost predicate IsRun(l: Rate, buckets: seq<Bucket>, calls: seq<Call>)
    requires l.perSecond > 0.0
  {
    && |buckets| == |calls| + 1
    && forall k {:trigger calls[k]} :: 0 <= k < |calls| ==> buckets[k + 1] == TokenStep(l, buckets[k], calls[k]).0
  }

  predicate Admitting(l: Rate, b: Bucket, c: Call)
    requires l.perSecond > 0.0
  {
    TokenStep(l, b, c).1.allowed
  }

  function Admitted(l: Rate, b: Bucket, c: Call): real
    requires l.perSecond > 0.0
  {
    if Admitting(l, b, c) then c.n else 0.0
  }

  function Total(l: Rate, buckets: seq<Bucket>, calls: seq<Call>, i: nat, j: nat): real
    requires l.perSecond > 0.0 && i <= j <= |calls| <= |buckets|
  {
    if i == j then 0.0 else Total(l, buckets, calls, i, j - 1) + Admitted(l, buckets[j - 1], calls[j - 1])
  }

  /** Tokens less what the passage of time has brought: it falls by what is admitted. */
  function Potential(l: Rate, b: Bucket): real
    requires b.Bucket?
  {
    b.tokens - Gain(l, b.ts)
  }

  lemma GainAdds(l: Rate, a: int, b: int)
    ensures Gain(l, a + b) == Gain(l, a) + Gain(l, b)
  {
    var x, y, r := a as real / 1000.0, b as real / 1000.0, l.perSecond;
    assert (a + b) as real / 1000.0 == x + y;
    assert (x + y) * r == x * r + y * r;
  }

  lemma FirstPotential(l: Rate, b: Bucket, c: Call)
    requires Positive(l)
    ensures Potential(l, TokenStep(l, b, c).0) <= l.capacity - Admitted(l, b, c) - Gain(l, c.stamp)
  {
  }

  lemma PotentialFalls(l: Rate, b: Bucket, c: Call)
    requires Positive(l) && b.Bucket? && Look(b, c.server) == b
    ensures Potential(l, TokenStep(l, b, c).0) <= Potential(l, b) - Admitted(l, b, c)
  {
    GainAdds(l, b.ts, c.stamp - b.ts);
  }

  /** No key expiry between calls `i` and `j - 1`. */
  ghost predicate Alive(buckets: seq<Bucket>, calls: seq<Call>, i: nat, j: nat)
    requires j <= |calls| <= |buckets|
  {
    forall k {:trigger calls[k]} :: i < k < j ==> Look(buckets[k], calls[k].server) == buckets[k]
  }

  lemma {:induction false} PotentialBound(l: Rate, buckets: seq<Bucket>, calls: seq<Call>, i: nat, j: nat)
    requires Positive(l) && IsRun(l, buckets, calls) && i < j <= |calls|
    requires Alive(buckets, calls, i, j)
    ensures buckets[j].Bucket? &&
            Potential(l, buckets[j]) <= l.capacity - Total(l, buckets, calls, i, j) - Gain(l, calls[i].stamp)
  {
    assert buckets[j] == TokenStep(l, buckets[j - 1], calls[j - 1]).0;
    if j == i + 1 {
      FirstPotential(l, buckets[i], calls[i]);
      assert Total(l, buckets, calls, i, i) == 0.0;
    } else {
      PotentialBound(l, buckets, calls, i, j - 1);
      PotentialFalls(l, buckets[j - 1], calls[j - 1]);
    }
  }

  lemma Conclude(l: Rate, b: Bucket, total: real, first: int, last: int)
    requires b.Bucket? && -Gain(l, last) <= Potential(l, b) <= l.capacity - total - Gain(l, first)
    ensures total <= l.capacity + Gain(l, last - first)
  {
    GainAdds(l, first, last - first);
  }

  lemma SolventBound(l: Rate, buckets: seq<Bucket>, calls: seq<Call>, i: nat, j: nat, b: Bucket)
    requires Positive(l) && IsRun(l, buckets, calls) && i <= j < |calls| && Alive(buckets, calls, i, j + 1)
    requires b == buckets[j + 1] && b.Bucket? && b.tokens >= 0.0 && b.ts == calls[j].stamp
    ensures Total(l, buckets, calls, i, j + 1) <= l.capacity + Gain(l, calls[j].stamp - calls[i].stamp)
  {
    PotentialBound(l, buckets, calls, i, j + 1);
    Conclude(l, b, Total(l, buckets, calls, i, j + 1), calls[i].stamp, calls[j].stamp);
  }

  lemma AdmittedIsSolvent(l: Rate, b: Bucket, c: Call)
    requires Positive(l) && Admitting(l, b, c)
    ensures TokenStep(l, b, c).0.tokens >= 0.0
  {
  }

  /** From call `i` to an admitted call `j` the bucket admits at most its capacity and what the stamps between them
      bring, in whatever order the stamps come. */
  lemma TokenBound(l: Rate, buckets: seq<Bucket>, calls: seq<Call>, i: nat, j: nat)
    requires Positive(l) && IsRun(l, buckets, calls) && i <= j < |calls| && Alive(buckets, calls, i, j + 1)
    requires Admitting(l, buckets[j], calls[j])
    ensures Total(l, buckets, calls, i, j + 1) <= l.capacity + Gain(l, calls[j].stamp - calls[i].stamp)
  {
    AdmittedIsSolvent(l, buckets[j], calls[j]);
    SolventBound(l, buckets, calls, i, j, buckets[j + 1]);
  }

  // ---------------------------------------------------------------- one steady clock

  /** Calls stamped by one clock that never goes back, each asking for something the bucket can ever hold. */
  ghost predicate Steady(l: Rate, from: int, calls: seq<Call>) {
    && (forall k :: 0 <= k < |calls| ==> calls[k].server == calls[k].stamp >= from && 0.0 <= calls[k].n <= l.capacity)
    && (forall i, j :: 0 <= i < j < |calls| ==> calls[i].stamp <= calls[j].stamp)
  }

  /** A bucket as left behind by such calls, the latest at `t` or before. */
  ghost predicate Wholesome(l: Rate, b: Bucket, t: int)
    requires l.perSecond > 0.0
  {
    b.Unused? || (0.0 <= b.tokens <= l.capacity && b.ts <= t && b.expireAt == b.ts + Life(l))
  }

  lemma CeilBounds(x: real)
    ensures x <= Ceil(x) as real < x + 1.0
  {
  }

  lemma WaitGains(l: Rate, amount: real, ms: int)
    requires Positive(l)
    ensures Gain(l, ms) >= amount <==> ms >= WaitFor(l, amount)
  {
    var x := amount / l.perSecond * 1000.0;
    CeilBounds(x);
    var g := ms as real / 1000.0;
    assert g * l.perSecond >= amount <==> g >= amount / l.perSecond by { ScaleUp(g, amount, l.perSecond); }
    assert g >= amount / l.perSecond <==> ms as real >= x;
  }

  lemma ScaleUp(g: real, amount: real, r: real)
    requires r > 0.0
    ensures g * r >= amount <==> g >= amount / r
  {
    var q := amount / r;
    assert q * r == amount;
    if g >= q { assert (g - q) * r >= 0.0; } else { assert (q - g) * r > 0.0; }
  }

  lemma GainMonotone(l: Rate, a: int, b: int)
    requires Positive(l) && a <= b
    ensures Gain(l, a) <= Gain(l, b)
  {
    assert (b as real / 1000.0 - a as real / 1000.0) * l.perSecond >= 0.0;
  }

  /** By the time the key expires the bucket would be full anyway. */
  lemma ExpiryIsFull(l: Rate, b: Bucket, t: int)
    requires Positive(l) && Wholesome(l, b, t)
    ensures Refilled(l, Look(b, t), t) == Refilled(l, b, t)
  {
    if b.Bucket? && b.expireAt <= t {
      WaitGains(l, l.capacity, t - b.ts);
    }
  }

  lemma StepWholesome(l: Rate, b: Bucket, c: Call)
    requires Positive(l) && Wholesome(l, b, c.stamp) && c.server == c.stamp && 0.0 <= c.n
    ensures Wholesome(l, TokenStep(l, b, c).0, c.stamp)
    ensures TokenStep(l, b, c) == TokenCore(l, b, c)
  {
    ExpiryIsFull(l, b, c.stamp);
    if b.Bucket? {
      GainMonotone(l, 0, c.stamp - b.ts);
    }
  }

  /** The limiter without key expiry. */
  function EternalRun(l: Rate, b: Bucket, calls: seq<Call>): seq<Decision>
    requires l.perSecond > 0.0
    decreases |calls|
  {
    if calls == [] then []
    else var (b', d) := TokenCore(l, b, calls[0]); [d] + EternalRun(l, b', calls[1..])
  }

  /** On one steady clock the expiry of idle keys never changes a decision or a wait. */
  lemma {:induction false} ExpiryNeverMatters(l: Rate, b: Bucket, from: int, calls: seq<Call>)
    requires Positive(l) && Steady(l, from, calls) && Wholesome(l, b, from)
    ensures TokenRun(l, b, calls) == EternalRun(l, b, calls)
    decreases |calls|
  {
    if calls != [] {
      StepWholesome(l, b, calls[0]);
      ExpiryNeverMatters(l, TokenStep(l, b, calls[0]).0, calls[0].stamp, calls[1..]);
    }
  }

  lemma {:induction false} RunWholesome(l: Rate, buckets: seq<Bucket>, calls: seq<Call>, from: int, i: nat)
    requires Positive(l) && IsRun(l, buckets, calls)
    requires Steady(l, from, calls) && Wholesome(l, buckets[0], from) && i < |calls|
    ensures Wholesome(l, buckets[i], calls[i].stamp)
  {
    if i > 0 {
      RunWholesome(l, buckets, calls, from, i - 1);
      StepWholesome(l, buckets[i - 1], calls[i - 1]);
      assert calls[i - 1].stamp <= calls[i].stamp;
    }
  }

  lemma SteadyPotentialFalls(l: Rate, b: Bucket, c: Call)
    requires Positive(l) && b.Bucket? && Wholesome(l, b, c.stamp) && c.server == c.stamp && 0.0 <= c.n
    ensures Potential(l, TokenStep(l, b, c).0) <= Potential(l, b) - Admitted(l, b, c)
  {
    StepWholesome(l, b, c);
    GainAdds(l, b.ts, c.stamp - b.ts);
  }

  lemma {:induction false} SteadyPotentialBound(l: Rate, buckets: seq<Bucket>, calls: seq<Call>, from: int,
                                                i: nat, j: nat)
    requires Positive(l) && IsRun(l, buckets, calls) && Steady(l, from, calls) && Wholesome(l, buckets[0], from)
    requires i < j <= |calls|
    ensures buckets[j].Bucket? && buckets[j].tokens >= 0.0 && buckets[j].ts == calls[j - 1].stamp
    ensures Potential(l, buckets[j]) <= l.capacity - Total(l, buckets, calls, i, j) - Gain(l, calls[i].stamp)
  {
    assert buckets[j] == TokenStep(l, buckets[j - 1], calls[j - 1]).0;
    RunWholesome(l, buckets, calls, from, j - 1);
    StepWholesome(l, buckets[j - 1], calls[j - 1]);
    if j == i + 1 {
      FirstPotential(l, buckets[i], calls[i]);
      assert Total(l, buckets, calls, i, i) == 0.0;
    } else {
      SteadyPotentialBound(l, buckets, calls, from, i, j - 1);
      SteadyPotentialFalls(l, buckets[j - 1], calls[j - 1]);
    }
  }

  /** On one steady clock the bound holds between any two calls, across any number of key expiries. */
  lemma SteadyTokenBound(l: Rate, buckets: seq<Bucket>, calls: seq<Call>, from: int, i: nat, j: nat)
    requires Positive(l) && IsRun(l, buckets, calls) && Steady(l, from, calls) && Wholesome(l, buckets[0], from)
    requires i <= j < |calls|
    ensures Total(l, buckets, calls, i, j + 1) <= l.capacity + Gain(l, calls[j].stamp - calls[i].stamp)
  {
    SteadyPotentialBound(l, buckets, calls, from, i, j + 1);
    Conclude(l, buckets[j + 1], Total(l, buckets, calls, i, j + 1), calls[i].stamp, calls[j].stamp);
  }

  // ---------------------------------------------------------------- the reported wait

  /** A rejected caller that nobody disturbs succeeds after `w` milliseconds exactly when it waited as long as told. */
  lemma WaitIsExact(l: Rate, b: Bucket, c: Call, w: nat)
    requires Positive(l) && Wholesome(l, b, c.stamp) && c.server == c.stamp && 0.0 <= c.n <= l.capacity
    requires !TokenStep(l, b, c).1.allowed
    ensures var (b', d) := TokenStep(l, b, c);
            && d.retryMs > 0
            && (TokenStep(l, b', Call(c.server + w, c.stamp + w, c.n)).1.allowed <==> w >= d.retryMs)
  {
    var (b', d) := TokenStep(l, b, c);
    StepWholesome(l, b, c);
    StepWholesome(l, b', Call(c.server + w, c.stamp + w, c.n));
    WaitGains(l, c.n - b'.tokens, w);
    WaitGains(l, c.n - b'.tokens, 0);
    assert Gain(l, 0) == 0.0;
  }

  /** The same for the leaky bucket, through its token bucket. */
  lemma LeakyWaitIsExact(l: Rate, b: Bucket, k: Leak, c: Call, w: nat)
    requires Positive(l) && Wholesome(l, b, c.stamp)
    requires c.server == c.stamp && 0.0 <= c.n <= l.capacity && Mirror(l, b, k)
    requires !LeakyStep(l, k, c).1.allowed
    ensures var (k', d) := LeakyStep(l, k, c);
            && d.retryMs > 0
            && (LeakyStep(l, k', Call(c.server + w, c.stamp + w, c.n)).1.allowed <==> w >= d.retryMs)
  {
    MirrorStep(l, b, k, c);
    MirrorStep(l, TokenStep(l, b, c).0, LeakyStep(l, k, c).0, Call(c.server + w, c.stamp + w, c.n));
    WaitIsExact(l, b, c, w);
  }
}
