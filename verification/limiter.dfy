/** `RateLimiter`: input rules, the four scripts step by step, and the blocking `Acquire` loop.

    Nothing else touches the key while `Acquire` waits, and client and server share one clock. */
module Limiter {
  import opened Store
  import B = Buckets
  import W = Windows

  datatype Algorithm = TokenBucket | FixedWindow | SlidingWindow | LeakyBucket

  datatype Config = Config(algorithm: Algorithm, rate: B.Rate)

  /** The key of a limiter under each algorithm. */
  datatype State =
    | Tokens(bucket: B.Bucket)
    | Counters(counters: map<nat, W.Counter>)
    | Entries(log: W.Log)
    | Level(leak: B.Leak)

  datatype Reply = Reply(allowed: bool, retryMs: int) | Invalid

  predicate Windowed(cfg: Config) { cfg.algorithm.FixedWindow? || cfg.algorithm.SlidingWindow? }

  function WindowMs(r: B.Rate): int
    requires r.perSecond > 0.0
  {
    (r.capacity / r.perSecond * 1000.0).Floor
  }

  /** What the constructor accepts. */
  ghost predicate Accepted(cfg: Config) {
    && B.Positive(cfg.rate)
    && (Windowed(cfg) ==> WindowMs(cfg.rate) >= 1 && cfg.rate.capacity >= 1.0)
  }

  /** Whole requests against a capacity: comparing with the capacity is comparing with its floor. */
  function LimitOf(r: B.Rate): W.Limit
    requires r.perSecond > 0.0 && WindowMs(r) >= 1 && r.capacity >= 1.0
  {
    W.Limit(r.capacity.Floor, WindowMs(r))
  }

  /** Windowed algorithms round up to whole requests. */
  function Need(cfg: Config, n: real): real { if Windowed(cfg) then B.Ceil(n) as real else n }

  predicate Servable(cfg: Config, n: real) { n > 0.0 && Need(cfg, n) <= cfg.rate.capacity }

  function Fresh(cfg: Config): State {
    match cfg.algorithm
    case TokenBucket => Tokens(B.Unused)
    case FixedWindow => Counters(map[])
    case SlidingWindow => Entries(W.Log(map[], 0))
    case LeakyBucket => Level(B.Dry)
  }

  ghost predicate Matches(cfg: Config, s: State) {
    match cfg.algorithm
    case TokenBucket => s.Tokens?
    case FixedWindow => s.Counters?
    case SlidingWindow => s.Entries?
    case LeakyBucket => s.Level?
  }

  /** The script of the algorithm, for a servable amount. */
  ghost function Serve(cfg: Config, s: State, now: nat, n: real, token: Token): (State, Reply)
    requires Accepted(cfg) && Matches(cfg, s) && Servable(cfg, n)
  {
    match s
    case Tokens(b) =>
      var (b', d) := B.TokenStep(cfg.rate, b, B.Call(now, now, n));
      (Tokens(b'), Reply(d.allowed, d.retryMs))
    case Level(k) =>
      var (k', d) := B.LeakyStep(cfg.rate, k, B.Call(now, now, n));
      (Level(k'), Reply(d.allowed, d.retryMs))
    case Counters(c) =>
      var (c', v) := W.FixedStep(LimitOf(cfg.rate), c, W.Request(now, now, B.Ceil(n), token));
      (Counters(c'), Reply(v.allowed, v.retryMs))
    case Entries(g) =>
      var (g', v) := W.SlidingStep(LimitOf(cfg.rate), g, W.Request(now, now, B.Ceil(n), token));
      (Entries(g'), Reply(v.allowed, v.retryMs))
  }

  // ---------------------------------------------------------------- states of one clock

  function Mirrored(l: B.Rate, k: B.Leak): B.Bucket {
    if k.Dry? then B.Unused else B.Bucket(l.capacity - k.level, k.ts, k.expireAt)
  }

  /** Every counter belongs to a window already begun and outlives it. */
  ghost predicate Lasting(l: W.Limit, c: map<nat, W.Counter>, now: nat)
    requires l.window > 0
  {
    forall k :: k in c ==> k <= now / l.window && c[k].expireAt >= k * l.window + 2 * l.window
  }

  /** What calls up to `now` on one steady clock leave behind. */
  ghost predicate Sound(cfg: Config, s: State, now: nat)
    requires Accepted(cfg) && Matches(cfg, s)
  {
    match s
    case Tokens(b) => B.Wholesome(cfg.rate, b, now)
    case Level(k) => B.Wholesome(cfg.rate, Mirrored(cfg.rate, k), now)
    case Counters(c) => Lasting(LimitOf(cfg.rate), c, now)
    case Entries(g) => W.Outlives(LimitOf(cfg.rate), g, now)
  }

  /** How much of the budget is free at `now`, as a function of the key alone. */
  function Room(cfg: Config, s: State, now: nat): real
    requires cfg.rate.perSecond > 0.0
    requires s.Counters? || s.Entries? ==> WindowMs(cfg.rate) >= 1 && cfg.rate.capacity >= 1.0
  {
    match s
    case Tokens(b) => B.Refilled(cfg.rate, b, now)
    case Level(k) => B.Refilled(cfg.rate, Mirrored(cfg.rate, k), now)
    case Counters(c) =>
      var l := LimitOf(cfg.rate);
      (l.max - W.CountAt(c, now / l.window, now)) as real
    case Entries(g) =>
      var l := LimitOf(cfg.rate);
      (l.max - |W.Live(l, g, now)|) as real
  }

  lemma FloorIsEnough(x: int, c: real)
    ensures x as real <= c <==> x <= c.Floor
  {
  }

  lemma CeilPositive(n: real)
    requires n > 0.0
    ensures B.Ceil(n) >= 1
  {
    B.CeilBounds(n);
  }

  lemma RoundsUp(n: real, up: int, whole: int)
    requires up == B.Ceil(n)
    ensures up as real == whole as real <==> whole as real - 1.0 < n <= whole as real
  {
    B.CeilBounds(n);
    if whole < up {
      assert whole as real + 1.0 <= up as real;
    } else if whole > up {
      assert whole as real >= up as real + 1.0;
    }
  }

  /** What is asked for is rounded up to the next whole request by the windowed algorithms, and by no other. */
  lemma NeedRoundsUp(cfg: Config, n: real, whole: int)
    ensures !Windowed(cfg) ==> Need(cfg, n) == n
    ensures Windowed(cfg) ==> (Need(cfg, n) == whole as real <==> whole as real - 1.0 < n <= whole as real)
  {
    if Windowed(cfg) { RoundsUp(n, B.Ceil(n), whole); }
  }

  /** A servable request is admitted exactly when the room suffices. */
  lemma AdmittedExactlyWithRoom(cfg: Config, s: State, now: nat, n: real, token: Token)
    requires Accepted(cfg) && Matches(cfg, s) && Sound(cfg, s, now) && Servable(cfg, n)
    ensures Serve(cfg, s, now, n, token).1.allowed <==> Need(cfg, n) <= Room(cfg, s, now)
  {
    match s
    case Tokens(b) => B.ExpiryIsFull(cfg.rate, b, now);
    case Level(k) =>
      B.MirrorStep(cfg.rate, Mirrored(cfg.rate, k), k, B.Call(now, now, n));
      B.ExpiryIsFull(cfg.rate, Mirrored(cfg.rate, k), now);
    case Counters(c) => CeilPositive(n);
    case Entries(g) =>
      CeilPositive(n);
      W.SlidingRejects(LimitOf(cfg.rate), g, W.Request(now, now, B.Ceil(n), token));
  }

  // ---------------------------------------------------------------- being rejected

  lemma BucketRejected(l: B.Rate, b: B.Bucket, now: nat, n: real, later: nat)
    requires B.Positive(l) && B.Wholesome(l, b, now) && 0.0 < n <= l.capacity && now <= later
    requires !B.TokenStep(l, b, B.Call(now, now, n)).1.allowed
    ensures var b' := B.TokenStep(l, b, B.Call(now, now, n)).0;
            && B.Wholesome(l, b', now)
            && B.Refilled(l, b', later) == B.Refilled(l, b, later)
  {
    var c := B.Call(now, now, n);
    B.StepWholesome(l, b, c);
    B.GainMonotone(l, 0, later - now);
    if b.Bucket? {
      B.GainAdds(l, now - b.ts, later - now);
    }
  }

  lemma CounterRejected(l: W.Limit, c: map<nat, W.Counter>, r: W.Request, later: nat)
    requires l.window > 0 && Lasting(l, c, r.stamp) && r.server == r.stamp <= later
    requires !W.FixedStep(l, c, r).1.allowed
    ensures var c' := W.FixedStep(l, c, r).0;
            && Lasting(l, c', r.stamp)
            && W.CountAt(c', later / l.window, later) == W.CountAt(c, later / l.window, later)
  {
    var k := r.stamp / l.window;
    W.WindowOf(l.window, r.stamp, k);
    W.WindowOf(l.window, later, k);
    W.Spread(k, l.window);
  }

  /** A rejection leaves the room at every later instant as it was. */
  lemma RejectionIsNeutral(cfg: Config, s: State, now: nat, n: real, token: Token, later: nat)
    requires Accepted(cfg) && Matches(cfg, s) && Sound(cfg, s, now) && Servable(cfg, n) && now <= later
    requires !Serve(cfg, s, now, n, token).1.allowed
    ensures var s' := Serve(cfg, s, now, n, token).0;
            Matches(cfg, s') && Sound(cfg, s', now) && Room(cfg, s', later) == Room(cfg, s, later)
  {
    match s
    case Tokens(b) => BucketRejected(cfg.rate, b, now, n, later);
    case Level(k) =>
      var b := Mirrored(cfg.rate, k);
      B.MirrorStep(cfg.rate, b, k, B.Call(now, now, n));
      BucketRejected(cfg.rate, b, now, n, later);
    case Counters(c) =>
      CeilPositive(n);
      CounterRejected(LimitOf(cfg.rate), c, W.Request(now, now, B.Ceil(n), token), later);
    case Entries(g) =>
      CeilPositive(n);
      W.SlidingRejectionIsNeutral(LimitOf(cfg.rate), g, W.Request(now, now, B.Ceil(n), token), later);
  }

  /** Whatever the verdict, the key is left as one steady clock leaves it. */
  lemma ServeKeepsSound(cfg: Config, s: State, now: nat, n: real, token: Token)
    requires Accepted(cfg) && Matches(cfg, s) && Sound(cfg, s, now) && Servable(cfg, n)
    ensures var s' := Serve(cfg, s, now, n, token).0; Matches(cfg, s') && Sound(cfg, s', now)
  {
    if !Serve(cfg, s, now, n, token).1.allowed {
      RejectionIsNeutral(cfg, s, now, n, token, now);
      return;
    }
    match s
    case Tokens(b) => B.StepWholesome(cfg.rate, b, B.Call(now, now, n));
    case Level(k) =>
      B.MirrorStep(cfg.rate, Mirrored(cfg.rate, k), k, B.Call(now, now, n));
      B.StepWholesome(cfg.rate, Mirrored(cfg.rate, k), B.Call(now, now, n));
    case Counters(c) => W.WindowOf(LimitOf(cfg.rate).window, now, 0);
    case Entries(g) =>
      CeilPositive(n);
      LogOutlives(LimitOf(cfg.rate), g, now, B.Ceil(n), token);
  }

  lemma LogOutlives(l: W.Limit, g: W.Log, now: nat, n: nat, token: Token)
    requires W.Outlives(l, g, now)
    ensures W.Outlives(l, W.SlidingStep(l, g, W.Request(now, now, n, token)).0, now)
  {
    GrantAdds(Reclaim(W.LookLog(g, now), now - l.window), token, n, now);
  }

  /** What `Acquire` works off: the entries in the window, or the one wait still to be served. */
  function Debt(cfg: Config, s: State, now: nat, n: real): nat
    requires cfg.rate.perSecond > 0.0
    requires s.Counters? || s.Entries? ==> WindowMs(cfg.rate) >= 1 && cfg.rate.capacity >= 1.0
  {
    if s.Entries? then |W.Live(LimitOf(cfg.rate), s.log, now)|
    else if Need(cfg, n) <= Room(cfg, s, now) then 0 else 1
  }

  lemma BucketWait(l: B.Rate, b: B.Bucket, now: nat, n: real, d: nat)
    requires B.Positive(l) && B.Wholesome(l, b, now) && 0.0 < n <= l.capacity
    requires !B.TokenStep(l, b, B.Call(now, now, n)).1.allowed
    ensures var retry := B.TokenStep(l, b, B.Call(now, now, n)).1.retryMs;
            retry > 0 && (n <= B.Refilled(l, b, now + d) <==> d >= retry)
  {
    var c := B.Call(now, now, n);
    var b' := B.TokenStep(l, b, c).0;
    B.WaitIsExact(l, b, c, d);
    BucketRejected(l, b, now, n, now + d);
    B.ExpiryIsFull(l, b', now + d);
  }

  lemma CounterWait(l: W.Limit, c: map<nat, W.Counter>, r: W.Request, d: nat)
    requires l.window > 0 && Lasting(l, c, r.stamp) && r.server == r.stamp && r.n <= l.max
    requires !W.FixedStep(l, c, r).1.allowed
    ensures var retry := W.FixedStep(l, c, r).1.retryMs;
            retry > 0 && (r.n <= l.max - W.CountAt(c, (r.stamp + d) / l.window, r.stamp + d) <==> d >= retry)
  {
    W.FixedWaitIsExact(l, c, r, d);
    CounterRejected(l, c, r, r.stamp + d);
  }

  /** No wait `d` shorter than `retry` finds room, and `retry` works off some debt. */
  ghost predicate Least(cfg: Config, s: State, now: nat, n: real, retry: int, d: nat)
    requires Accepted(cfg) && Matches(cfg, s)
  {
    && retry > 0
    && (d < retry ==> Need(cfg, n) > Room(cfg, s, now + d))
    && Debt(cfg, s, now + retry, n) < Debt(cfg, s, now, n)
  }

  ghost predicate Refused(cfg: Config, s: State, now: nat, n: real, token: Token, retry: int) {
    && Accepted(cfg) && Matches(cfg, s) && Sound(cfg, s, now) && Servable(cfg, n)
    && Serve(cfg, s, now, n, token).1 == Reply(false, retry)
  }

  lemma TokensLeast(cfg: Config, s: State, now: nat, n: real, token: Token, retry: int, d: nat)
    requires Refused(cfg, s, now, n, token, retry) && s.Tokens?
    ensures Least(cfg, s, now, n, retry, d)
  {
    BucketWait(cfg.rate, s.bucket, now, n, d);
    BucketWait(cfg.rate, s.bucket, now, n, retry);
    BucketWait(cfg.rate, s.bucket, now, n, 0);
  }

  lemma LevelLeast(cfg: Config, s: State, now: nat, n: real, token: Token, retry: int, d: nat)
    requires Refused(cfg, s, now, n, token, retry) && s.Level?
    ensures Least(cfg, s, now, n, retry, d)
  {
    var b := Mirrored(cfg.rate, s.leak);
    B.MirrorStep(cfg.rate, b, s.leak, B.Call(now, now, n));
    BucketWait(cfg.rate, b, now, n, d);
    BucketWait(cfg.rate, b, now, n, retry);
    BucketWait(cfg.rate, b, now, n, 0);
  }

  lemma CountersLeast(cfg: Config, s: State, now: nat, n: real, token: Token, retry: int, d: nat)
    requires Refused(cfg, s, now, n, token, retry) && s.Counters?
    ensures Least(cfg, s, now, n, retry, d)
  {
    CeilPositive(n);
    FloorIsEnough(B.Ceil(n), cfg.rate.capacity);
    var r := W.Request(now, now, B.Ceil(n), token);
    CounterWait(LimitOf(cfg.rate), s.counters, r, d);
    CounterWait(LimitOf(cfg.rate), s.counters, r, retry);
    CounterWait(LimitOf(cfg.rate), s.counters, r, 0);
  }

  lemma EntriesLeast(cfg: Config, s: State, now: nat, n: real, token: Token, retry: int, d: nat)
    requires Refused(cfg, s, now, n, token, retry) && s.Entries?
    ensures Least(cfg, s, now, n, retry, d)
  {
    CeilPositive(n);
    FloorIsEnough(B.Ceil(n), cfg.rate.capacity);
    var r := W.Request(now, now, B.Ceil(n), token);
    W.SlidingRejects(LimitOf(cfg.rate), s.log, r);
    W.SlidingWaitIsShortest(LimitOf(cfg.rate), s.log, r, d);
  }

  /** Under every algorithm a rejected caller is told to wait no longer than it must, and for long enough to make
      progress. */
  lemma WaitIsLeast(cfg: Config, s: State, now: nat, n: real, token: Token, retry: int, d: nat)
    requires Refused(cfg, s, now, n, token, retry)
    ensures Least(cfg, s, now, n, retry, d)
  {
    match s
    case Tokens(_) => TokensLeast(cfg, s, now, n, token, retry, d);
    case Level(_) => LevelLeast(cfg, s, now, n, token, retry, d);
    case Counters(_) => CountersLeast(cfg, s, now, n, token, retry, d);
    case Entries(_) => EntriesLeast(cfg, s, now, n, token, retry, d);
  }

  lemma NoRoomBefore(cfg: Config, s: State, now: nat, n: real, token: Token, retry: int)
    requires Refused(cfg, s, now, n, token, retry)
    ensures retry > 0 && Debt(cfg, s, now + retry, n) < Debt(cfg, s, now, n)
    ensures forall t: nat :: now <= t < now + retry ==> Need(cfg, n) > Room(cfg, s, t)
  {
    WaitIsLeast(cfg, s, now, n, token, retry, 0);
    forall t: nat | now <= t < now + retry ensures Need(cfg, n) > Room(cfg, s, t) {
      WaitIsLeast(cfg, s, now, n, token, retry, t - now);
    }
  }

  /** `s'` offers the same room as `s` from `now` on. */
  ghost predicate Alike(cfg: Config, s: State, s': State, now: nat)
    requires Accepted(cfg) && Matches(cfg, s) && Matches(cfg, s')
  {
    forall t: nat :: t >= now ==> Room(cfg, s', t) == Room(cfg, s, t)
  }

  lemma RejectedAlike(cfg: Config, s: State, now: nat, n: real, token: Token, retry: int, later: nat)
    requires Refused(cfg, s, now, n, token, retry) && later >= now
    ensures var s' := Serve(cfg, s, now, n, token).0;
            Matches(cfg, s') && Sound(cfg, s', now) && Alike(cfg, s, s', later)
  {
    RejectionIsNeutral(cfg, s, now, n, token, now);
    forall t: nat | t >= later ensures Room(cfg, Serve(cfg, s, now, n, token).0, t) == Room(cfg, s, t) {
      RejectionIsNeutral(cfg, s, now, n, token, t);
    }
  }

  lemma DebtAlike(cfg: Config, s: State, s': State, now: nat, n: real)
    requires Accepted(cfg) && Matches(cfg, s) && Matches(cfg, s') && Alike(cfg, s, s', now)
    ensures Debt(cfg, s', now, n) == Debt(cfg, s, now, n)
  {
    assert Room(cfg, s', now) == Room(cfg, s, now);
  }

  lemma SoundLater(cfg: Config, s: State, now: nat, later: nat)
    requires Accepted(cfg) && Matches(cfg, s) && Sound(cfg, s, now) && now <= later
    ensures Sound(cfg, s, later)
  {
    if s.Counters? {
      var w := LimitOf(cfg.rate).window;
      W.WindowOf(w, now, 0);
      W.WindowOf(w, later, 0);
      if later / w < now / w { W.Times(later / w + 1, now / w, w); }
    }
  }

  /** A caller that has waited from `from` until `now` without missing a chance. */
  ghost predicate Patient(cfg: Config, start: State, from: nat, s: State, now: nat, n: real) {
    && Accepted(cfg) && Matches(cfg, start) && Matches(cfg, s) && Sound(cfg, s, now)
    && from <= now && Alike(cfg, start, s, now)
    && forall t: nat :: from <= t < now ==> Need(cfg, n) > Room(cfg, start, t)
  }

  /** One turn of the `Acquire` loop that ends in a wait. */
  lemma Progress(cfg: Config, start: State, from: nat, s: State, now: nat, n: real, token: Token, retry: int)
    requires Refused(cfg, s, now, n, token, retry) && Patient(cfg, start, from, s, now, n)
    ensures retry > 0
    ensures var s' := Serve(cfg, s, now, n, token).0;
            Patient(cfg, start, from, s', now + retry, n) && Debt(cfg, s', now + retry, n) < Debt(cfg, s, now, n)
  {
    var s' := Serve(cfg, s, now, n, token).0;
    NoRoomBefore(cfg, s, now, n, token, retry);
    RejectedAlike(cfg, s, now, n, token, retry, now + retry);
    SoundLater(cfg, s', now, now + retry);
    DebtAlike(cfg, s, s', now + retry, n);
    forall t: nat | from <= t < now + retry ensures Need(cfg, n) > Room(cfg, start, t) {
      assert t >= now ==> Room(cfg, s, t) == Room(cfg, start, t);
    }
    forall t: nat | t >= now + retry ensures Room(cfg, s', t) == Room(cfg, start, t) {
      assert Room(cfg, s', t) == Room(cfg, s, t) == Room(cfg, start, t);
    }
  }

  /** Admitted at the first millisecond at which there is room. */
  ghost predicate Earliest(cfg: Config, start: State, from: nat, now: nat, n: real)
    requires Accepted(cfg) && Matches(cfg, start)
  {
    && from <= now && Need(cfg, n) <= Room(cfg, start, now)
    && forall t: nat :: from <= t < now ==> Need(cfg, n) > Room(cfg, start, t)
  }

  lemma PatientIsEarliest(cfg: Config, start: State, from: nat, s: State, now: nat, n: real, token: Token)
    requires Patient(cfg, start, from, s, now, n) && Servable(cfg, n) && Serve(cfg, s, now, n, token).1.allowed
    ensures Earliest(cfg, start, from, now, n) && Alike(cfg, start, s, now)
  {
    AdmittedExactlyWithRoom(cfg, s, now, n, token);
    assert Room(cfg, s, now) == Room(cfg, start, now);
  }

  // ---------------------------------------------------------------- the scripts

  /** The token-bucket script. */
  method TokenScript(l: B.Rate, b: B.Bucket, server: int, now: int, requested: real) returns (b': B.Bucket,
                     reply: Reply)
    requires B.Positive(l)
    ensures var (c, d) := B.TokenStep(l, b, B.Call(server, now, requested));
            b' == c && reply == Reply(d.allowed, d.retryMs)
  {
    var live := B.Look(b, server);
    var tokens, ts := l.capacity, now;
    if live.Bucket? { tokens, ts := live.tokens, live.ts; }
    var refilled := tokens + (now - ts) as real / 1000.0 * l.perSecond;
    if refilled > l.capacity { refilled := l.capacity; }
    assert refilled == B.Refilled(l, live, now) by { assert B.Gain(l, 0) == 0.0; }
    var allowed, remaining, retryAfterMs := false, refilled, 0;
    if refilled >= requested {
      remaining := refilled - requested;
      allowed := true;
    } else {
      retryAfterMs := B.Ceil((requested - refilled) / l.perSecond * 1000.0);
    }
    b' := B.Bucket(remaining, now, server + B.Ceil(l.capacity / l.perSecond * 1000.0) + 1000);
    reply := Reply(allowed, retryAfterMs);
  }

  /** The leaky-bucket script. */
  method LeakyScript(l: B.Rate, k: B.Leak, server: int, now: int, requested: real) returns (k': B.Leak, reply: Reply)
    requires B.Positive(l)
    ensures var (c, d) := B.LeakyStep(l, k, B.Call(server, now, requested));
            k' == c && reply == Reply(d.allowed, d.retryMs)
  {
    var live := B.LookLeak(k, server);
    var level, ts := 0.0, now;
    if live.Leak? { level, ts := live.level, live.ts; }
    var drained := level - (now - ts) as real / 1000.0 * l.perSecond;
    if drained < 0.0 { drained := 0.0; }
    var newLevel := drained + requested;
    var allowed, retryMs := false, 0;
    if newLevel <= l.capacity {
      level := newLevel;
      allowed := true;
    } else {
      level := drained;
      retryMs := B.Ceil((newLevel - l.capacity) / l.perSecond * 1000.0);
    }
    k' := B.Leak(level, now, server + B.Ceil(l.capacity / l.perSecond * 1000.0) + 1000);
    reply := Reply(allowed, retryMs);
  }

  /** The fixed-window script: count first, take back when over the limit. */
  method FixedScript(l: W.Limit, c: map<nat, W.Counter>, r: W.Request) returns (c': map<nat, W.Counter>, reply: Reply)
    requires l.window > 0
    ensures var (m, v) := W.FixedStep(l, c, r); c' == m && reply == Reply(v.allowed, v.retryMs)
  {
    var w := r.stamp / l.window;
    var count := W.CountAt(c, w, r.server) + r.n;
    var expireAt := r.server + 2 * l.window;
    c' := c[w := W.Counter(count, expireAt)];
    var retryMs := (w + 1) * l.window - r.stamp;
    if count > l.max {
      c' := c'[w := W.Counter(count - r.n, expireAt)];
      reply := Reply(false, retryMs);
    } else {
      reply := Reply(true, retryMs);
    }
  }

  method FindOldest(live: map<Permit, int>) returns (v: int)
    requires live.Keys != {}
    ensures v == W.Oldest(live)
  {
    LeastExists(live, live.Keys);
    var oldest :| oldest in live.Keys && forall k :: k in live.Keys ==> live[oldest] <= live[k];
    v := live[oldest];
  }

  method Insert(live: map<Permit, int>, prefix: Token, n: nat, stamp: int) returns (entries: map<Permit, int>)
    ensures entries == Grant(live, prefix, n, stamp)
  {
    entries := live;
    var i := 0;
    while i < n
      invariant 0 <= i <= n
      invariant entries == Grant(live, prefix, i, stamp)
    {
      entries := entries[Permit(prefix, i) := stamp];
      i := i + 1;
    }
  }

  /** The sliding-window script: drop what left the window, count, and insert one entry per request. */
  method SlidingScript(l: W.Limit, g: W.Log, r: W.Request) returns (g': W.Log, reply: Reply)
    ensures var (m, v) := W.SlidingStep(l, g, r); g' == m && reply == Reply(v.allowed, v.retryMs)
  {
    var live := Reclaim(W.LookLog(g, r.server), r.stamp - l.window);
    var used := |live|;
    if used + r.n > l.max {
      var retryMs := l.window;
      if live.Keys != {} {
        var oldest := FindOldest(live);
        retryMs := l.window - (r.stamp - oldest);
      }
      return W.Log(live, r.server + 2 * l.window), Reply(false, retryMs);
    }
    var entries := Insert(live, r.prefix, r.n, r.stamp);
    return W.Log(entries, r.server + 2 * l.window), Reply(true, 0);
  }

  // ---------------------------------------------------------------- the limiter object

  class RateLimiter {
    const cfg: Config
    var state: State
    /** The one clock. */
    var now: nat

    ghost predicate Valid()
      reads this
    {
      Accepted(cfg) && Matches(cfg, state) && Sound(cfg, state, now)
    }

    constructor (cfg: Config, now: nat)
      requires Accepted(cfg)
      ensures Valid() && this.cfg == cfg && this.now == now && state == Fresh(cfg)
    {
      this.cfg := cfg;
      this.now := now;
      state := Fresh(cfg);
    }

    method Tick(ms: nat)
      requires Valid()
      modifies `now
      ensures Valid() && now == old(now) + ms
    {
      SoundLater(cfg, state, now, now + ms);
      now := now + ms;
    }

    method Run(n: real, token: Token) returns (reply: Reply)
      requires Accepted(cfg) && Matches(cfg, state) && Servable(cfg, n)
      modifies `state
      ensures (state, reply) == Serve(cfg, old(state), now, n, token)
    {
      match state
      case Tokens(b) =>
        var b', r := TokenScript(cfg.rate, b, now, now, n);
        state, reply := Tokens(b'), r;
      case Level(k) =>
        var k', r := LeakyScript(cfg.rate, k, now, now, n);
        state, reply := Level(k'), r;
      case Counters(c) =>
        CeilPositive(n);
        var c', r := FixedScript(LimitOf(cfg.rate), c, W.Request(now, now, B.Ceil(n), token));
        state, reply := Counters(c'), r;
      case Entries(g) =>
        CeilPositive(n);
        var g', r := SlidingScript(LimitOf(cfg.rate), g, W.Request(now, now, B.Ceil(n), token));
        state, reply := Entries(g'), r;
    }

    /** Zero is free, negative or impossible amounts are errors that touch nothing, and anything else is admitted
        exactly when there is room for it. */
    method Allow(n: real, token: Token) returns (reply: Reply)
      requires Valid()
      modifies `state
      ensures Valid()
      ensures n == 0.0 ==> reply == Reply(true, 0) && state == old(state)
      ensures reply.Invalid? <==> n < 0.0 || (n > 0.0 && Need(cfg, n) > cfg.rate.capacity)
      ensures reply.Invalid? ==> state == old(state)
      ensures Servable(cfg, n) ==> (state, reply) == Serve(cfg, old(state), now, n, token)
      ensures Servable(cfg, n) ==> (reply.allowed <==> Need(cfg, n) <= Room(cfg, old(state), now))
    {
      if n == 0.0 { return Reply(true, 0); }
      if n < 0.0 { return Invalid; }
      var amount := n;
      if Windowed(cfg) { amount := B.Ceil(n) as real; }
      if amount > cfg.rate.capacity { return Invalid; }
      AdmittedExactlyWithRoom(cfg, state, now, n, token);
      ServeKeepsSound(cfg, state, now, n, token);
      reply := Run(n, token);
    }

    method Sleep(retryAfter: int)
      modifies `now
      ensures now == old(now) + if retryAfter <= 0 then 10 else retryAfter
    {
      now := now + if retryAfter <= 0 then 10 else retryAfter;
    }

    /** Sleep and retry. With nobody else at the key the loop ends, and it ends at the first millisecond at which
        the request can be admitted. */
    method Acquire(n: real, mint: nat -> Token) returns (ok: bool, ghost before: State, attempt: nat)
      requires Valid()
      modifies this
      ensures Valid()
      ensures ok <==> n == 0.0 || Servable(cfg, n)
      ensures !ok || n == 0.0 ==> state == old(state) && now == old(now)
      ensures Servable(cfg, n) ==>
                && Earliest(cfg, old(state), old(now), now, n)
                && Matches(cfg, before) && Alike(cfg, old(state), before, now)
                && state == Serve(cfg, before, now, n, mint(attempt)).0
    {
      attempt := 0;
      ghost var start, from := state, now;
      while true
        invariant Patient(cfg, start, from, state, now, n)
        invariant attempt == 0 ==> state == start && now == from
        invariant attempt > 0 ==> Servable(cfg, n)
        decreases Debt(cfg, state, now, n)
      {
        before := state;
        var reply := Allow(n, mint(attempt));
        if reply.Invalid? { return false, before, attempt; }
        if reply.allowed {
          if Servable(cfg, n) { PatientIsEarliest(cfg, start, from, before, now, n, mint(attempt)); }
          return true, before, attempt;
        }
        Progress(cfg, start, from, before, now, n, mint(attempt), reply.retryMs);
        Sleep(reply.retryMs);
        attempt := attempt + 1;
      }
    }
  }
}
