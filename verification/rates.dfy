/** What each rate limiter lets through, from its configured rate and capacity alone: runs of calls to one limiter on
    one clock that never goes back. */
module Rates {
  import opened Store
  import opened Limiter
  import B = Buckets
  import W = Windows

  /** A call for `n`, in milliseconds, with the token minted for it. */
  datatype Ask = Ask(now: nat, n: real, token: Token)

  /** The longest whole number of milliseconds in which the rate brings no more than the capacity. */
  ghost predicate IsWindow(r: B.Rate, w: int) {
    w as real * r.perSecond <= 1000.0 * r.capacity < (w + 1) as real * r.perSecond
  }

  lemma ByProduct(a: real, x: real, p: real, c: real)
    requires p > 0.0 && x * p == c
    ensures a * p <= c <==> a <= x
  {
    Times(a, x, p);
  }

  lemma FloorByProduct(w: int, x: real, p: real, c: real)
    requires p > 0.0 && x * p == c
    ensures w as real * p <= c < (w + 1) as real * p <==> w == x.Floor
  {
    ByProduct(w as real, x, p, c);
    ByProduct((w + 1) as real, x, p, c);
  }

  /** The window of a limiter is capacity over rate, in whole milliseconds. */
  lemma WindowIsCapacityOverRate(r: B.Rate, w: int)
    requires B.Positive(r)
    ensures IsWindow(r, w) <==> w == WindowMs(r)
  {
    var q := r.capacity / r.perSecond;
    assert q * r.perSecond == r.capacity;
    Swap(q, 1000.0, r.perSecond);
    FloorByProduct(w, q * 1000.0, r.perSecond, 1000.0 * r.capacity);
  }

  lemma Swap(a: real, b: real, c: real)
    ensures a * b * c == b * (a * c)
  {
  }

  lemma Times(a: real, b: real, r: real)
    requires r > 0.0
    ensures a <= b <==> a * r <= b * r
  {
    if a <= b { assert (b - a) * r >= 0.0; } else { assert (a - b) * r > 0.0; }
  }

  /** A bucket gains its rate every second. */
  lemma GainIsRate(r: B.Rate, ms: int)
    ensures 1000.0 * B.Gain(r, ms) == ms as real * r.perSecond
  {
    var x := ms as real / 1000.0;
    assert 1000.0 * (x * r.perSecond) == 1000.0 * x * r.perSecond;
  }

  /** A bucket's key outlives a full refill by one second. */
  lemma LifeIsRefillAndASecond(r: B.Rate, ms: int)
    requires B.Positive(r)
    ensures ms as real * r.perSecond >= 1000.0 * r.capacity <==> ms + 1000 >= B.Life(r)
  {
    B.WaitGains(r, r.capacity, ms);
    GainIsRate(r, ms);
  }

  // ---------------------------------------------------------------- runs

  ghost predicate IsRun(cfg: Config, states: seq<State>, asks: seq<Ask>) {
    && Accepted(cfg) && |states| == |asks| + 1 && states[0] == Fresh(cfg)
    && (forall k: nat :: k < |asks| ==> Step(cfg, states, asks, k))
    && (forall i, j :: 0 <= i < j < |asks| ==> asks[i].now <= asks[j].now && asks[i].token != asks[j].token)
  }

  ghost predicate Step(cfg: Config, states: seq<State>, asks: seq<Ask>, k: nat)
    requires Accepted(cfg) && |states| == |asks| + 1 && k < |asks|
  {
    && Servable(cfg, asks[k].n) && Matches(cfg, states[k])
    && states[k + 1] == Serve(cfg, states[k], asks[k].now, asks[k].n, asks[k].token).0
  }

  ghost predicate Allowed(cfg: Config, states: seq<State>, asks: seq<Ask>, k: nat)
    requires IsRun(cfg, states, asks) && k < |asks|
  {
    Step(cfg, states, asks, k) && Serve(cfg, states[k], asks[k].now, asks[k].n, asks[k].token).1.allowed
  }

  /** The total let through by the first `k` calls, of those made in `[from, to)`. */
  ghost function Granted(cfg: Config, states: seq<State>, asks: seq<Ask>, k: nat, from: int, to: int): real
    requires IsRun(cfg, states, asks) && k <= |asks|
  {
    if k == 0 then 0.0
    else
      Granted(cfg, states, asks, k - 1, from, to) +
      if from <= asks[k - 1].now < to && Allowed(cfg, states, asks, k - 1) then asks[k - 1].n else 0.0
  }

  /** The same in whole requests, each call rounded up. */
  ghost function Whole(cfg: Config, states: seq<State>, asks: seq<Ask>, k: nat, from: int, to: int): int
    requires IsRun(cfg, states, asks) && k <= |asks|
  {
    if k == 0 then 0
    else
      Whole(cfg, states, asks, k - 1, from, to) +
      if from <= asks[k - 1].now < to && Allowed(cfg, states, asks, k - 1) then B.Ceil(asks[k - 1].n) else 0
  }

  lemma {:induction false} WholeCoversGranted(cfg: Config, states: seq<State>, asks: seq<Ask>, k: nat,
                                              from: int, to: int)
    requires IsRun(cfg, states, asks) && k <= |asks|
    ensures Granted(cfg, states, asks, k, from, to) <= Whole(cfg, states, asks, k, from, to) as real
  {
    if k > 0 {
      WholeCoversGranted(cfg, states, asks, k - 1, from, to);
      B.CeilBounds(asks[k - 1].n);
    }
  }

  // ---------------------------------------------------------------- windows: the history behind a run

  function RequestOf(a: Ask): W.Request
    requires a.n > 0.0
  {
    CeilPositive(a.n);
    W.Request(a.now, a.now, B.Ceil(a.n), a.token)
  }

  ghost function Hist(cfg: Config, states: seq<State>, asks: seq<Ask>, k: nat): seq<W.Admission>
    requires IsRun(cfg, states, asks) && k <= |asks|
  {
    if k == 0 then []
    else
      assert Step(cfg, states, asks, k - 1);
      W.Record(Hist(cfg, states, asks, k - 1), RequestOf(asks[k - 1]), Allowed(cfg, states, asks, k - 1))
  }

  lemma {:induction false} HistIsWhole(cfg: Config, states: seq<State>, asks: seq<Ask>, k: nat, from: int, to: int)
    requires IsRun(cfg, states, asks) && k <= |asks|
    ensures W.Between(Hist(cfg, states, asks, k), from, to) == Whole(cfg, states, asks, k, from, to)
  {
    if k > 0 {
      HistIsWhole(cfg, states, asks, k - 1, from, to);
      assert Step(cfg, states, asks, k - 1);
      W.RecordAdds(Hist(cfg, states, asks, k - 1), RequestOf(asks[k - 1]), Allowed(cfg, states, asks, k - 1), from, to);
    }
  }

  lemma {:induction false} HistTokens(cfg: Config, states: seq<State>, asks: seq<Ask>, k: nat)
    requires IsRun(cfg, states, asks) && k <= |asks|
    ensures forall a :: a in Hist(cfg, states, asks, k) ==> exists j :: 0 <= j < k && asks[j].token == a.prefix
  {
    if k > 0 { HistTokens(cfg, states, asks, k - 1); }
  }

  lemma NextUnseen(cfg: Config, states: seq<State>, asks: seq<Ask>, k: nat)
    requires IsRun(cfg, states, asks) && k < |asks|
    ensures W.Unseen(Hist(cfg, states, asks, k), asks[k].token)
  {
    HistTokens(cfg, states, asks, k);
    var hist := Hist(cfg, states, asks, k);
    forall i | 0 <= i < |hist| ensures hist[i].prefix != asks[k].token {
      assert hist[i] in hist;
      var j :| 0 <= j < k && asks[j].token == hist[i].prefix;
      assert asks[j].token != asks[k].token;
    }
  }

  /** The time of the call before the `k`-th. */
  function Last(asks: seq<Ask>, k: nat): nat
    requires k <= |asks|
  {
    if k == 0 then 0 else asks[k - 1].now
  }

  // ---------------------------------------------------------------- the sliding window

  lemma SlidingServed(cfg: Config, s: State, hist: seq<W.Admission>, last: int, a: Ask)
    requires Accepted(cfg) && cfg.algorithm.SlidingWindow? && Servable(cfg, a.n)
    requires s.Entries? && W.Faithful(LimitOf(cfg.rate), s.log, hist, last) && last <= a.now && W.Unseen(hist, a.token)
    ensures var (s', r) := Serve(cfg, s, a.now, a.n, a.token);
            && (r.allowed <==>
                  W.Between(hist, a.now - WindowMs(cfg.rate) + 1, a.now + 1) + B.Ceil(a.n) <= cfg.rate.capacity.Floor)
            && s'.Entries? && W.Faithful(LimitOf(cfg.rate), s'.log, W.Record(hist, RequestOf(a), r.allowed), a.now)
  {
    W.SlidingCountsHistory(LimitOf(cfg.rate), s.log, hist, last, RequestOf(a));
  }

  lemma SlidingRolls(cfg: Config, s: State, hist: seq<W.Admission>, last: int, a: Ask)
    requires Accepted(cfg) && cfg.algorithm.SlidingWindow? && Servable(cfg, a.n) && W.Rolling(LimitOf(cfg.rate), hist)
    requires s.Entries? && W.Faithful(LimitOf(cfg.rate), s.log, hist, last) && last <= a.now && W.Unseen(hist, a.token)
    ensures var r := Serve(cfg, s, a.now, a.n, a.token).1;
            W.Rolling(LimitOf(cfg.rate), W.Record(hist, RequestOf(a), r.allowed))
  {
    var l, r := LimitOf(cfg.rate), Serve(cfg, s, a.now, a.n, a.token).1;
    forall from: int ensures W.WindowFrom(l, W.Record(hist, RequestOf(a), r.allowed), from) <= l.max {
      W.SlidingKeepsRolling(l, s.log, hist, last, RequestOf(a), from);
    }
  }

  lemma {:induction false} SlidingHistory(cfg: Config, states: seq<State>, asks: seq<Ask>, k: nat)
    requires IsRun(cfg, states, asks) && k <= |asks| && cfg.algorithm.SlidingWindow?
    ensures states[k].Entries?
    ensures W.Faithful(LimitOf(cfg.rate), states[k].log, Hist(cfg, states, asks, k), Last(asks, k))
    decreases k, 0
  {
    if k > 0 {
      SlidingReady(cfg, states, asks, k - 1);
      SlidingServed(cfg, states[k - 1], Hist(cfg, states, asks, k - 1), Last(asks, k - 1), asks[k - 1]);
    }
  }

  /** What the `k`-th call finds. */
  lemma {:induction false} SlidingReady(cfg: Config, states: seq<State>, asks: seq<Ask>, k: nat)
    requires IsRun(cfg, states, asks) && k < |asks| && cfg.algorithm.SlidingWindow?
    ensures states[k].Entries? && Step(cfg, states, asks, k)
    ensures W.Faithful(LimitOf(cfg.rate), states[k].log, Hist(cfg, states, asks, k), Last(asks, k))
    ensures Last(asks, k) <= asks[k].now && W.Unseen(Hist(cfg, states, asks, k), asks[k].token)
    decreases k, 1
  {
    SlidingHistory(cfg, states, asks, k);
    NextUnseen(cfg, states, asks, k);
    assert k > 0 ==> asks[k - 1].now <= asks[k].now;
  }

  lemma {:induction false} SlidingRolling(cfg: Config, states: seq<State>, asks: seq<Ask>, k: nat)
    requires IsRun(cfg, states, asks) && k <= |asks| && cfg.algorithm.SlidingWindow?
    ensures W.Rolling(LimitOf(cfg.rate), Hist(cfg, states, asks, k))
  {
    if k == 0 {
      assert W.Rolling(LimitOf(cfg.rate), []);
    } else {
      SlidingRolling(cfg, states, asks, k - 1);
      SlidingReady(cfg, states, asks, k - 1);
      SlidingRolls(cfg, states[k - 1], Hist(cfg, states, asks, k - 1), Last(asks, k - 1), asks[k - 1]);
    }
  }

  lemma SlidingRoom(cfg: Config, states: seq<State>, asks: seq<Ask>, k: nat, from: int, to: int)
    requires IsRun(cfg, states, asks) && k < |asks| && cfg.algorithm.SlidingWindow?
    requires from == asks[k].now - WindowMs(cfg.rate) + 1 && to == asks[k].now + 1
    ensures Allowed(cfg, states, asks, k) <==>
            W.Between(Hist(cfg, states, asks, k), from, to) + B.Ceil(asks[k].n) <= cfg.rate.capacity.Floor
  {
    SlidingReady(cfg, states, asks, k);
    SlidingServed(cfg, states[k], Hist(cfg, states, asks, k), Last(asks, k), asks[k]);
  }

  /** There is room for the `k`-th call among those of the `k` before it that were made in `[from, to)`. */
  ghost predicate HasRoom(cfg: Config, states: seq<State>, asks: seq<Ask>, k: nat, from: int, to: int)
    requires IsRun(cfg, states, asks) && k < |asks|
  {
    (Whole(cfg, states, asks, k, from, to) + B.Ceil(asks[k].n)) as real <= cfg.rate.capacity
  }

  lemma RoomInHistory(cfg: Config, states: seq<State>, asks: seq<Ask>, k: nat, from: int, to: int)
    requires IsRun(cfg, states, asks) && k < |asks|
    ensures HasRoom(cfg, states, asks, k, from, to) <==>
            W.Between(Hist(cfg, states, asks, k), from, to) + B.Ceil(asks[k].n) <= cfg.rate.capacity.Floor
  {
    HistIsWhole(cfg, states, asks, k, from, to);
    FloorIsEnough(Whole(cfg, states, asks, k, from, to) + B.Ceil(asks[k].n), cfg.rate.capacity);
  }

  /** A sliding window lets a call through if and only if the whole requests it let through in the window that ends with
      the call leave room for it within the capacity. */
  lemma SlidingAdmitsExactly(cfg: Config, states: seq<State>, asks: seq<Ask>, k: nat, w: int)
    requires IsRun(cfg, states, asks) && k < |asks| && cfg.algorithm.SlidingWindow? && IsWindow(cfg.rate, w)
    ensures Allowed(cfg, states, asks, k) <==> HasRoom(cfg, states, asks, k, asks[k].now - w + 1, asks[k].now + 1)
  {
    WindowIsCapacityOverRate(cfg.rate, w);
    SlidingRoom(cfg, states, asks, k, asks[k].now - w + 1, asks[k].now + 1);
    RoomInHistory(cfg, states, asks, k, asks[k].now - w + 1, asks[k].now + 1);
  }

  /** Over every run: in no stretch of time in which the rate brings at most the capacity does a sliding window let
      through more than the capacity. */
  lemma SlidingRate(cfg: Config, states: seq<State>, asks: seq<Ask>, from: int, ms: nat)
    requires IsRun(cfg, states, asks) && cfg.algorithm.SlidingWindow?
    requires ms as real * cfg.rate.perSecond <= 1000.0 * cfg.rate.capacity
    ensures Granted(cfg, states, asks, |asks|, from, from + ms) <= cfg.rate.capacity
  {
    var l, hist := LimitOf(cfg.rate), Hist(cfg, states, asks, |asks|);
    SlidingHistory(cfg, states, asks, |asks|);
    SlidingRolling(cfg, states, asks, |asks|);
    WithinWindow(cfg.rate, ms);
    assert W.WindowFrom(l, hist, from) <= l.max;
    W.BetweenGrows(hist, from, from + ms, from, from + l.window, Last(asks, |asks|));
    HistIsWhole(cfg, states, asks, |asks|, from, from + ms);
    WholeCoversGranted(cfg, states, asks, |asks|, from, from + ms);
  }

  lemma WithinWindow(r: B.Rate, ms: nat)
    requires B.Positive(r) && ms as real * r.perSecond <= 1000.0 * r.capacity
    ensures ms <= WindowMs(r)
  {
    WindowIsCapacityOverRate(r, WindowMs(r));
    Times((WindowMs(r) + 1) as real, ms as real, r.perSecond);
  }

  // ---------------------------------------------------------------- fixed windows

  lemma FixedServed(cfg: Config, s: State, hist: seq<W.Admission>, a: Ask, q: nat)
    requires Accepted(cfg) && cfg.algorithm.FixedWindow? && Servable(cfg, a.n)
    requires s.Counters? && W.Tallied(LimitOf(cfg.rate), s.counters, hist) && q == a.now / LimitOf(cfg.rate).window
    ensures var (s', r) := Serve(cfg, s, a.now, a.n, a.token);
            && (r.allowed <==> W.InWindow(LimitOf(cfg.rate), hist, q) + B.Ceil(a.n) <= cfg.rate.capacity.Floor)
            && s'.Counters? && W.Tallied(LimitOf(cfg.rate), s'.counters, W.Record(hist, RequestOf(a), r.allowed))
  {
    W.FixedCountsHistory(LimitOf(cfg.rate), s.counters, hist, RequestOf(a));
  }

  lemma {:induction false} FixedHistory(cfg: Config, states: seq<State>, asks: seq<Ask>, k: nat)
    requires IsRun(cfg, states, asks) && k <= |asks| && cfg.algorithm.FixedWindow?
    ensures states[k].Counters?
    ensures W.Tallied(LimitOf(cfg.rate), states[k].counters, Hist(cfg, states, asks, k))
  {
    if k == 0 {
      W.EmptyTallied(LimitOf(cfg.rate));
    } else {
      FixedHistory(cfg, states, asks, k - 1);
      assert Step(cfg, states, asks, k - 1);
      FixedServed(cfg, states[k - 1], Hist(cfg, states, asks, k - 1), asks[k - 1],
                  asks[k - 1].now / LimitOf(cfg.rate).window);
    }
  }

  lemma FixedRoom(cfg: Config, states: seq<State>, asks: seq<Ask>, k: nat, q: nat, from: int, to: int)
    requires IsRun(cfg, states, asks) && k < |asks| && cfg.algorithm.FixedWindow?
    requires from == q * WindowMs(cfg.rate) && to == (q + 1) * WindowMs(cfg.rate) && from <= asks[k].now < to
    ensures Allowed(cfg, states, asks, k) <==>
            W.Between(Hist(cfg, states, asks, k), from, to) + B.Ceil(asks[k].n) <= cfg.rate.capacity.Floor
  {
    FixedHistory(cfg, states, asks, k);
    assert Step(cfg, states, asks, k);
    W.WindowOf(LimitOf(cfg.rate).window, asks[k].now, q);
    FixedServed(cfg, states[k], Hist(cfg, states, asks, k), asks[k], q);
  }

  /** A fixed window lets a call through if and only if the whole requests let through in the call's window leave room
      for it within the capacity. */
  lemma FixedAdmitsExactly(cfg: Config, states: seq<State>, asks: seq<Ask>, k: nat, w: int, q: nat)
    requires IsRun(cfg, states, asks) && k < |asks| && cfg.algorithm.FixedWindow? && IsWindow(cfg.rate, w)
    requires q * w <= asks[k].now < (q + 1) * w
    ensures Allowed(cfg, states, asks, k) <==> HasRoom(cfg, states, asks, k, q * w, (q + 1) * w)
  {
    WindowIsCapacityOverRate(cfg.rate, w);
    FixedRoom(cfg, states, asks, k, q, q * w, (q + 1) * w);
    RoomInHistory(cfg, states, asks, k, q * w, (q + 1) * w);
  }

  /** Over every run: a fixed window lets through at most the capacity in each of its windows. */
  lemma FixedRate(cfg: Config, states: seq<State>, asks: seq<Ask>, w: int, q: nat)
    requires IsRun(cfg, states, asks) && cfg.algorithm.FixedWindow? && IsWindow(cfg.rate, w)
    ensures Granted(cfg, states, asks, |asks|, q * w, (q + 1) * w) <= cfg.rate.capacity
  {
    var l, hist := LimitOf(cfg.rate), Hist(cfg, states, asks, |asks|);
    WindowIsCapacityOverRate(cfg.rate, w);
    FixedHistory(cfg, states, asks, |asks|);
    W.WindowFits(l, states[|asks|].counters, hist, q);
    HistIsWhole(cfg, states, asks, |asks|, q * w, (q + 1) * w);
    WholeCoversGranted(cfg, states, asks, |asks|, q * w, (q + 1) * w);
  }

  // ---------------------------------------------------------------- buckets

  /** The token bucket behind a bucket limiter: its own, or that of the leaky bucket. */
  function BucketOf(cfg: Config, s: State): B.Bucket
    requires s.Tokens? || s.Level?
  {
    if s.Tokens? then s.bucket else Mirrored(cfg.rate, s.leak)
  }

  lemma BucketServed(cfg: Config, s: State, a: Ask)
    requires Accepted(cfg) && !Windowed(cfg) && Matches(cfg, s) && Servable(cfg, a.n)
    ensures var (s', r) := Serve(cfg, s, a.now, a.n, a.token);
            var (b', d) := B.TokenStep(cfg.rate, BucketOf(cfg, s), B.Call(a.now, a.now, a.n));
            (s'.Tokens? || s'.Level?) && BucketOf(cfg, s') == b' && r.allowed == d.allowed
  {
    if s.Level? { B.MirrorStep(cfg.rate, Mirrored(cfg.rate, s.leak), s.leak, B.Call(a.now, a.now, a.n)); }
  }

  lemma {:induction false} BucketHistory(cfg: Config, states: seq<State>, asks: seq<Ask>, k: nat)
    requires IsRun(cfg, states, asks) && k <= |asks| && !Windowed(cfg)
    ensures states[k].Tokens? || states[k].Level?
    ensures B.Wholesome(cfg.rate, BucketOf(cfg, states[k]), Last(asks, k))
    ensures k > 0 ==> BucketOf(cfg, states[k]).Bucket? && BucketOf(cfg, states[k]).ts == Last(asks, k)
  {
    if k > 0 {
      BucketHistory(cfg, states, asks, k - 1);
      var a := asks[k - 1];
      assert Step(cfg, states, asks, k - 1) && (k > 1 ==> asks[k - 2].now <= a.now);
      BucketServed(cfg, states[k - 1], a);
      B.StepWholesome(cfg.rate, BucketOf(cfg, states[k - 1]), B.Call(a.now, a.now, a.n));
    }
  }

  /** A call leaves in the bucket, with what it takes, at most the capacity and at most what was there and its gain. */
  lemma CallSpends(l: B.Rate, b: B.Bucket, c: B.Call)
    requires B.Positive(l) && B.Wholesome(l, b, c.stamp) && c.server == c.stamp && 0.0 <= c.n
    ensures var (b', d) := B.TokenStep(l, b, c);
            var spent := b'.tokens + if d.allowed then c.n else 0.0;
            spent <= l.capacity && (b.Bucket? ==> spent <= b.tokens + B.Gain(l, c.stamp - b.ts))
  {
    B.StepWholesome(l, b, c);
  }

  lemma AddUp(l: B.Rate, b: B.Bucket, b': B.Bucket, took: real, granted: real, from: int, now: int)
    requires b.Bucket? && b'.Bucket? && b'.tokens + took <= b.tokens + B.Gain(l, now - b.ts)
    requires b.tokens + granted <= l.capacity + B.Gain(l, b.ts - from)
    ensures b'.tokens + (granted + took) <= l.capacity + B.Gain(l, now - from)
  {
    B.GainAdds(l, b.ts - from, now - b.ts);
  }

  /** What is left in the bucket and what it let through since `from` stay within the capacity and the gain since
      then. */
  lemma {:induction false} BucketSpent(cfg: Config, states: seq<State>, asks: seq<Ask>, k: nat, from: int, to: int)
    requires IsRun(cfg, states, asks) && 0 < k <= |asks| && !Windowed(cfg) && from <= asks[k - 1].now < to
    ensures states[k].Tokens? || states[k].Level?
    ensures BucketOf(cfg, states[k]).Bucket?
    ensures BucketOf(cfg, states[k]).tokens + Granted(cfg, states, asks, k, from, to)
         <= cfg.rate.capacity + B.Gain(cfg.rate, asks[k - 1].now - from)
  {
    BucketHistory(cfg, states, asks, k);
    BucketHistory(cfg, states, asks, k - 1);
    var a, b := asks[k - 1], BucketOf(cfg, states[k - 1]);
    assert Step(cfg, states, asks, k - 1) && (k > 1 ==> asks[k - 2].now <= a.now);
    BucketServed(cfg, states[k - 1], a);
    CallSpends(cfg.rate, b, B.Call(a.now, a.now, a.n));
    if k > 1 && asks[k - 2].now >= from {
      BucketSpent(cfg, states, asks, k - 1, from, to);
      var took := if Allowed(cfg, states, asks, k - 1) then a.n else 0.0;
      AddUp(cfg.rate, b, BucketOf(cfg, states[k]), took, Granted(cfg, states, asks, k - 1, from, to), from, a.now);
    } else {
      NothingBefore(cfg, states, asks, k - 1, from, to);
      B.GainMonotone(cfg.rate, 0, a.now - from);
    }
  }

  lemma {:induction false} NothingBefore(cfg: Config, states: seq<State>, asks: seq<Ask>, k: nat, from: int, to: int)
    requires IsRun(cfg, states, asks) && k <= |asks| && (k > 0 ==> asks[k - 1].now < from)
    ensures Granted(cfg, states, asks, k, from, to) == 0.0
  {
    if k > 0 {
      assert k > 1 ==> asks[k - 2].now <= asks[k - 1].now;
      NothingBefore(cfg, states, asks, k - 1, from, to);
    }
  }

  lemma {:induction false} BucketGranted(cfg: Config, states: seq<State>, asks: seq<Ask>, k: nat, from: int, to: int)
    requires IsRun(cfg, states, asks) && k <= |asks| && !Windowed(cfg) && from <= to
    ensures Granted(cfg, states, asks, k, from, to) <= cfg.rate.capacity + B.Gain(cfg.rate, to - from)
  {
    B.GainMonotone(cfg.rate, 0, to - from);
    if k > 0 {
      if asks[k - 1].now >= to {
        BucketGranted(cfg, states, asks, k - 1, from, to);
      } else if asks[k - 1].now < from {
        NothingBefore(cfg, states, asks, k, from, to);
      } else {
        BucketSpent(cfg, states, asks, k, from, to);
        BucketHistory(cfg, states, asks, k);
        B.GainMonotone(cfg.rate, asks[k - 1].now - from, to - from);
      }
    }
  }

  /** Over every run and any stretch of time: a token or leaky bucket lets through at most its capacity and what its
      rate brings in that time. */
  lemma BucketRate(cfg: Config, states: seq<State>, asks: seq<Ask>, from: int, ms: nat)
    requires IsRun(cfg, states, asks) && !Windowed(cfg)
    ensures 1000.0 * Granted(cfg, states, asks, |asks|, from, from + ms)
            <= 1000.0 * cfg.rate.capacity + ms as real * cfg.rate.perSecond
  {
    BucketGranted(cfg, states, asks, |asks|, from, from + ms);
    GainIsRate(cfg.rate, ms);
  }

  // ---------------------------------------------------------------- exactly when a bucket lets a call through

  /** Since `from`, with the `k`-th call, no more is asked of the bucket than its capacity and what its rate brought. */
  ghost predicate Conforms(cfg: Config, states: seq<State>, asks: seq<Ask>, k: nat, from: int)
    requires IsRun(cfg, states, asks) && k < |asks|
  {
    1000.0 * (Granted(cfg, states, asks, k, from, asks[k].now + 1) + asks[k].n)
    <= 1000.0 * cfg.rate.capacity + (asks[k].now - from) as real * cfg.rate.perSecond
  }

  lemma {:induction false} GrantedUpTo(cfg: Config, states: seq<State>, asks: seq<Ask>, k: nat, from: int,
                                       to: int, to': int)
    requires IsRun(cfg, states, asks) && k <= |asks| && (k > 0 ==> asks[k - 1].now < to && asks[k - 1].now < to')
    ensures Granted(cfg, states, asks, k, from, to) == Granted(cfg, states, asks, k, from, to')
  {
    if k > 0 {
      assert k > 1 ==> asks[k - 2].now <= asks[k - 1].now;
      GrantedUpTo(cfg, states, asks, k - 1, from, to, to');
    }
  }

  /** What the `k`-th call finds in the bucket. */
  ghost function Found(cfg: Config, states: seq<State>, asks: seq<Ask>, k: nat): real
    requires IsRun(cfg, states, asks) && k < |asks| && !Windowed(cfg)
  {
    BucketHistory(cfg, states, asks, k);
    B.Refilled(cfg.rate, BucketOf(cfg, states[k]), asks[k].now)
  }

  lemma FoundDecides(cfg: Config, states: seq<State>, asks: seq<Ask>, k: nat)
    requires IsRun(cfg, states, asks) && k < |asks| && !Windowed(cfg)
    ensures Allowed(cfg, states, asks, k) <==> asks[k].n <= Found(cfg, states, asks, k)
    ensures states[k + 1].Tokens? || states[k + 1].Level?
    ensures BucketOf(cfg, states[k + 1]).Bucket? && BucketOf(cfg, states[k + 1]).ts == asks[k].now
    ensures BucketOf(cfg, states[k + 1]).tokens ==
            Found(cfg, states, asks, k) - if Allowed(cfg, states, asks, k) then asks[k].n else 0.0
  {
    BucketHistory(cfg, states, asks, k);
    assert Step(cfg, states, asks, k) && (k > 0 ==> asks[k - 1].now <= asks[k].now);
    BucketServed(cfg, states[k], asks[k]);
    B.ExpiryIsFull(cfg.rate, BucketOf(cfg, states[k]), asks[k].now);
  }

  /** From one call to the next, short of a full bucket, what is found changes by the gain less what was taken. */
  lemma FoundNext(cfg: Config, states: seq<State>, asks: seq<Ask>, k: nat)
    requires IsRun(cfg, states, asks) && 0 < k < |asks| && !Windowed(cfg)
    requires asks[k - 1].now == asks[k].now || Found(cfg, states, asks, k) < cfg.rate.capacity
    ensures Found(cfg, states, asks, k) ==
            Found(cfg, states, asks, k - 1) - (if Allowed(cfg, states, asks, k - 1) then asks[k - 1].n else 0.0)
            + B.Gain(cfg.rate, asks[k].now - asks[k - 1].now)
  {
    FoundDecides(cfg, states, asks, k - 1);
    BucketHistory(cfg, states, asks, k);
    assert B.Gain(cfg.rate, 0) == 0.0;
  }

  /** Some instant accounts for all of what is missing: since then the bucket was never full. */
  lemma {:induction false} Accounted(cfg: Config, states: seq<State>, asks: seq<Ask>, k: nat) returns (from: int)
    requires IsRun(cfg, states, asks) && k < |asks| && !Windowed(cfg)
    ensures from <= asks[k].now
    ensures Found(cfg, states, asks, k) + Granted(cfg, states, asks, k, from, asks[k].now + 1)
         >= cfg.rate.capacity + B.Gain(cfg.rate, asks[k].now - from)
  {
    assert B.Gain(cfg.rate, 0) == 0.0;
    if k > 0 && (asks[k - 1].now == asks[k].now || Found(cfg, states, asks, k) < cfg.rate.capacity) {
      assert asks[k - 1].now <= asks[k].now;
      from := Accounted(cfg, states, asks, k - 1);
      FoundNext(cfg, states, asks, k);
      GrantedUpTo(cfg, states, asks, k - 1, from, asks[k - 1].now + 1, asks[k].now + 1);
      B.GainAdds(cfg.rate, asks[k - 1].now - from, asks[k].now - asks[k - 1].now);
    } else {
      from := asks[k].now;
      assert k > 0 ==> asks[k - 1].now <= asks[k].now;
      NothingBefore(cfg, states, asks, k, from, from + 1);
      BucketHistory(cfg, states, asks, k);
    }
  }

  lemma ByGain(r: B.Rate, total: real, ms: int)
    ensures 1000.0 * total <= 1000.0 * r.capacity + ms as real * r.perSecond <==> total <= r.capacity + B.Gain(r, ms)
  {
    GainIsRate(r, ms);
  }

  lemma ConformsByGain(cfg: Config, states: seq<State>, asks: seq<Ask>, k: nat, from: int)
    requires IsRun(cfg, states, asks) && k < |asks|
    ensures Conforms(cfg, states, asks, k, from) <==>
            Granted(cfg, states, asks, k, from, asks[k].now + 1) + asks[k].n
            <= cfg.rate.capacity + B.Gain(cfg.rate, asks[k].now - from)
  {
    ByGain(cfg.rate, Granted(cfg, states, asks, k, from, asks[k].now + 1) + asks[k].n, asks[k].now - from);
  }

  lemma AllowedConforms(cfg: Config, states: seq<State>, asks: seq<Ask>, k: nat, from: int)
    requires IsRun(cfg, states, asks) && k < |asks| && !Windowed(cfg) && from <= asks[k].now
    requires Allowed(cfg, states, asks, k)
    ensures Granted(cfg, states, asks, k, from, asks[k].now + 1) + asks[k].n
         <= cfg.rate.capacity + B.Gain(cfg.rate, asks[k].now - from)
  {
    BucketSpent(cfg, states, asks, k + 1, from, asks[k].now + 1);
    BucketHistory(cfg, states, asks, k + 1);
  }

  lemma RefusedExceeds(cfg: Config, states: seq<State>, asks: seq<Ask>, k: nat) returns (from: int)
    requires IsRun(cfg, states, asks) && k < |asks| && !Windowed(cfg) && !Allowed(cfg, states, asks, k)
    ensures from <= asks[k].now
    ensures Granted(cfg, states, asks, k, from, asks[k].now + 1) + asks[k].n
          > cfg.rate.capacity + B.Gain(cfg.rate, asks[k].now - from)
  {
    FoundDecides(cfg, states, asks, k);
    from := Accounted(cfg, states, asks, k);
  }

  /** A token or leaky bucket lets a call through if and only if, from whatever instant one counts, what it let through
      since then and the call stay within the capacity and what the rate brought. */
  lemma BucketAdmitsExactly(cfg: Config, states: seq<State>, asks: seq<Ask>, k: nat)
    requires IsRun(cfg, states, asks) && k < |asks| && !Windowed(cfg)
    ensures Allowed(cfg, states, asks, k) <==>
            forall from: int :: from <= asks[k].now ==> Conforms(cfg, states, asks, k, from)
  {
    if Allowed(cfg, states, asks, k) {
      forall from: int | from <= asks[k].now ensures Conforms(cfg, states, asks, k, from) {
        AllowedConforms(cfg, states, asks, k, from);
        ConformsByGain(cfg, states, asks, k, from);
      }
    } else {
      var from := RefusedExceeds(cfg, states, asks, k);
      ConformsByGain(cfg, states, asks, k, from);
      assert !Conforms(cfg, states, asks, k, from);
    }
  }
}
