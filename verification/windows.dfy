/** The windowed rate limiters: a counter per fixed window, and a log of admitted requests. */
module Windows {
  import opened Store

  /** At most `max` requests in `window` milliseconds. */
  datatype Limit = Limit(max: nat, window: nat)

  datatype Verdict = Verdict(allowed: bool, remaining: int, retryMs: int)

  /** `n` requests that reach the server at `server` ms with client stamp `stamp`. */
  datatype Request = Request(server: nat, stamp: nat, n: nat, prefix: Token)

  /** What a run has admitted, oldest first. */
  datatype Admission = Admission(stamp: nat, n: nat, prefix: Token)

  /** The requests admitted with a stamp in `[from, to)`. */
  function Between(hist: seq<Admission>, from: int, to: int): nat {
    if hist == [] then 0
    else
      var a := hist[|hist| - 1];
      Between(hist[..|hist| - 1], from, to) + if from <= a.stamp < to then a.n else 0
  }

  function Record(hist: seq<Admission>, r: Request, allowed: bool): seq<Admission> {
    if allowed then hist + [Admission(r.stamp, r.n, r.prefix)] else hist
  }

  lemma RecordAdds(hist: seq<Admission>, r: Request, allowed: bool, from: int, to: int)
    ensures Between(Record(hist, r, allowed), from, to)
         == Between(hist, from, to) + if allowed && from <= r.stamp < to then r.n else 0
  {
    assert allowed ==> Record(hist, r, allowed)[..|hist|] == hist;
  }

  lemma {:induction false} BetweenSplits(hist: seq<Admission>, from: int, mid: int, to: int)
    requires from <= mid <= to
    ensures Between(hist, from, to) == Between(hist, from, mid) + Between(hist, mid, to)
  {
    if hist != [] { BetweenSplits(hist[..|hist| - 1], from, mid, to); }
  }

  // ---------------------------------------------------------------- fixed windows

  datatype Counter = Counter(count: nat, expireAt: int)

  function CountAt(c: map<nat, Counter>, k: nat, server: int): nat {
    if k in c && c[k].expireAt > server then c[k].count else 0
  }

  function FixedStep(l: Limit, c: map<nat, Counter>, r: Request): (map<nat, Counter>, Verdict)
    requires l.window > 0
  {
    var k := r.stamp / l.window;
    var before := CountAt(c, k, r.server);
    var count := before + r.n;
    var retry := (k + 1) * l.window - r.stamp;
    if count > l.max
    then (c[k := Counter(before, r.server + 2 * l.window)], Verdict(false, 0, retry))
    else (c[k := Counter(count, r.server + 2 * l.window)], Verdict(true, l.max - count, retry))
  }

  /** Server and client clock agree to within half a window. */
  predicate Synchronous(l: Limit, r: Request) {
    2 * (r.server - r.stamp) <= l.window && 2 * (r.stamp - r.server) <= l.window
  }

  function InWindow(l: Limit, hist: seq<Admission>, k: nat): nat {
    Between(hist, k * l.window, (k + 1) * l.window)
  }

  ghost predicate CounterOk(l: Limit, c: map<nat, Counter>, hist: seq<Admission>, k: nat) {
    && InWindow(l, hist, k) <= l.max
    && (k !in c ==> InWindow(l, hist, k) == 0)
    && (k in c ==>
          && c[k].count == InWindow(l, hist, k)
          && 2 * c[k].expireAt >= (2 * k + 3) * l.window)
  }

  /** Every counter holds the admitted total of its window, and outlives the window. */
  ghost predicate Tallied(l: Limit, c: map<nat, Counter>, hist: seq<Admission>) {
    forall k: nat {:trigger CounterOk(l, c, hist, k)} :: CounterOk(l, c, hist, k)
  }

  lemma WindowOf(w: nat, t: nat, k: nat)
    requires w > 0
    ensures k * w <= t < (k + 1) * w <==> k == t / w
    ensures t / w * w <= t < (t / w + 1) * w
  {
    var q := t / w;
    assert t == q * w + t % w;
    assert (q + 1) * w == q * w + w;
    if k < q { assert (k + 1) * w <= q * w by { Times(k + 1, q, w); } }
    if k > q { assert (q + 1) * w <= k * w by { Times(q + 1, k, w); } }
  }

  lemma Times(a: nat, b: nat, w: nat)
    requires a <= b
    ensures a * w <= b * w
  {
    assert (b - a) * w >= 0;
  }

  lemma LaterWindow(w: nat, t: nat, k: nat)
    requires w > 0 && (k + 1) * w <= t
    ensures t / w > k
  {
    WindowOf(w, t, k);
    if t / w <= k { Times(t / w + 1, k + 1, w); }
  }

  lemma CountIsTally(l: Limit, c: map<nat, Counter>, hist: seq<Admission>, r: Request)
    requires l.window > 0 && CounterOk(l, c, hist, r.stamp / l.window) && Synchronous(l, r)
    ensures CountAt(c, r.stamp / l.window, r.server) == InWindow(l, hist, r.stamp / l.window)
  {
    var k := r.stamp / l.window;
    WindowOf(l.window, r.stamp, k);
    Spread(k, l.window);
  }

  lemma Spread(k: nat, w: nat)
    ensures (2 * k + 3) * w == 2 * (k * w) + 3 * w && (k + 1) * w == k * w + w
  {
    assert 2 * k * w == 2 * (k * w);
  }

  lemma FixedKeepsOne(l: Limit, c: map<nat, Counter>, hist: seq<Admission>, r: Request, k: nat)
    requires l.window > 0 && CounterOk(l, c, hist, k) && CounterOk(l, c, hist, r.stamp / l.window) && Synchronous(l, r)
    ensures var (c', v) := FixedStep(l, c, r);
            CounterOk(l, c', Record(hist, r, v.allowed), k)
  {
    var (c', v) := FixedStep(l, c, r);
    CountIsTally(l, c, hist, r);
    WindowOf(l.window, r.stamp, k);
    RecordAdds(hist, r, v.allowed, k * l.window, (k + 1) * l.window);
    Spread(k, l.window);
  }

  /** A request is admitted exactly when its window has room for it, whatever the order of the stamps. */
  lemma FixedCountsHistory(l: Limit, c: map<nat, Counter>, hist: seq<Admission>, r: Request)
    requires l.window > 0 && Tallied(l, c, hist) && Synchronous(l, r)
    ensures var (c', v) := FixedStep(l, c, r);
            && (v.allowed <==> InWindow(l, hist, r.stamp / l.window) + r.n <= l.max)
            && (v.allowed ==> v.remaining == l.max - InWindow(l, hist, r.stamp / l.window) - r.n)
            && Tallied(l, c', Record(hist, r, v.allowed))
  {
    var (c', v) := FixedStep(l, c, r);
    assert CounterOk(l, c, hist, r.stamp / l.window);
    CountIsTally(l, c, hist, r);
    forall k: nat ensures CounterOk(l, c', Record(hist, r, v.allowed), k) {
      assert CounterOk(l, c, hist, k);
      FixedKeepsOne(l, c, hist, r, k);
    }
  }

  function FixedRun(l: Limit, c: map<nat, Counter>, hist: seq<Admission>, reqs: seq<Request>):
    (map<nat, Counter>, seq<Admission>)
    requires l.window > 0
    decreases |reqs|
  {
    if reqs == [] then (c, hist)
    else
      var (c', v) := FixedStep(l, c, reqs[0]);
      FixedRun(l, c', Record(hist, reqs[0], v.allowed), reqs[1..])
  }

  lemma {:induction false} FixedRunTallied(l: Limit, c: map<nat, Counter>, hist: seq<Admission>, reqs: seq<Request>)
    requires l.window > 0 && Tallied(l, c, hist)
    requires forall i :: 0 <= i < |reqs| ==> Synchronous(l, reqs[i])
    ensures var (c', hist') := FixedRun(l, c, hist, reqs); Tallied(l, c', hist')
    decreases |reqs|
  {
    if reqs != [] {
      FixedCountsHistory(l, c, hist, reqs[0]);
      var (c', v) := FixedStep(l, c, reqs[0]);
      FixedRunTallied(l, c', Record(hist, reqs[0], v.allowed), reqs[1..]);
    }
  }

  lemma Straddles(l: Limit, hist: seq<Admission>, from: nat, q: nat)
    requires l.window > 0 && q == from / l.window
    ensures Between(hist, from, from + l.window) <= InWindow(l, hist, q) + InWindow(l, hist, q + 1)
  {
    WindowOf(l.window, from, q);
    Spread(q, l.window);
    Spread(q + 1, l.window);
    var a, b, d := q * l.window, (q + 1) * l.window, (q + 2) * l.window;
    BetweenSplits(hist, a, from, b);
    BetweenSplits(hist, from, b, from + l.window);
    BetweenSplits(hist, b, from + l.window, d);
  }

  lemma EmptyTallied(l: Limit)
    ensures Tallied(l, map[], [])
  {
    assert forall k: nat :: CounterOk(l, map[], [], k);
  }

  lemma WindowFits(l: Limit, c: map<nat, Counter>, hist: seq<Admission>, k: nat)
    requires Tallied(l, c, hist)
    ensures InWindow(l, hist, k) <= l.max
  {
    assert CounterOk(l, c, hist, k);
  }

  /** Any window admits at most the limit, and any interval of a window's length at most twice the limit. */
  lemma FixedBound(l: Limit, reqs: seq<Request>, k: nat, from: nat)
    requires l.window > 0 && AllSynchronous(l, reqs)
    ensures var (_, hist) := FixedRun(l, map[], [], reqs);
            && InWindow(l, hist, k) <= l.max
            && Between(hist, from, from + l.window) <= 2 * l.max
  {
    var (c, hist) := FixedRun(l, map[], [], reqs);
    EmptyTallied(l);
    FixedRunTallied(l, map[], [], reqs);
    var q := from / l.window;
    WindowFits(l, c, hist, k);
    WindowFits(l, c, hist, q);
    WindowFits(l, c, hist, q + 1);
    Straddles(l, hist, from, q);
  }

  lemma TwoSteps(l: Limit, r0: Request, r1: Request)
    requires l.window > 0 && r0.stamp / l.window != r1.stamp / l.window && r0.n <= l.max && r1.n <= l.max
    ensures FixedRun(l, map[], [], [r0, r1]).1 == Record(Record([], r0, true), r1, true)
  {
    var h1 := Record([], r0, true);
    var c1 := FixedStep(l, map[], r0).0;
    assert [r0, r1][1..] == [r1];
    assert [r1][1..] == [];
    assert FixedRun(l, map[], [], [r0, r1]) == FixedRun(l, c1, h1, [r1]);
    assert FixedStep(l, c1, r1).1.allowed;
    assert FixedRun(l, c1, h1, [r1]).1 == Record(h1, r1, true);
  }

  /** Two full bursts on either side of the boundary after `from`, one millisecond apart. */
  function Bursts(l: Limit, from: nat): seq<Request>
    requires l.window > 0
  {
    var b := (from / l.window + 1) * l.window;
    WindowOf(l.window, from, 0);
    [Request(b - 1, b - 1, l.max, "a"), Request(b, b, l.max, "b")]
  }

  ghost predicate AllSynchronous(l: Limit, reqs: seq<Request>) {
    forall i :: 0 <= i < |reqs| ==> Synchronous(l, reqs[i])
  }

  /** From anywhere but a boundary, twice the limit is reached. */
  lemma FixedBoundIsReached(l: Limit, from: nat)
    requires l.window > 0 && from % l.window != 0
    ensures AllSynchronous(l, Bursts(l, from))
    ensures Between(FixedRun(l, map[], [], Bursts(l, from)).1, from, from + l.window) == 2 * l.max
  {
    var w, q := l.window, from / l.window;
    var b := (q + 1) * w;
    var r0, r1 := Request(b - 1, b - 1, l.max, "a"), Request(b, b, l.max, "b");
    assert from == q * w + from % w && b == q * w + w by { Spread(q, w); }
    WindowOf(w, b - 1, q);
    Spread(q + 1, w);
    WindowOf(w, b, q + 1);
    TwoSteps(l, r0, r1);
    RecordAdds([], r0, true, from, from + w);
    RecordAdds(Record([], r0, true), r1, true, from, from + w);
  }

  /** No run admits more than the limit in the `window` milliseconds from `from` on. */
  ghost predicate LimitsFrom(l: Limit, from: nat)
    requires l.window > 0
  {
    forall reqs :: AllSynchronous(l, reqs) ==> Between(FixedRun(l, map[], [], reqs).1, from, from + l.window) <= l.max
  }

  /** An interval of a window's length is limited if and only if it starts at a boundary (or nothing is ever
      admitted). */
  lemma FixedLimitsExactlyAtBoundaries(l: Limit, from: nat)
    requires l.window > 0
    ensures LimitsFrom(l, from) <==> from % l.window == 0 || l.max == 0
  {
    if from % l.window == 0 || l.max == 0 {
      forall reqs | AllSynchronous(l, reqs)
        ensures Between(FixedRun(l, map[], [], reqs).1, from, from + l.window) <= l.max
      {
        var q := from / l.window;
        FixedBound(l, reqs, q, from);
        if from % l.window == 0 {
          Spread(q, l.window);
          assert q * l.window == from;
        }
      }
    } else {
      FixedBoundIsReached(l, from);
      assert AllSynchronous(l, Bursts(l, from));
    }
  }

  /** With no other traffic a rejected caller succeeds after `d` milliseconds exactly when it waited as long as told. */
  lemma FixedWaitIsExact(l: Limit, c: map<nat, Counter>, r: Request, d: nat)
    requires l.window > 0 && r.server == r.stamp && r.n <= l.max
    requires forall k :: k in c ==> k <= r.stamp / l.window
    requires !FixedStep(l, c, r).1.allowed
    ensures var (c', v) := FixedStep(l, c, r);
            && 0 < v.retryMs <= l.window
            && (FixedStep(l, c', Request(r.server + d, r.stamp + d, r.n, r.prefix)).1.allowed <==> d >= v.retryMs)
  {
    var (c', v) := FixedStep(l, c, r);
    var k := r.stamp / l.window;
    WindowOf(l.window, r.stamp, k);
    Spread(k, l.window);
    var later := r.stamp + d;
    WindowOf(l.window, later, k);
    if d >= v.retryMs { LaterWindow(l.window, later, k); }
  }

  // ---------------------------------------------------------------- sliding window

  /** The sorted set of admitted requests by stamp; empty when the key is absent. */
  datatype Log = Log(entries: map<Permit, int>, expireAt: int)

  function LookLog(g: Log, server: int): map<Permit, int> {
    if g.expireAt <= server then map[] else g.entries
  }

  ghost predicate IsOldest(entries: map<Permit, int>, v: int) {
    && (exists p :: p in entries && entries[p] == v)
    && (forall p :: p in entries ==> v <= entries[p])
  }

  ghost function Oldest(entries: map<Permit, int>): (v: int)
    requires entries.Keys != {}
    ensures IsOldest(entries, v)
  {
    LeastExists(entries, entries.Keys);
    var p :| p in entries.Keys && forall k :: k in entries.Keys ==> entries[p] <= entries[k];
    entries[p]
  }

  ghost function SlidingStep(l: Limit, g: Log, r: Request): (Log, Verdict) {
    var live := Reclaim(LookLog(g, r.server), r.stamp - l.window);
    var expireAt := r.server + 2 * l.window;
    if |live| + r.n > l.max
    then (Log(live, expireAt),
          Verdict(false, 0, if live.Keys == {} then l.window else l.window - (r.stamp - Oldest(live))))
    else (Log(Grant(live, r.prefix, r.n, r.stamp), expireAt), Verdict(true, l.max - |live| - r.n, 0))
  }

  /** The log that an admission history leaves once stamps up to `cut` are dropped. */
  function LogOf(hist: seq<Admission>, cut: int): map<Permit, int> {
    if hist == [] then map[]
    else
      var a := hist[|hist| - 1];
      var rest := LogOf(hist[..|hist| - 1], cut);
      if a.stamp > cut then Grant(rest, a.prefix, a.n, a.stamp) else rest
  }

  ghost predicate Unseen(hist: seq<Admission>, prefix: Token) {
    forall i :: 0 <= i < |hist| ==> hist[i].prefix != prefix
  }

  ghost predicate DistinctPrefixes(hist: seq<Admission>) {
    forall i, j :: 0 <= i < j < |hist| ==> hist[i].prefix != hist[j].prefix
  }

  ghost predicate UpTo(hist: seq<Admission>, last: int) {
    forall i :: 0 <= i < |hist| ==> hist[i].stamp <= last
  }

  lemma {:induction false} UnseenAbsent(hist: seq<Admission>, cut: int, prefix: Token)
    requires Unseen(hist, prefix)
    ensures forall p :: p in LogOf(hist, cut) ==> p.id != prefix
  {
    if hist != [] {
      var a := hist[|hist| - 1];
      UnseenAbsent(hist[..|hist| - 1], cut, prefix);
      GrantAdds(LogOf(hist[..|hist| - 1], cut), a.prefix, a.n, a.stamp);
    }
  }

  lemma {:induction false} LogSize(hist: seq<Admission>, cut: int, last: int)
    requires DistinctPrefixes(hist) && UpTo(hist, last)
    ensures |LogOf(hist, cut)| == Between(hist, cut + 1, last + 1)
  {
    if hist != [] {
      var a, front := hist[|hist| - 1], hist[..|hist| - 1];
      LogSize(front, cut, last);
      UnseenAbsent(front, cut, a.prefix);
      GrantSize(LogOf(front, cut), a.prefix, a.n, a.stamp);
    }
  }

  lemma ReclaimGrant(entries: map<Permit, int>, id: Token, n: nat, v: int, cut: int)
    requires forall p :: p in entries ==> p.id != id
    ensures Reclaim(Grant(entries, id, n, v), cut)
         == if v > cut then Grant(Reclaim(entries, cut), id, n, v) else Reclaim(entries, cut)
  {
    GrantAdds(entries, id, n, v);
    GrantAdds(Reclaim(entries, cut), id, n, v);
  }

  lemma ReclaimTwice(entries: map<Permit, int>, cut: int, cut': int)
    requires cut <= cut'
    ensures Reclaim(Reclaim(entries, cut), cut') == Reclaim(entries, cut')
  {
  }

  lemma {:induction false} ReclaimLog(hist: seq<Admission>, cut: int, cut': int)
    requires DistinctPrefixes(hist) && cut <= cut'
    ensures Reclaim(LogOf(hist, cut), cut') == LogOf(hist, cut')
  {
    if hist != [] {
      var a, front := hist[|hist| - 1], hist[..|hist| - 1];
      ReclaimLog(front, cut, cut');
      UnseenAbsent(front, cut, a.prefix);
      ReclaimGrant(LogOf(front, cut), a.prefix, a.n, a.stamp, cut');
    }
  }

  lemma {:induction false} LogEmpty(hist: seq<Admission>, cut: int)
    requires UpTo(hist, cut)
    ensures LogOf(hist, cut) == map[]
  {
    if hist != [] { LogEmpty(hist[..|hist| - 1], cut); }
  }

  /** The log is exactly the admitted history inside the window that ends at `last`. */
  ghost predicate Faithful(l: Limit, g: Log, hist: seq<Admission>, last: int) {
    && g.entries == LogOf(hist, last - l.window)
    && (g.entries == map[] || g.expireAt == last + 2 * l.window)
    && DistinctPrefixes(hist) && UpTo(hist, last)
  }

  lemma LiveIsHistory(l: Limit, g: Log, hist: seq<Admission>, last: int, now: int)
    requires Faithful(l, g, hist, last) && last <= now
    ensures Reclaim(LookLog(g, now), now - l.window) == LogOf(hist, now - l.window)
  {
    ReclaimLog(hist, last - l.window, now - l.window);
    if g.expireAt <= now && g.entries != map[] {
      LogEmpty(hist, now - l.window);
    }
  }

  lemma RecordLog(l: Limit, hist: seq<Admission>, r: Request)
    requires l.window > 0 && DistinctPrefixes(hist) && UpTo(hist, r.stamp) && Unseen(hist, r.prefix)
    ensures var hist' := Record(hist, r, true);
            && LogOf(hist', r.stamp - l.window) == Grant(LogOf(hist, r.stamp - l.window), r.prefix, r.n, r.stamp)
            && DistinctPrefixes(hist') && UpTo(hist', r.stamp)
  {
    assert Record(hist, r, true)[..|hist|] == hist;
  }

  lemma LiveCount(l: Limit, g: Log, hist: seq<Admission>, last: int, now: int)
    requires Faithful(l, g, hist, last) && last <= now
    ensures |Reclaim(LookLog(g, now), now - l.window)| == Between(hist, now - l.window + 1, now + 1)
    ensures Reclaim(LookLog(g, now), now - l.window) == LogOf(hist, now - l.window)
    ensures UpTo(hist, now)
  {
    LiveIsHistory(l, g, hist, last, now);
    LogSize(hist, now - l.window, now);
  }

  /** On one clock that never goes back, a request is admitted exactly when the requests admitted in the rolling
      window that ends with it leave room for it. */
  lemma SlidingCountsHistory(l: Limit, g: Log, hist: seq<Admission>, last: int, r: Request)
    requires l.window > 0 && Faithful(l, g, hist, last) && r.server == r.stamp >= last && Unseen(hist, r.prefix)
    ensures var (g', v) := SlidingStep(l, g, r);
            var used := Between(hist, r.stamp - l.window + 1, r.stamp + 1);
            && (v.allowed <==> used + r.n <= l.max)
            && (v.allowed ==> v.remaining == l.max - used - r.n)
            && Faithful(l, g', Record(hist, r, v.allowed), r.stamp)
  {
    var (g', v) := SlidingStep(l, g, r);
    LiveCount(l, g, hist, last, r.stamp);
    if v.allowed { RecordLog(l, hist, r); }
  }

  ghost function SlidingRun(l: Limit, g: Log, hist: seq<Admission>, reqs: seq<Request>): (Log, seq<Admission>)
    decreases |reqs|
  {
    if reqs == [] then (g, hist)
    else
      var (g', v) := SlidingStep(l, g, reqs[0]);
      SlidingRun(l, g', Record(hist, reqs[0], v.allowed), reqs[1..])
  }

  /** Requests stamped by the server's own clock, from `last` on, each with its own prefix. */
  ghost predicate Steady(reqs: seq<Request>, last: int) {
    && (forall i :: 0 <= i < |reqs| ==> reqs[i].server == reqs[i].stamp >= last)
    && (forall i, j :: 0 <= i < j < |reqs| ==> reqs[i].stamp <= reqs[j].stamp && reqs[i].prefix != reqs[j].prefix)
  }

  /** What one rolling window holds. */
  function WindowFrom(l: Limit, hist: seq<Admission>, from: int): nat { Between(hist, from, from + l.window) }

  ghost predicate Rolling(l: Limit, hist: seq<Admission>) {
    forall from: int :: WindowFrom(l, hist, from) <= l.max
  }

  lemma {:induction false} BetweenGrows(hist: seq<Admission>, from: int, to: int, from': int, to': int, last: int)
    requires UpTo(hist, last) && from' <= from && (to <= to' || last < to')
    ensures Between(hist, from, to) <= Between(hist, from', to')
  {
    if hist != [] { BetweenGrows(hist[..|hist| - 1], from, to, from', to', last); }
  }

  lemma AdmissionFits(l: Limit, hist: seq<Admission>, last: int, r: Request, allowed: bool, from: int)
    requires UpTo(hist, last) && last <= r.stamp && WindowFrom(l, hist, from) <= l.max
    requires allowed ==> Between(hist, r.stamp - l.window + 1, r.stamp + 1) + r.n <= l.max
    ensures WindowFrom(l, Record(hist, r, allowed), from) <= l.max
  {
    RecordAdds(hist, r, allowed, from, from + l.window);
    if allowed && from <= r.stamp < from + l.window {
      BetweenGrows(hist, from, from + l.window, r.stamp - l.window + 1, r.stamp + 1, last);
    }
  }

  lemma SlidingKeepsRolling(l: Limit, g: Log, hist: seq<Admission>, last: int, r: Request, from: int)
    requires l.window > 0 && Faithful(l, g, hist, last) && r.server == r.stamp >= last && Unseen(hist, r.prefix)
    requires WindowFrom(l, hist, from) <= l.max
    ensures WindowFrom(l, Record(hist, r, SlidingStep(l, g, r).1.allowed), from) <= l.max
  {
    var v := SlidingStep(l, g, r).1;
    SlidingCountsHistory(l, g, hist, last, r);
    AdmissionFits(l, hist, last, r, v.allowed, from);
  }

  lemma {:induction false} SlidingRunKeeps(l: Limit, g: Log, hist: seq<Admission>, last: int, reqs: seq<Request>)
    requires l.window > 0 && Faithful(l, g, hist, last) && Rolling(l, hist) && Steady(reqs, last)
    requires forall i :: 0 <= i < |reqs| ==> Unseen(hist, reqs[i].prefix)
    ensures var (g', hist') := SlidingRun(l, g, hist, reqs);
            && Rolling(l, hist')
            && Faithful(l, g', hist', if reqs == [] then last else reqs[|reqs| - 1].stamp)
    decreases |reqs|
  {
    if reqs != [] {
      var r := reqs[0];
      var (g', v) := SlidingStep(l, g, r);
      var hist' := Record(hist, r, v.allowed);
      assert Unseen(hist, r.prefix);
      SlidingCountsHistory(l, g, hist, last, r);
      forall from: int ensures WindowFrom(l, hist', from) <= l.max {
        SlidingKeepsRolling(l, g, hist, last, r, from);
      }
      forall i | 0 <= i < |reqs[1..]| ensures Unseen(hist', reqs[1..][i].prefix) {
        assert reqs[1..][i] == reqs[i + 1] && Unseen(hist, reqs[i + 1].prefix);
      }
      SlidingRunKeeps(l, g', hist', r.stamp, reqs[1..]);
    }
  }

  /** Over a whole run on one clock that never goes back: the log is exactly the admitted history inside the last
      window, and no rolling window ever admitted more than the limit. */
  lemma SlidingBound(l: Limit, reqs: seq<Request>, from: int)
    requires l.window > 0 && Steady(reqs, 0)
    ensures var (g, hist) := SlidingRun(l, Log(map[], 0), [], reqs);
            && WindowFrom(l, hist, from) <= l.max
            && g.entries == LogOf(hist, (if reqs == [] then 0 else reqs[|reqs| - 1].stamp) - l.window)
  {
    assert Rolling(l, []);
    SlidingRunKeeps(l, Log(map[], 0), [], 0, reqs);
    var (g, hist) := SlidingRun(l, Log(map[], 0), [], reqs);
    assert WindowFrom(l, hist, from) <= l.max;
  }

  // ---------------------------------------------------------------- waiting for the sliding window

  /** Expiry never takes an entry that is still inside the window. */
  ghost predicate Outlives(l: Limit, g: Log, now: int) {
    forall p :: p in g.entries ==> g.entries[p] <= now && g.entries[p] + 2 * l.window <= g.expireAt
  }

  function Live(l: Limit, g: Log, now: int): map<Permit, int> {
    Reclaim(g.entries, now - l.window)
  }

  lemma LookIsLive(l: Limit, g: Log, start: int, now: int)
    requires Outlives(l, g, start)
    ensures Reclaim(LookLog(g, now), now - l.window) == Live(l, g, now)
  {
  }

  lemma OldestStays(l: Limit, g: Log, now: int, later: int)
    requires now <= later && Live(l, g, now).Keys != {} && later - l.window < Oldest(Live(l, g, now))
    ensures Live(l, g, later) == Live(l, g, now)
  {
  }

  lemma OldestLeaves(l: Limit, g: Log, now: int)
    requires Live(l, g, now).Keys != {}
    ensures |Live(l, g, Oldest(Live(l, g, now)) + l.window)| < |Live(l, g, now)|
  {
    var live := Live(l, g, now);
    var o := Oldest(live);
    var p :| p in live && live[p] == o;
    var after := Live(l, g, o + l.window);
    assert p in live.Keys && p !in after.Keys;
    FewerKeys(after, live);
  }

  /** A rejected caller is told to wait until the oldest entry leaves the window. */
  lemma SlidingRejects(l: Limit, g: Log, r: Request)
    requires l.window > 0 && Outlives(l, g, r.stamp) && r.server == r.stamp
    ensures var (g', v) := SlidingStep(l, g, r);
            var live := Live(l, g, r.stamp);
            && (v.allowed <==> |live| + r.n <= l.max)
            && (!v.allowed ==> g' == Log(live, r.server + 2 * l.window))
            && (!v.allowed && r.n <= l.max ==>
                  live.Keys != {} && v.retryMs == Oldest(live) + l.window - r.stamp && 0 < v.retryMs <= l.window)
  {
    LookIsLive(l, g, r.stamp, r.stamp);
  }

  /** No shorter wait can succeed, and that wait strictly lowers the number of entries the caller competes with. */
  lemma SlidingWaitIsShortest(l: Limit, g: Log, r: Request, d: nat)
    requires l.window > 0 && Outlives(l, g, r.stamp) && r.server == r.stamp && r.n <= l.max
    requires !SlidingStep(l, g, r).1.allowed
    ensures var v := SlidingStep(l, g, r).1;
            && (d < v.retryMs ==> |Live(l, g, r.stamp + d)| + r.n > l.max)
            && |Live(l, g, r.stamp + v.retryMs)| < |Live(l, g, r.stamp)|
  {
    SlidingRejects(l, g, r);
    OldestLeaves(l, g, r.stamp);
    if d < SlidingStep(l, g, r).1.retryMs { OldestStays(l, g, r.stamp, r.stamp + d); }
  }

  /** Being rejected changes nothing for later attempts. */
  lemma SlidingRejectionIsNeutral(l: Limit, g: Log, r: Request, later: int)
    requires l.window > 0 && Outlives(l, g, r.stamp) && r.server == r.stamp <= later
    requires !SlidingStep(l, g, r).1.allowed
    ensures var g' := SlidingStep(l, g, r).0;
            Outlives(l, g', r.stamp) && Live(l, g', later) == Live(l, g, later)
  {
    SlidingRejects(l, g, r);
    ReclaimTwice(g.entries, r.stamp - l.window, later - l.window);
  }
}
