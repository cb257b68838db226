/** The conditions of the lease guarantees are exact: wherever one of them fails, some run of the protocol has two
    holders that both believe they are valid and must not be together. */
module Tightness {
  import opened Store
  import opened ArrivalQueue
  import opened Clock
  import opened Protocol
  import opened Safety
  import opened Guarantees

  /** A ttl for which a request that is answered at once is valid at all. */
  predicate Usable(ttl: nat) { ttl - ttl / 100 > MS }

  ghost predicate LastIs(cfg: Config, worlds: seq<World>, events: seq<Event>, w: World) {
    Protocol.IsRun(cfg, worlds, events) && worlds[|worlds| - 1] == w
  }

  lemma Extend(cfg: Config, worlds: seq<World>, events: seq<Event>, w: World, e: Event)
    returns (worlds': seq<World>, events': seq<Event>)
    requires LastIs(cfg, worlds, events, w) && Enabled(cfg, w, e)
    ensures LastIs(cfg, worlds', events', Next(cfg, w, e))
  {
    worlds', events' := worlds + [Next(cfg, w, e)], events + [e];
  }

  /** A queue with nobody else in it holds just the newcomer after it enters. */
  lemma AloneInQueue(q: Queue, m: Waiter, now: int, stamp: int, timeout: nat)
    requires q.waiters.Keys <= {m}
    ensures Enter(q, m, now, stamp, timeout).waiters.Keys == {m}
    ensures Leave(Enter(q, m, now, stamp, timeout), m).waiters == map[]
  {
    EnterKeepsCaller(q, m, now, stamp, timeout);
  }

  function Trier(role: Role, offset: int, now: int): Lease {
    NewLease(role, offset, now).(phase := Trying(Pending))
  }

  /** A new lease begins its first attempt at once. */
  lemma BeginsAtOnce(cfg: Config, worlds: seq<World>, events: seq<Event>, w: World, t: Token, role: Role, offset: int)
    returns (worlds': seq<World>, events': seq<Event>, w': World)
    requires LastIs(cfg, worlds, events, w) && Enabled(cfg, w, Create(t, role, offset))
    ensures LastIs(cfg, worlds', events', w')
    ensures w' == w.(leases := w.leases[t := Trier(role, offset, w.time + offset)])
  {
    worlds', events' := Extend(cfg, worlds, events, w, Create(t, role, offset));
    w' := Next(cfg, w, Create(t, role, offset));
    worlds', events' := Extend(cfg, worlds', events', w', Act(t, Begin));
    w' := Next(cfg, w', Act(t, Begin));
    assert w'.leases == w.leases[t := Trier(role, offset, w.time + offset)];
  }

  function Holder(role: Role, offset: int, now: int, ttl: nat, fence: nat): Lease {
    NewLease(role, offset, now).(phase := Held, expiresAt := RequestExpiry(now, ttl), fence := fence)
  }

  function Promised(role: Role, offset: int, now: int, fence: nat): Lease {
    NewLease(role, offset, now).(phase := Trying(Granted(fence)))
  }

  /** What its attempt begun at `now` runs on the server. */
  function Script(cfg: Config, s: Redis, t: Token, role: Role, now: int): (Redis, Option<nat>) {
    AcquireScript(cfg.kind, s, t, role, Stamp(now), TtlMs(cfg.ttl), WaiterTimeout(cfg.ttl))
  }

  lemma ExecutesAtOnce(cfg: Config, w: World, t: Token, role: Role, offset: int, now: int, f: nat)
    requires t in w.leases && w.leases[t] == Trier(role, offset, now)
    requires Script(cfg, w.redis, t, role, now).1 == Some(f)
    ensures Next(cfg, w, Act(t, ExecAcquire)) ==
            w.(redis := Script(cfg, w.redis, t, role, now).0,
               leases := w.leases[t := Promised(role, offset, now, if role.Exclusive? then f else 0)])
  {
  }

  lemma ReceivesAtOnce(cfg: Config, w: World, t: Token, role: Role, offset: int, fence: nat)
    requires Usable(cfg.ttl) && t in w.leases && w.leases[t] == Promised(role, offset, w.time + offset, fence)
    ensures Next(cfg, w, Act(t, Receive)) ==
            w.(leases := w.leases[t := Holder(role, offset, w.time + offset, cfg.ttl, fence)])
  {
  }

  /** Its script executes and is answered at once, with a grant. */
  lemma GrantedAtOnce(cfg: Config, worlds: seq<World>, events: seq<Event>, w: World, t: Token, role: Role, offset: int,
                      now: int, f: nat)
    returns (worlds': seq<World>, events': seq<Event>, w': World)
    requires LastIs(cfg, worlds, events, w) && Usable(cfg.ttl) && now == w.time + offset
    requires t in w.leases && w.leases[t] == Trier(role, offset, now)
    requires Script(cfg, w.redis, t, role, now).1 == Some(f)
    ensures LastIs(cfg, worlds', events', w') && w'.time == w.time && w'.redis == Script(cfg, w.redis, t, role, now).0
    ensures w'.leases == w.leases[t := Holder(role, offset, now, cfg.ttl, if role.Exclusive? then f else 0)]
  {
    var s, fence := Script(cfg, w.redis, t, role, now).0, if role.Exclusive? then f else 0;
    worlds', events' := Extend(cfg, worlds, events, w, Act(t, ExecAcquire));
    ExecutesAtOnce(cfg, w, t, role, offset, now, f);
    var promised := w.(redis := s, leases := w.leases[t := Promised(role, offset, now, fence)]);
    worlds', events' := Extend(cfg, worlds', events', promised, Act(t, Receive));
    ReceivesAtOnce(cfg, promised, t, role, offset, fence);
    w' := promised.(leases := promised.leases[t := Holder(role, offset, now, cfg.ttl, fence)]);
    assert w'.leases == w.leases[t := Holder(role, offset, now, cfg.ttl, fence)];
  }

  lemma TimePasses(cfg: Config, worlds: seq<World>, events: seq<Event>, w: World, until: int)
    returns (worlds': seq<World>, events': seq<Event>, w': World)
    requires LastIs(cfg, worlds, events, w) && w.time <= until && w.redis.now == Stamp(w.time)
    ensures LastIs(cfg, worlds', events', w') && w'.time == until && w'.leases == w.leases
    ensures w'.redis == PassTime(w.redis, w.time, until - w.time) && w'.redis.now == Stamp(until)
  {
    worlds', events' := Extend(cfg, worlds, events, w, Pass(until - w.time));
    w' := Next(cfg, w, Pass(until - w.time));
  }

  // ---------------------------------------------------------------- two holders of a key

  ghost predicate Vacant(s: Redis) { s.owner == Free && s.permits == map[] && s.queue.waiters == map[] }

  /** Nobody but `t` is queued, and nobody at all where there is no queue. */
  ghost predicate Uncontested(k: Kind, s: Redis, t: Token) {
    s.queue.waiters.Keys <= if k.ReadWrite? then {Writer(t)} else {}
  }

  lemma WriterTakes(s: Redis, t: Token, stamp: int, ttl: int, timeout: nat)
    requires s.owner == Free && s.permits == map[] && s.queue.waiters.Keys <= {Writer(t)}
    ensures var (s', r) := WriteLock(s, t, ttl, stamp, timeout);
            && r.Some? && s'.now == s.now && s'.owner == Owned(t, s.now + ttl)
            && s'.permits == map[] && s'.queue.waiters == map[]
  {
    AloneInQueue(s.queue, Writer(t), s.now, stamp, timeout);
    assert Reclaim(s.permits, stamp) == map[];
  }

  lemma KeyTaken(k: Kind, s: Redis, t: Token, stamp: int, ttl: int, timeout: nat)
    requires !k.Semaphore? && s.owner == Free && s.permits == map[] && Uncontested(k, s, t)
    ensures var (s', r) := AcquireScript(k, s, t, Exclusive, stamp, ttl, timeout);
            && r.Some? && s'.now == s.now && s'.owner == Owned(t, s.now + ttl)
            && s'.permits == map[] && s'.queue.waiters == map[]
  {
    if k.ReadWrite? { WriterTakes(s, t, stamp, ttl, timeout); }
  }

  /** `t` takes the vacant key and is answered at once. */
  lemma KeyHolder(cfg: Config, worlds: seq<World>, events: seq<Event>, w: World, t: Token)
    returns (worlds': seq<World>, events': seq<Event>, w': World, fence: nat)
    requires LastIs(cfg, worlds, events, w) && !cfg.kind.Semaphore? && Usable(cfg.ttl) && Vacant(w.redis)
    requires t !in w.leases && forall u :: u in w.leases ==> w.leases[u].offset == 0
    ensures LastIs(cfg, worlds', events', w') && w'.time == w.time
    ensures w'.leases == w.leases[t := Holder(Exclusive, 0, w.time, cfg.ttl, fence)]
    ensures w'.redis.now == w.redis.now && w'.redis.owner == Owned(t, w.redis.now + TtlMs(cfg.ttl))
    ensures w'.redis.permits == map[] && w'.redis.queue.waiters == map[]
  {
    KeyTaken(cfg.kind, w.redis, t, Stamp(w.time), TtlMs(cfg.ttl), WaiterTimeout(cfg.ttl));
    fence := Script(cfg, w.redis, t, Exclusive, w.time).1.value;
    var s := w.redis;
    worlds', events', w' := BeginsAtOnce(cfg, worlds, events, w, t, Exclusive, 0);
    worlds', events', w' := GrantedAtOnce(cfg, worlds', events', w', t, Exclusive, 0, w.time, fence);
  }

  lemma KeyLapses(s: Redis, time: int, d: nat)
    requires s.now == Stamp(time) && s.owner.Owned? && s.permits == map[] && s.queue.waiters == map[]
    requires s.owner.expireAt <= Stamp(time + d)
    ensures Vacant(PassTime(s, time, d))
  {
  }

  /** No two leases that own the key are valid together. */
  ghost predicate KeysExcludeAt(w: World) {
    forall t, u :: t != u && Valid(w, t) && Valid(w, u) ==> !(w.leases[t].role == Exclusive == w.leases[u].role)
  }

  ghost predicate KeysExclude(cfg: Config) {
    forall worlds: seq<World>, events: seq<Event>, i: nat ::
      Protocol.IsRun(cfg, worlds, events) && i < |worlds| ==> KeysExcludeAt(worlds[i])
  }

  const DAWN := World(MS - 1, Redis(Stamp(MS - 1), Free, 0, map[], Queue(map[], 0, map[], 0, 0, 0)), map[])

  /** Where truncation exceeds the reserve, two holders of a key with one clock are valid together. */
  lemma KeyExclusionNeedsMargin(cfg: Config, t: Token, u: Token)
    returns (worlds: seq<World>, events: seq<Event>, w: World)
    requires !cfg.kind.Semaphore? && Usable(cfg.ttl) && !Margin(cfg.ttl, 0) && t != u
    ensures LastIs(cfg, worlds, events, w)
    ensures Valid(w, t) && Valid(w, u) && w.leases[t].role == w.leases[u].role == Exclusive
  {
    var strike := TtlMs(cfg.ttl) * MS;
    LapsesInTime(cfg.ttl);
    var fence;
    worlds, events, w, fence := KeyHolder(cfg, [DAWN], [], DAWN, t);
    KeyLapses(w.redis, w.time, strike - w.time);
    worlds, events, w := TimePasses(cfg, worlds, events, w, strike);
    worlds, events, w, fence := KeyHolder(cfg, worlds, events, w, u);
  }

  lemma LapsesInTime(ttl: nat)
    requires Usable(ttl) && !Margin(ttl, 0)
    ensures MS - 1 <= TtlMs(ttl) * MS < RequestExpiry(MS - 1, ttl)
    ensures Stamp(MS - 1) + TtlMs(ttl) <= Stamp(TtlMs(ttl) * MS)
  {
    assert TtlMs(ttl) * MS == ttl - ttl % MS;
  }

  // ---------------------------------------------------------------- a busy attempt that executes late

  /** One more step of lease `u`, by which it becomes `k` and the server `s`. */
  lemma Steps(cfg: Config, worlds: seq<World>, events: seq<Event>, w: World, u: Token, a: Action, s: Redis, k: Lease)
    returns (worlds': seq<World>, events': seq<Event>, w': World)
    requires LastIs(cfg, worlds, events, w) && u in w.leases && CanAct(cfg, w.leases[u], a)
    requires ActStep(cfg, w.redis, u, w.leases[u], Reading(w, w.leases[u]), a) == (s, k)
    ensures LastIs(cfg, worlds', events', w') && w' == w.(redis := s, leases := w.leases[u := k])
  {
    worlds', events' := Extend(cfg, worlds, events, w, Act(u, a));
    w' := Next(cfg, w, Act(u, a));
  }

  /** The key is held by `x`, and only `u` may be queued. */
  ghost predicate HeldBy(k: Kind, s: Redis, x: Token, u: Token) {
    OwnedBy(s, x) && s.permits == map[] && Uncontested(k, s, u)
  }

  lemma KeyRefused(k: Kind, s: Redis, u: Token, x: Token, stamp: int, ttl: int, timeout: nat)
    requires !k.Semaphore? && HeldBy(k, s, x, u) && u != x
    ensures var (s', r) := AcquireScript(k, s, u, Exclusive, stamp, ttl, timeout);
            r.None? && s'.now == s.now && s'.owner == s.owner && HeldBy(k, s', x, u)
  {
    AloneInQueue(s.queue, Writer(u), s.now, stamp, timeout);
  }

  /** A lease between attempts whose first attempt was begun at `at`. */
  function Resting(role: Role, at: int): Lease { NewLease(role, 0, at).(phase := Idle(true)) }

  /** A first attempt, executed and answered at once, with a refusal. */
  lemma RefusedAtOnce(cfg: Config, worlds: seq<World>, events: seq<Event>, w: World, u: Token, role: Role, s: Redis)
    returns (worlds': seq<World>, events': seq<Event>, w': World)
    requires LastIs(cfg, worlds, events, w) && u in w.leases && w.leases[u] == Trier(role, 0, w.time)
    requires Script(cfg, w.redis, u, role, w.time) == (s, None)
    ensures LastIs(cfg, worlds', events', w') && w' == w.(redis := s, leases := w.leases[u := Resting(role, w.time)])
  {
    var told := Trier(role, 0, w.time).(phase := Trying(Busy));
    worlds', events', w' := Steps(cfg, worlds, events, w, u, ExecAcquire, s, told);
    worlds', events', w' := Steps(cfg, worlds', events', w', u, Receive, s, Resting(role, w.time));
    assert w'.leases == w.leases[u := Resting(role, w.time)];
  }

  /** `u` tries while `x` holds the key, and is told that it is busy. */
  lemma ToldBusy(cfg: Config, worlds: seq<World>, events: seq<Event>, w: World, u: Token, x: Token)
    returns (worlds': seq<World>, events': seq<Event>, w': World)
    requires LastIs(cfg, worlds, events, w) && !cfg.kind.Semaphore? && HeldBy(cfg.kind, w.redis, x, u) && u != x
    requires u !in w.leases && forall v :: v in w.leases ==> w.leases[v].offset == 0
    ensures LastIs(cfg, worlds', events', w')
    ensures w'.time == w.time && w'.leases == w.leases[u := Resting(Exclusive, w.time)]
    ensures w'.redis.now == w.redis.now && HeldBy(cfg.kind, w'.redis, x, u)
  {
    KeyRefused(cfg.kind, w.redis, u, x, Stamp(w.time), TtlMs(cfg.ttl), WaiterTimeout(cfg.ttl));
    var s := Script(cfg, w.redis, u, Exclusive, w.time).0;
    worlds', events', w' := BeginsAtOnce(cfg, worlds, events, w, u, Exclusive, 0);
    worlds', events', w' := RefusedAtOnce(cfg, worlds', events', w', u, Exclusive, s);
    assert w'.leases == w.leases[u := Resting(Exclusive, w.time)];
  }

  /** `x` gives the key back. */
  lemma GivesBack(cfg: Config, worlds: seq<World>, events: seq<Event>, w: World, x: Token, u: Token)
    returns (worlds': seq<World>, events': seq<Event>, w': World)
    requires LastIs(cfg, worlds, events, w) && HeldBy(cfg.kind, w.redis, x, u)
    requires x in w.leases && w.leases[x].role == Exclusive
    ensures LastIs(cfg, worlds', events', w') && w'.time == w.time && w'.redis == w.redis.(owner := Free)
    ensures w'.leases == w.leases[x := w.leases[x].(phase := Gone)]
  {
    var gone := w.leases[x].(phase := Gone);
    worlds', events', w' := Steps(cfg, worlds, events, w, x, Abandon, w.redis, gone);
    worlds', events', w' := Steps(cfg, worlds', events', w', x, ExecRelease, w.redis.(owner := Free), gone);
    assert w'.leases == w.leases[x := gone];
  }

  /** The busy attempt of `u` executes after all. */
  lemma ExecutesLate(cfg: Config, worlds: seq<World>, events: seq<Event>, w: World, u: Token)
    returns (worlds': seq<World>, events': seq<Event>, w': World)
    requires LastIs(cfg, worlds, events, w) && !cfg.kind.Semaphore? && !cfg.settled
    requires w.redis.owner == Free && w.redis.permits == map[] && Uncontested(cfg.kind, w.redis, u)
    requires u in w.leases && w.leases[u].phase == Idle(true) && w.leases[u].role == Exclusive
    ensures LastIs(cfg, worlds', events', w') && w'.time == w.time && w'.leases == w.leases
    ensures w'.redis.now == w.redis.now && w'.redis.owner == Owned(u, w.redis.now + TtlMs(cfg.ttl))
    ensures w'.redis.permits == map[] && w'.redis.queue.waiters == map[]
  {
    var l := w.leases[u];
    KeyTaken(cfg.kind, w.redis, u, Stamp(l.attempt), TtlMs(cfg.ttl), WaiterTimeout(cfg.ttl));
    var s := Script(cfg, w.redis, u, Exclusive, l.attempt).0;
    worlds', events', w' := Steps(cfg, worlds, events, w, u, ExecAcquire, s, l);
    assert w'.leases == w.leases;
  }

  /** A fresh attempt of `u` finds its grant already there, and is answered at once. */
  lemma Replays(cfg: Config, worlds: seq<World>, events: seq<Event>, w: World, u: Token, f: nat)
    returns (worlds': seq<World>, events': seq<Event>, w': World)
    requires LastIs(cfg, worlds, events, w) && Usable(cfg.ttl) && u in w.leases && w.leases[u].phase.Idle?
    requires w.leases[u].offset == 0 && Script(cfg, w.redis, u, w.leases[u].role, w.time) == (w.redis, Some(f))
    ensures LastIs(cfg, worlds', events', w') && w'.time == w.time && w'.redis == w.redis
    ensures w'.leases.Keys == w.leases.Keys
    ensures forall v :: v in w'.leases && v != u ==> w'.leases[v] == w.leases[v]
    ensures w'.leases[u].phase == Held && w'.leases[u].role == w.leases[u].role && w'.leases[u].offset == 0
    ensures w'.leases[u].expiresAt == RequestExpiry(w.time, cfg.ttl)
  {
    var begun := w.leases[u].(phase := Trying(Pending), attempt := w.time, base := w.time);
    var fence := if begun.role.Exclusive? then f else 0;
    worlds', events', w' := Steps(cfg, worlds, events, w, u, Begin, w.redis, begun);
    var told := begun.(phase := Trying(Granted(fence)));
    worlds', events', w' := Steps(cfg, worlds', events', w', u, ExecAcquire, w.redis, told);
    var held := OnAcquired(told, fence, cfg.ttl, w.time);
    worlds', events', w' := Steps(cfg, worlds', events', w', u, Receive, w.redis, held);
  }

  lemma ReplayOutlivesKey(ttl: nat)
    requires ttl >= 2 * MS
    ensures var last := TtlMs(ttl) * MS - 1;
            && MS - 1 <= last && last + 1 < RequestExpiry(last, ttl)
            && Stamp(last) < TtlMs(ttl) == Stamp(last + 1)
  {
    StampBounds(TtlMs(ttl) * MS - 1);
    assert TtlMs(ttl) * MS == ttl - ttl % MS;
  }

  /** Without settled attempts, a busy one that executes late sets a key that the next attempt replays under a deadline
      of its own: the key lapses first, and another holder comes in. */
  lemma KeyExclusionNeedsSettled(cfg: Config, t: Token, u: Token, x: Token)
    returns (worlds: seq<World>, events: seq<Event>, w: World)
    requires !cfg.kind.Semaphore? && cfg.ttl >= 2 * MS && !cfg.settled && t != u && x != t && x != u
    ensures LastIs(cfg, worlds, events, w)
    ensures Valid(w, t) && Valid(w, u) && w.leases[t].role == w.leases[u].role == Exclusive
  {
    var last := TtlMs(cfg.ttl) * MS - 1;
    ReplayOutlivesKey(cfg.ttl);
    var fence;
    worlds, events, w, fence := KeyHolder(cfg, [DAWN], [], DAWN, x);
    worlds, events, w := ToldBusy(cfg, worlds, events, w, u, x);
    worlds, events, w := GivesBack(cfg, worlds, events, w, x, u);
    worlds, events, w := ExecutesLate(cfg, worlds, events, w, u);
    KeyLasts(w.redis, w.time, last - w.time);
    worlds, events, w := TimePasses(cfg, worlds, events, w, last);
    worlds, events, w := Replays(cfg, worlds, events, w, u, Script(cfg, w.redis, u, Exclusive, last).1.value);
    KeyLapses(w.redis, w.time, 1);
    worlds, events, w := TimePasses(cfg, worlds, events, w, last + 1);
    worlds, events, w, fence := KeyHolder(cfg, worlds, events, w, t);
  }

  lemma KeyLasts(s: Redis, time: int, d: nat)
    requires s.now == Stamp(time) && s.owner.Owned? && s.permits == map[] && s.queue.waiters == map[]
    requires Stamp(time + d) < s.owner.expireAt
    ensures var s' := PassTime(s, time, d);
            s'.owner == s.owner && s'.permits == map[] && s'.queue.waiters == map[]
  {
  }

  /** Holders of a mutex, and writers, exclude each other in every run if and only if busy attempts are settled and the
      reserve absorbs truncation, however far client clocks are apart. */
  lemma KeyExclusionExactlyWithinMargin(cfg: Config)
    requires !cfg.kind.Semaphore? && Usable(cfg.ttl) && (cfg.settled || cfg.ttl >= 2 * MS)
    ensures KeysExclude(cfg) <==> Margin(cfg.ttl, 0) && cfg.settled
  {
    if Margin(cfg.ttl, 0) && cfg.settled {
      forall worlds: seq<World>, events: seq<Event>, i: nat | Protocol.IsRun(cfg, worlds, events) && i < |worlds|
        ensures KeysExcludeAt(worlds[i])
      {
        forall t, u | t != u && Valid(worlds[i], t) && worlds[i].leases[t].role == Exclusive
          ensures !(Valid(worlds[i], u) && worlds[i].leases[u].role == Exclusive)
        {
          if u in worlds[i].leases && worlds[i].leases[u].role == Exclusive {
            MutualExclusion(cfg, worlds, events, i, t, u);
          }
        }
      }
    } else {
      var worlds, events, w := KeysBreak(cfg);
      assert !KeysExcludeAt(worlds[|worlds| - 1]);
    }
  }

  lemma KeysBreak(cfg: Config) returns (worlds: seq<World>, events: seq<Event>, w: World)
    requires !cfg.kind.Semaphore? && Usable(cfg.ttl) && !(Margin(cfg.ttl, 0) && cfg.settled)
    requires cfg.settled || cfg.ttl >= 2 * MS
    ensures LastIs(cfg, worlds, events, w)
    ensures Valid(w, "a") && Valid(w, "b") && w.leases["a"].role == w.leases["b"].role == Exclusive
  {
    if Margin(cfg.ttl, 0) {
      worlds, events, w := KeyExclusionNeedsSettled(cfg, "a", "b", "x");
    } else {
      worlds, events, w := KeyExclusionNeedsMargin(cfg, "a", "b");
    }
  }

  // ---------------------------------------------------------------- a shared holder and its rival

  /** The largest grant of a shared lease: one read lock, or all permits of the semaphore. */
  function Share(k: Kind): nat
    requires !k.Mutex?
  {
    if k.ReadWrite? then 1 else k.capacity
  }

  /** Who must not be valid together with such a grant. */
  function Rival(k: Kind): Role
    requires !k.Mutex?
  {
    if k.ReadWrite? then Exclusive else Shared(k.capacity)
  }

  ghost predicate Contested(cfg: Config) { !cfg.kind.Mutex? && Share(cfg.kind) >= 1 && Usable(cfg.ttl) }

  ghost predicate Stored(k: Kind, s: Redis, r: Token, score: int)
    requires !k.Mutex?
  {
    s.owner == Free && s.queue.waiters == map[] && s.permits == Grant(map[], r, Share(k), score)
  }

  lemma ReaderGranted(s: Redis, r: Token, stamp: int, ttl: int, timeout: nat)
    requires Vacant(s)
    ensures var (s', f) := ReadLock(s, r, ttl, stamp, timeout);
            f.Some? && s'.now == s.now && Stored(ReadWrite, s', r, stamp + ttl)
  {
    AloneInQueue(s.queue, Reader(r), s.now, stamp, timeout);
    assert !ReadHeld(s, r, stamp) by { assert Permit(r, 0) !in s.permits; }
  }

  lemma PermitsGranted(s: Redis, r: Token, n: nat, stamp: int, ttl: int)
    requires Vacant(s) && n >= 1
    ensures var (s', f) := SemAcquire(s, stamp, ttl, n, r, n);
            f.Some? && s'.now == s.now && Stored(Semaphore(n), s', r, stamp + ttl)
  {
    assert !OwnsAll(s.permits, r, n, stamp) by { assert Permit(r, 0) !in s.permits; }
    assert Reclaim(s.permits, stamp) == map[];
  }

  lemma ShareGranted(k: Kind, s: Redis, r: Token, stamp: int, ttl: int, timeout: nat)
    requires !k.Mutex? && Share(k) >= 1 && Vacant(s)
    ensures var (s', f) := AcquireScript(k, s, r, Shared(Share(k)), stamp, ttl, timeout);
            f.Some? && s'.now == s.now && Stored(k, s', r, stamp + ttl)
  {
    if k.ReadWrite? { ReaderGranted(s, r, stamp, ttl, timeout); } else { PermitsGranted(s, r, k.capacity, stamp, ttl); }
  }

  lemma RivalGranted(k: Kind, s: Redis, r: Token, v: Token, score: int, stamp: int, ttl: int, timeout: nat)
    requires !k.Mutex? && Share(k) >= 1 && r != v && Stored(k, s, r, score) && score <= stamp
    ensures AcquireScript(k, s, v, Rival(k), stamp, ttl, timeout).1.Some?
  {
    GrantAdds(map[], r, Share(k), score);
    AloneInQueue(s.queue, Writer(v), s.now, stamp, timeout);
    assert Reclaim(s.permits, stamp) == map[];
    assert k.Semaphore? ==> !OwnsAll(s.permits, v, k.capacity, stamp) by { assert Permit(v, 0) !in s.permits; }
  }

  /** `r` is valid until `deadline` and its members carry `score`; nobody else is in the store, and all clocks are
      exact. */
  ghost predicate Holds(cfg: Config, w: World, r: Token, score: int, deadline: int)
    requires !cfg.kind.Mutex?
  {
    && w.redis.now == Stamp(w.time) && Stored(cfg.kind, w.redis, r, score)
    && (forall u :: u in w.leases ==> w.leases[u].offset == 0)
    && r in w.leases && w.leases[r].role == Shared(Share(cfg.kind))
    && w.leases[r].phase == Held && w.leases[r].expiresAt == deadline
  }

  lemma ShareHolder(cfg: Config, r: Token) returns (worlds: seq<World>, events: seq<Event>, w: World)
    requires Contested(cfg)
    ensures LastIs(cfg, worlds, events, w) && w.time == MS - 1
    ensures Holds(cfg, w, r, TtlMs(cfg.ttl), RequestExpiry(MS - 1, cfg.ttl))
    ensures w.leases == map[r := Holder(Shared(Share(cfg.kind)), 0, MS - 1, cfg.ttl, 0)]
  {
    var role := Shared(Share(cfg.kind));
    ShareGranted(cfg.kind, DAWN.redis, r, Stamp(MS - 1), TtlMs(cfg.ttl), WaiterTimeout(cfg.ttl));
    var f := Script(cfg, DAWN.redis, r, role, MS - 1).1.value;
    worlds, events, w := BeginsAtOnce(cfg, [DAWN], [], DAWN, r, role, 0);
    worlds, events, w := GrantedAtOnce(cfg, worlds, events, w, r, role, 0, MS - 1, f);
  }

  lemma HoldsOn(cfg: Config, w: World, w': World, r: Token, score: int, deadline: int)
    requires !cfg.kind.Mutex? && Holds(cfg, w, r, score, deadline) && w.time <= w'.time && w'.leases == w.leases
    requires w'.redis == PassTime(w.redis, w.time, w'.time - w.time)
    ensures Holds(cfg, w', r, score, deadline)
  {
    StampMonotone(w.time, w'.time);
  }

  /** A rival whose clock is ahead by the whole skew reclaims the score while its holder is valid. */
  lemma RivalStrikes(cfg: Config, worlds: seq<World>, events: seq<Event>, w: World, r: Token, v: Token, score: int,
                     deadline: int)
    returns (worlds': seq<World>, events': seq<Event>, w': World)
    requires Contested(cfg) && LastIs(cfg, worlds, events, w) && v !in w.leases && Holds(cfg, w, r, score, deadline)
    requires w.time < deadline && score <= Stamp(w.time + cfg.skew)
    ensures LastIs(cfg, worlds', events', w') && Together(cfg, w', r, v)
  {
    var now := w.time + cfg.skew;
    RivalGranted(cfg.kind, w.redis, r, v, score, Stamp(now), TtlMs(cfg.ttl), WaiterTimeout(cfg.ttl));
    worlds', events', w' := BeginsAtOnce(cfg, worlds, events, w, v, Rival(cfg.kind), cfg.skew);
    var f := Script(cfg, w.redis, v, Rival(cfg.kind), now).1.value;
    worlds', events', w' := GrantedAtOnce(cfg, worlds', events', w', v, Rival(cfg.kind), cfg.skew, now, f);
  }

  /** A full share and its rival, both valid. */
  ghost predicate Together(cfg: Config, w: World, r: Token, v: Token)
    requires !cfg.kind.Mutex?
  {
    && Valid(w, r) && Valid(w, v) && r != v
    && w.leases[r].role == Shared(Share(cfg.kind)) && w.leases[v].role == Rival(cfg.kind)
  }

  /** When the rival strikes: as early as its clock shows the score as past. */
  function Strike(cfg: Config, from: int): int {
    var t := TtlMs(cfg.ttl) * MS - cfg.skew;
    if t < from then from else t
  }

  lemma StrikeReclaims(cfg: Config, from: int)
    ensures TtlMs(cfg.ttl) <= Stamp(Strike(cfg, from) + cfg.skew)
  {
    StampMonotone(TtlMs(cfg.ttl) * MS, Strike(cfg, from) + cfg.skew);
  }

  lemma WaitAndStrike(cfg: Config, worlds: seq<World>, events: seq<Event>, w: World, r: Token, v: Token, deadline: int)
    returns (worlds': seq<World>, events': seq<Event>, w': World)
    requires Contested(cfg) && LastIs(cfg, worlds, events, w)
    requires v !in w.leases && Holds(cfg, w, r, TtlMs(cfg.ttl), deadline)
    requires Strike(cfg, w.time) < deadline
    ensures LastIs(cfg, worlds', events', w') && Together(cfg, w', r, v)
  {
    worlds', events', w' := TimePasses(cfg, worlds, events, w, Strike(cfg, w.time));
    HoldsOn(cfg, w, w', r, TtlMs(cfg.ttl), deadline);
    StrikeReclaims(cfg, w.time);
    worlds', events', w' := RivalStrikes(cfg, worlds', events', w', r, v, TtlMs(cfg.ttl), deadline);
  }

  /** Outside the margin any share `r` and rival `v` can be valid together. */
  lemma SharingNeedsMargin(cfg: Config, r: Token, v: Token) returns (worlds: seq<World>, events: seq<Event>, w: World)
    requires Contested(cfg) && !Margin(cfg.ttl, cfg.skew) && r != v
    ensures LastIs(cfg, worlds, events, w) && Together(cfg, w, r, v)
  {
    worlds, events, w := ShareHolder(cfg, r);
    StrikesInTime(cfg);
    worlds, events, w := WaitAndStrike(cfg, worlds, events, w, r, v, RequestExpiry(MS - 1, cfg.ttl));
  }

  lemma StrikesInTime(cfg: Config)
    requires Usable(cfg.ttl) && !Margin(cfg.ttl, cfg.skew)
    ensures Strike(cfg, MS - 1) < RequestExpiry(MS - 1, cfg.ttl)
  {
    assert TtlMs(cfg.ttl) * MS == cfg.ttl - cfg.ttl % MS;
  }

  // ---------------------------------------------------------------- renewals out of order

  lemma Renews(cfg: Config, worlds: seq<World>, events: seq<Event>, w: World, r: Token, score: int,
               deadline: int, start: int)
    returns (worlds': seq<World>, events': seq<Event>, w': World)
    requires !cfg.kind.Mutex? && Share(cfg.kind) >= 1
    requires LastIs(cfg, worlds, events, w) && Holds(cfg, w, r, score, deadline)
    requires start in w.leases[r].sent && !cfg.ordered && Stamp(start) < score
    ensures LastIs(cfg, worlds', events', w') && w'.time == w.time
    ensures Holds(cfg, w', r, Stamp(start) + TtlMs(cfg.ttl), deadline)
    ensures w'.leases[r].sent == w.leases[r].sent && start in w'.leases[r].confirmed && w'.leases.Keys == w.leases.Keys
  {
    var n := Share(cfg.kind);
    GrantAdds(map[], r, n, score);
    assert OwnsAll(w.redis.permits, r, n, Stamp(start));
    Regrants(r, n, score, Stamp(start) + TtlMs(cfg.ttl));
    worlds', events' := Extend(cfg, worlds, events, w, Act(r, ExecRenew(start)));
    w' := Next(cfg, w, Act(r, ExecRenew(start)));
  }

  lemma Regrants(r: Token, n: nat, score: int, score': int)
    ensures Grant(Grant(map[], r, n, score), r, n, score') == Grant(map[], r, n, score')
  {
    GrantAdds(map[], r, n, score);
    GrantAdds(map[], r, n, score');
    GrantAdds(Grant(map[], r, n, score), r, n, score');
  }

  lemma Sends(cfg: Config, worlds: seq<World>, events: seq<Event>, w: World, r: Token, score: int, deadline: int)
    returns (worlds': seq<World>, events': seq<Event>, w': World)
    requires !cfg.kind.Mutex? && LastIs(cfg, worlds, events, w) && Holds(cfg, w, r, score, deadline)
    ensures LastIs(cfg, worlds', events', w') && w'.time == w.time && Holds(cfg, w', r, score, deadline)
    ensures w'.leases[r].sent == w.leases[r].sent + {w.time} && w'.leases.Keys == w.leases.Keys
  {
    worlds', events' := Extend(cfg, worlds, events, w, Act(r, SendRenew));
    w' := Next(cfg, w, Act(r, SendRenew));
  }

  lemma Learns(cfg: Config, worlds: seq<World>, events: seq<Event>, w: World, r: Token, score: int, deadline: int)
    returns (worlds': seq<World>, events': seq<Event>, w': World)
    requires !cfg.kind.Mutex? && LastIs(cfg, worlds, events, w) && Holds(cfg, w, r, score, deadline)
    requires w.time in w.leases[r].confirmed && w.time < deadline <= RequestExpiry(w.time, cfg.ttl)
    ensures LastIs(cfg, worlds', events', w') && w'.time == w.time
    ensures Holds(cfg, w', r, score, RequestExpiry(w.time, cfg.ttl))
    ensures w'.leases[r].sent == w.leases[r].sent && w'.leases.Keys == w.leases.Keys
  {
    worlds', events' := Extend(cfg, worlds, events, w, Act(r, ReceiveRenew(w.time)));
    w' := Next(cfg, w, Act(r, ReceiveRenew(w.time)));
  }

  /** The latest moment at which a renewal of a lease taken at `MS - 1` can begin. */
  function LastCall(ttl: nat): int { RequestExpiry(MS - 1, ttl) - 1 }

  lemma LastCallInTime(cfg: Config)
    requires cfg.ttl >= 2 * MS && Margin(cfg.ttl, cfg.skew)
    ensures var late := LastCall(cfg.ttl);
            && MS - 1 <= late && Stamp(late) < TtlMs(cfg.ttl)
            && RequestExpiry(MS - 1, cfg.ttl) <= RequestExpiry(late, cfg.ttl)
            && Strike(cfg, late) < RequestExpiry(late, cfg.ttl)
  {
    DeadlineWithinMargin(MS - 1, cfg.ttl, cfg.skew);
    StampBounds(LastCall(cfg.ttl));
    assert TtlMs(cfg.ttl) * MS == cfg.ttl - cfg.ttl % MS;
  }

  /** Renewals out of order: an early one that executes last pulls the score back under the deadline already confirmed,
      and the rival comes in. */
  lemma SharingNeedsOrder(cfg: Config, r: Token, v: Token) returns (worlds: seq<World>, events: seq<Event>, w: World)
    requires Contested(cfg) && cfg.ttl >= 2 * MS && Margin(cfg.ttl, cfg.skew) && !cfg.ordered && r != v
    ensures LastIs(cfg, worlds, events, w) && Together(cfg, w, r, v)
  {
    var late, first := LastCall(cfg.ttl), RequestExpiry(MS - 1, cfg.ttl);
    var score, deadline := Stamp(late) + TtlMs(cfg.ttl), RequestExpiry(late, cfg.ttl);
    LastCallInTime(cfg);
    worlds, events, w := ShareHolder(cfg, r);
    worlds, events, w := Sends(cfg, worlds, events, w, r, TtlMs(cfg.ttl), first);
    var w0 := w;
    worlds, events, w := TimePasses(cfg, worlds, events, w, late);
    HoldsOn(cfg, w0, w, r, TtlMs(cfg.ttl), first);
    worlds, events, w := Sends(cfg, worlds, events, w, r, TtlMs(cfg.ttl), first);
    worlds, events, w := Renews(cfg, worlds, events, w, r, TtlMs(cfg.ttl), first, late);
    worlds, events, w := Learns(cfg, worlds, events, w, r, score, first);
    worlds, events, w := Renews(cfg, worlds, events, w, r, score, deadline, MS - 1);
    worlds, events, w := WaitAndStrike(cfg, worlds, events, w, r, v, deadline);
  }

  // ---------------------------------------------------------------- a busy permit request that executes late

  lemma AllTaken(k: Kind, s: Redis, x: Token, u: Token, score: int, stamp: int, ttl: int, timeout: nat)
    requires k.Semaphore? && k.capacity >= 1 && x != u && Stored(k, s, x, score) && stamp < score
    ensures AcquireScript(k, s, u, Shared(k.capacity), stamp, ttl, timeout) == (s, None)
  {
    GrantAdds(map[], x, k.capacity, score);
    assert Reclaim(s.permits, stamp) == s.permits;
    assert !OwnsAll(s.permits, u, k.capacity, stamp) by { assert Permit(u, 0) !in s.permits; }
    MembersCount(x, k.capacity);
    assert s.permits.Keys == Members(x, k.capacity);
    assert |s.permits| == |s.permits.Keys|;
  }

  lemma StillTaken(k: Kind, s: Redis, u: Token, score: int, stamp: int, ttl: int, timeout: nat)
    requires k.Semaphore? && k.capacity >= 1 && Stored(k, s, u, score) && stamp < score
    ensures AcquireScript(k, s, u, Shared(k.capacity), stamp, ttl, timeout) == (s, Some(|s.permits|))
  {
    GrantAdds(map[], u, k.capacity, score);
    assert Reclaim(s.permits, stamp) == s.permits;
  }

  lemma PermitsReturned(k: Kind, s: Redis, x: Token, score: int)
    requires k.Semaphore? && Stored(k, s, x, score)
    ensures Vacant(ReleaseScript(s, x, Shared(k.capacity))) && ReleaseScript(s, x, Shared(k.capacity)).now == s.now
  {
    GrantAdds(map[], x, k.capacity, score);
    DropRemoves(s.permits, x, k.capacity);
    assert Drop(s.permits, x, k.capacity).Keys == {};
  }

  /** `x` holds all permits, and `u` is told busy. */
  lemma PermitsBusy(cfg: Config, u: Token, x: Token) returns (worlds: seq<World>, events: seq<Event>, w: World)
    requires Contested(cfg) && cfg.kind.Semaphore? && u != x && TtlMs(cfg.ttl) > 0
    ensures LastIs(cfg, worlds, events, w) && w.time == MS - 1 && w.redis.now == Stamp(w.time)
    ensures Stored(cfg.kind, w.redis, x, TtlMs(cfg.ttl)) && w.leases.Keys == {u, x}
    ensures w.leases[x] == Holder(Shared(cfg.kind.capacity), 0, MS - 1, cfg.ttl, 0)
    ensures w.leases[u] == Resting(Shared(cfg.kind.capacity), MS - 1)
  {
    var role := Shared(cfg.kind.capacity);
    worlds, events, w := ShareHolder(cfg, x);
    var full := w.redis;
    AllTaken(cfg.kind, full, x, u, TtlMs(cfg.ttl), Stamp(MS - 1), TtlMs(cfg.ttl), WaiterTimeout(cfg.ttl));
    worlds, events, w := BeginsAtOnce(cfg, worlds, events, w, u, role, 0);
    worlds, events, w := RefusedAtOnce(cfg, worlds, events, w, u, role, full);
  }

  /** `x` returns its permits. */
  lemma PermitsFree(cfg: Config, worlds: seq<World>, events: seq<Event>, w: World, x: Token)
    returns (worlds': seq<World>, events': seq<Event>, w': World)
    requires LastIs(cfg, worlds, events, w) && cfg.kind.Semaphore? && Stored(cfg.kind, w.redis, x, TtlMs(cfg.ttl))
    requires x in w.leases && w.leases[x].role == Shared(cfg.kind.capacity)
    ensures LastIs(cfg, worlds', events', w') && w'.time == w.time && w'.redis.now == w.redis.now && Vacant(w'.redis)
    ensures w'.leases == w.leases[x := w.leases[x].(phase := Gone)]
  {
    var gone := w.leases[x].(phase := Gone);
    PermitsReturned(cfg.kind, w.redis, x, TtlMs(cfg.ttl));
    var free := ReleaseScript(w.redis, x, Shared(cfg.kind.capacity));
    worlds', events', w' := Steps(cfg, worlds, events, w, x, Abandon, w.redis, gone);
    worlds', events', w' := Steps(cfg, worlds', events', w', x, ExecRelease, free, gone);
    assert w'.leases == w.leases[x := gone];
  }

  /** Then the attempt of `u` executes after all. */
  lemma GrantedLate(cfg: Config, u: Token, x: Token) returns (worlds: seq<World>, events: seq<Event>, w: World)
    requires Contested(cfg) && cfg.kind.Semaphore? && !cfg.settled && u != x && TtlMs(cfg.ttl) > 0
    ensures LastIs(cfg, worlds, events, w) && w.time == MS - 1 && w.redis.now == Stamp(w.time)
    ensures Stored(cfg.kind, w.redis, u, TtlMs(cfg.ttl)) && w.leases.Keys == {u, x} && w.leases[x].offset == 0
    ensures w.leases[u] == Resting(Shared(cfg.kind.capacity), MS - 1)
  {
    worlds, events, w := PermitsBusy(cfg, u, x);
    worlds, events, w := PermitsFree(cfg, worlds, events, w, x);
    var s := Script(cfg, w.redis, u, Shared(cfg.kind.capacity), MS - 1).0;
    ShareGranted(cfg.kind, w.redis, u, Stamp(MS - 1), TtlMs(cfg.ttl), WaiterTimeout(cfg.ttl));
    worlds, events, w := Steps(cfg, worlds, events, w, u, ExecAcquire, s, w.leases[u]);
  }

  /** Without settled attempts the same happens to permits. */
  lemma CapacityNeedsSettled(cfg: Config, u: Token, v: Token, x: Token)
    returns (worlds: seq<World>, events: seq<Event>, w: World)
    requires Contested(cfg) && cfg.kind.Semaphore? && cfg.ttl >= 2 * MS && !cfg.settled
    requires u != v && x != u && x != v
    ensures LastIs(cfg, worlds, events, w) && Together(cfg, w, u, v)
  {
    var last := TtlMs(cfg.ttl) * MS - 1;
    ReplayOutlivesKey(cfg.ttl);
    worlds, events, w := GrantedLate(cfg, u, x);
    worlds, events, w := TimePasses(cfg, worlds, events, w, last);
    StillTaken(cfg.kind, w.redis, u, TtlMs(cfg.ttl), Stamp(last), TtlMs(cfg.ttl), WaiterTimeout(cfg.ttl));
    worlds, events, w := Replays(cfg, worlds, events, w, u, |w.redis.permits|);
    worlds, events, w := WaitAndStrike(cfg, worlds, events, w, u, v, RequestExpiry(last, cfg.ttl));
  }

  // ---------------------------------------------------------------- the exact conditions

  lemma BreaksTogether(cfg: Config, r: Token, v: Token) returns (worlds: seq<World>, events: seq<Event>, w: World)
    requires Contested(cfg) && r != v && !Steadfast(cfg)
    ensures LastIs(cfg, worlds, events, w) && Together(cfg, w, r, v)
  {
    if Margin(cfg.ttl, cfg.skew) {
      worlds, events, w := SharingNeedsOrder(cfg, r, v);
    } else {
      worlds, events, w := SharingNeedsMargin(cfg, r, v);
    }
  }

  /** Of the ttls under 2 ms exactly one is usable within the margin, and only on equal clocks. */
  lemma ShortTtls(ttl: nat, skew: nat)
    requires ttl < 2 * MS
    ensures Usable(ttl) && Margin(ttl, skew) <==> ttl == 1_010_102 && skew == 0
  {
  }

  /** In no reachable world is a valid writer accompanied by another valid lease. */
  ghost predicate ExcludesAt(w: World) {
    forall t, u :: t != u && Valid(w, t) && w.leases[t].role == Exclusive ==> !Valid(w, u)
  }

  ghost predicate Excludes(cfg: Config) {
    forall worlds: seq<World>, events: seq<Event>, i: nat ::
      Protocol.IsRun(cfg, worlds, events) && i < |worlds| ==> ExcludesAt(worlds[i])
  }

  /** The read-write lock excludes in every run if and only if the margin holds and renewals execute in an orderly way,
      unless leases are too brief for that to matter. */
  lemma ExclusionExactlyWithinMargin(cfg: Config)
    requires cfg.kind == ReadWrite && Usable(cfg.ttl) && (cfg.settled || cfg.ttl >= 2 * MS)
    ensures Excludes(cfg) <==> Margin(cfg.ttl, cfg.skew) && (cfg.ordered || cfg.ttl < 2 * MS) && cfg.settled
  {
    if Steadfast(cfg) && cfg.settled {
      forall worlds: seq<World>, events: seq<Event>, i: nat | Protocol.IsRun(cfg, worlds, events) && i < |worlds|
        ensures ExcludesAt(worlds[i])
      {
        forall t, u | t != u && Valid(worlds[i], t) && worlds[i].leases[t].role == Exclusive
          ensures !Valid(worlds[i], u)
        {
          MutualExclusion(cfg, worlds, events, i, t, u);
        }
      }
    } else if Steadfast(cfg) {
      var worlds, events, w := KeyExclusionNeedsSettled(cfg, "a", "b", "x");
      assert !ExcludesAt(worlds[|worlds| - 1]);
    } else {
      var worlds, events, w := BreaksTogether(cfg, "r", "w");
      assert !ExcludesAt(worlds[|worlds| - 1]);
    }
  }

  /** The permits of valid holders never exceed the capacity. */
  ghost predicate RespectsAt(w: World, capacity: nat) {
    forall ts: seq<Token> :: Distinct(ts) && (forall j :: 0 <= j < |ts| ==> Valid(w, ts[j])) ==>
      Sharing(w, ts) && Load(w, ts) <= capacity
  }

  ghost predicate Respects(cfg: Config)
    requires cfg.kind.Semaphore?
  {
    forall worlds: seq<World>, events: seq<Event>, i: nat ::
      Protocol.IsRun(cfg, worlds, events) && i < |worlds| ==> RespectsAt(worlds[i], cfg.kind.capacity)
  }

  lemma TooMany(cfg: Config, w: World, r: Token, v: Token)
    requires cfg.kind.Semaphore? && cfg.kind.capacity >= 1 && Together(cfg, w, r, v)
    ensures !RespectsAt(w, cfg.kind.capacity)
  {
    var ts := [r, v];
    assert Distinct(ts) && forall j :: 0 <= j < |ts| ==> Valid(w, ts[j]);
    if Sharing(w, ts) {
      assert ts[1..] == [v] && [v][1..] == [];
      assert Load(w, [v]) == cfg.kind.capacity;
      assert Load(w, ts) == 2 * cfg.kind.capacity;
    }
  }

  /** A semaphore respects its capacity in every run if and only if the same two conditions hold. */
  lemma CapacityExactlyWithinMargin(cfg: Config)
    requires cfg.kind.Semaphore? && cfg.kind.capacity >= 1 && Usable(cfg.ttl) && (cfg.settled || cfg.ttl >= 2 * MS)
    ensures Respects(cfg) <==> Margin(cfg.ttl, cfg.skew) && (cfg.ordered || cfg.ttl < 2 * MS) && cfg.settled
  {
    if Steadfast(cfg) && cfg.settled {
      forall worlds: seq<World>, events: seq<Event>, i: nat | Protocol.IsRun(cfg, worlds, events) && i < |worlds|
        ensures RespectsAt(worlds[i], cfg.kind.capacity)
      {
        forall ts: seq<Token> | Distinct(ts) && forall j :: 0 <= j < |ts| ==> Valid(worlds[i], ts[j])
          ensures Sharing(worlds[i], ts) && Load(worlds[i], ts) <= cfg.kind.capacity
        {
          CapacityRespected(cfg, worlds, events, i, ts);
        }
      }
    } else if Steadfast(cfg) {
      var worlds, events, w := CapacityNeedsSettled(cfg, "r", "w", "x");
      TooMany(cfg, w, "r", "w");
      assert !RespectsAt(worlds[|worlds| - 1], cfg.kind.capacity);
    } else {
      var worlds, events, w := BreaksTogether(cfg, "r", "w");
      TooMany(cfg, w, "r", "w");
      assert !RespectsAt(worlds[|worlds| - 1], cfg.kind.capacity);
    }
  }
}
