/** What the scripts answer: exactly when a request is granted, renewed or released, what is then stored, and that an
    undisturbed client gets what is there to be had. */
module Answers {
  import opened Store
  import opened Clock
  import opened Protocol
  import opened Safety
  import A = ArrivalQueue
  import F = Fairness

  // ---------------------------------------------------------------- permits

  /** How many members are unexpired at `stamp`. */
  function LiveCount(permits: map<Permit, int>, stamp: int): nat {
    |set p | p in permits && permits[p] > stamp|
  }

  /** All `n` members of `id` are there and unexpired: the grant of an earlier execution. */
  ghost predicate Live(permits: map<Permit, int>, id: Token, n: nat, stamp: int) {
    forall i :: 0 <= i < n ==> Permit(id, i) in permits && permits[Permit(id, i)] > stamp
  }

  lemma LiveIsReclaimed(permits: map<Permit, int>, stamp: int)
    ensures |Reclaim(permits, stamp)| == LiveCount(permits, stamp)
  {
    assert Reclaim(permits, stamp).Keys == set p | p in permits && permits[p] > stamp;
    assert |Reclaim(permits, stamp)| == |Reclaim(permits, stamp).Keys|;
  }

  /** Permits are refused if and only if the request is not a live replay and the unexpired members leave no room. */
  lemma PermitsRefusedExactlyWhen(s: Redis, stamp: int, ttl: int, capacity: int, id: Token, n: nat)
    ensures SemAcquire(s, stamp, ttl, capacity, id, n).1.None? <==>
            !Live(s.permits, id, n, stamp) && LiveCount(s.permits, stamp) + n > capacity
  {
    LiveIsReclaimed(s.permits, stamp);
  }

  /** Whatever the answer, exactly the expired members go; a grant that is not a replay adds its own, all expiring `ttl`
      after the stamp; and nothing else changes. */
  lemma PermitsStored(s: Redis, stamp: int, ttl: int, capacity: int, id: Token, n: nat, p: Permit)
    ensures var (s', r) := SemAcquire(s, stamp, ttl, capacity, id, n);
            var mine := r.Some? && !Live(s.permits, id, n, stamp) && p.id == id && p.index < n;
            && (p in s'.permits <==> mine || (p in s.permits && s.permits[p] > stamp))
            && (p in s'.permits ==> s'.permits[p] == if mine then stamp + ttl else s.permits[p])
            && s' == s.(permits := s'.permits)
  {
    GrantAdds(Reclaim(s.permits, stamp), id, n, stamp + ttl);
  }

  /** The reply counts what is then unexpired. */
  lemma PermitsCounted(s: Redis, stamp: int, ttl: int, capacity: int, id: Token, n: nat)
    requires SemAcquire(s, stamp, ttl, capacity, id, n).1.Some?
    ensures SemAcquire(s, stamp, ttl, capacity, id, n).1.value ==
            LiveCount(s.permits, stamp) + if Live(s.permits, id, n, stamp) then 0 else n
  {
    LiveIsReclaimed(s.permits, stamp);
  }

  /** To a fresh id it is the size of the new set. */
  lemma FreshGrantCounted(s: Redis, stamp: int, ttl: int, capacity: int, id: Token, n: nat)
    requires n >= 1 && SemAcquire(s, stamp, ttl, capacity, id, n).1.Some? && forall p :: p in s.permits ==> p.id != id
    ensures var (s', r) := SemAcquire(s, stamp, ttl, capacity, id, n);
            r.value == |s'.permits| == LiveCount(s.permits, stamp) + n
  {
    var live := Reclaim(s.permits, stamp);
    assert !Live(s.permits, id, n, stamp) by { assert Permit(id, 0) !in s.permits; }
    PermitsCounted(s, stamp, ttl, capacity, id, n);
    LiveIsReclaimed(s.permits, stamp);
    assert |SemAcquire(s, stamp, ttl, capacity, id, n).0.permits| == |live| + n by {
      GrantSize(live, id, n, stamp + ttl);
    }
  }

  // ---------------------------------------------------------------- keys

  /** A key is granted if and only if it is free or the caller's already. Taking it sets its expiry and mints a token if
      tokens are asked for; anything else leaves everything as it was. */
  lemma KeyAcquireAnswer(s: Redis, token: Token, ttl: int, fencing: bool)
    ensures var (s', r) := SingleAcquire(s, token, ttl, fencing);
            && (r.Some? <==> s.owner.Free? || s.owner.token == token)
            && (s.owner.Free? ==> s'.owner == Owned(token, s.now + ttl))
            && (s.owner.Free? && fencing ==> s'.fencing == s.fencing + 1)
            && (s.owner.Owned? || !fencing ==> s'.fencing == s.fencing)
            && (s.owner.Owned? ==> s' == s) && s' == s.(owner := s'.owner, fencing := s'.fencing)
            && (r.Some? ==> r.value == if fencing then s'.fencing else 0)
  {
  }

  /** A key is renewed if and only if the caller owns it; then it expires `ttl` from now, and nothing else changes. */
  lemma KeyRenewAnswer(s: Redis, token: Token, ttl: int)
    ensures var (s', ok) := SingleRenew(s, token, ttl);
            && (ok <==> OwnedBy(s, token))
            && (ok ==> s' == s.(owner := Owned(token, s.now + ttl))) && (!ok ==> s' == s)
  {
  }

  /** A key is released if and only if the caller owns it. */
  lemma KeyReleaseAnswer(s: Redis, token: Token)
    ensures var (s', ok) := SingleRelease(s, token);
            && (ok <==> OwnedBy(s, token))
            && (ok ==> s' == s.(owner := Free)) && (!ok ==> s' == s)
  {
  }

  /** Time takes a key away when, and only when, its expiry is reached, and takes nothing else. */
  lemma TimeAnswer(s: Redis, ms: nat)
    ensures var s' := Advance(s, ms);
            && s'.now == s.now + ms && s'.fencing == s.fencing && s'.permits == s.permits
            && s'.owner == (if s.owner.Owned? && s.owner.expireAt <= s.now + ms then Free else s.owner)
            && s'.queue.waiters == (if s.queue.waitersExp <= s.now + ms then map[] else s.queue.waiters)
            && s'.queue.seen == (if s.queue.seenExp <= s.now + ms then map[] else s.queue.seen)
            && s'.queue.counter == (if s.queue.counterExp <= s.now + ms then 0 else s.queue.counter)
  {
  }

  // ---------------------------------------------------------------- an attempt that nobody disturbs

  /** The ttl leaves a request that is answered at once some validity. */
  predicate Answerable(ttl: nat) { RequestExpiry(0, ttl) > 0 }

  ghost predicate AllExpired(permits: map<Permit, int>, stamp: int) { forall p :: p in permits ==> permits[p] <= stamp }

  /** What the lease `t` asks for is there to be had. */
  ghost predicate Available(cfg: Config, w: World, t: Token)
    requires t in w.leases
  {
    var stamp, s := Stamp(Reading(w, w.leases[t])), w.redis;
    match (cfg.kind, w.leases[t].role)
    case (Mutex(_), _) => s.owner.Free?
    case (Semaphore(capacity), Shared(n)) => LiveCount(s.permits, stamp) + n <= capacity
    case (ReadWrite, Exclusive) =>
      && s.owner.Free? && AllExpired(s.permits, stamp)
      && forall k :: A.Before(s.queue, k, Writer(t)) ==> Stale(s.queue, k, stamp, WaiterTimeout(cfg.ttl))
    case (ReadWrite, Shared(_)) =>
      && s.owner.Free?
      && forall k :: A.Before(s.queue, k, Reader(t)) && k.Writer? ==>
                       !Shielded(s.queue, k, stamp, WaiterTimeout(cfg.ttl))
    case _ => false
  }

  ghost predicate Granted(cfg: Config, w: World, t: Token)
    requires t in w.leases
  {
    var l := w.leases[t];
    AcquireScript(cfg.kind, w.redis, t, l.role, Stamp(Reading(w, l)), TtlMs(cfg.ttl), WaiterTimeout(cfg.ttl)).1.Some?
  }

  lemma NoneLive(permits: map<Permit, int>, stamp: int)
    ensures AllExpired(permits, stamp) <==> Reclaim(permits, stamp) == map[]
  {
    if Reclaim(permits, stamp) == map[] {
      forall p | p in permits ensures permits[p] <= stamp { assert p !in Reclaim(permits, stamp); }
    }
  }

  lemma PermitsAvailable(cfg: Config, w: World, t: Token)
    requires Inv(cfg, w) && cfg.kind.Semaphore? && t in w.leases && w.leases[t].phase.Idle?
    ensures Granted(cfg, w, t) <==> Available(cfg, w, t)
  {
    var l := w.leases[t];
    assert LeaseOk(cfg, w.redis, w.time, t, l);
    PermitsRefusedExactlyWhen(w.redis, Stamp(Reading(w, l)), TtlMs(cfg.ttl), cfg.kind.capacity, t, l.role.n);
    assert !Live(w.redis.permits, t, l.role.n, Stamp(Reading(w, l))) by { assert Permit(t, 0) !in w.redis.permits; }
  }

  lemma WriterAvailable(s: Redis, t: Token, stamp: int, ttl: int, timeout: nat)
    requires A.Ordered(s.queue) && !OwnedBy(s, t)
    ensures WriteLock(s, t, ttl, stamp, timeout).1.Some? <==>
            && s.owner.Free? && AllExpired(s.permits, stamp)
            && forall k :: A.Before(s.queue, k, Writer(t)) ==> Stale(s.queue, k, stamp, timeout)
  {
    var c := A.Write(t, ttl, stamp, timeout);
    assert A.Grants(s, c).Some? <==> WriteLock(s, t, ttl, stamp, timeout).1.Some?;
    A.WriterGrantedExactlyWhen(s, c);
    NoneLive(s.permits, stamp);
  }

  lemma ReaderAvailable(s: Redis, t: Token, stamp: int, ttl: int, timeout: nat)
    requires A.Ordered(s.queue) && Permit(t, 0) !in s.permits
    ensures ReadLock(s, t, ttl, stamp, timeout).1.Some? <==>
            && s.owner.Free?
            && forall k :: A.Before(s.queue, k, Reader(t)) && k.Writer? ==> !Shielded(s.queue, k, stamp, timeout)
  {
    assert !ReadHeld(s, t, stamp);
    A.ReaderGrantedExactlyWhen(s, A.Read(t, ttl, stamp, timeout));
  }

  lemma LockAvailable(cfg: Config, w: World, t: Token)
    requires Inv(cfg, w) && cfg.kind.ReadWrite? && t in w.leases && w.leases[t].phase.Idle? && A.Ordered(w.redis.queue)
    ensures Granted(cfg, w, t) <==> Available(cfg, w, t)
  {
    var l := w.leases[t];
    assert LeaseOk(cfg, w.redis, w.time, t, l);
    if l.role.Exclusive? {
      WriterAvailable(w.redis, t, Stamp(Reading(w, l)), TtlMs(cfg.ttl), WaiterTimeout(cfg.ttl));
    } else {
      ReaderAvailable(w.redis, t, Stamp(Reading(w, l)), TtlMs(cfg.ttl), WaiterTimeout(cfg.ttl));
    }
  }

  lemma KeyAvailable(cfg: Config, w: World, t: Token)
    requires Inv(cfg, w) && cfg.kind.Mutex? && t in w.leases && w.leases[t].phase.Idle?
    ensures Granted(cfg, w, t) <==> Available(cfg, w, t)
  {
    assert LeaseOk(cfg, w.redis, w.time, t, w.leases[t]);
    KeyAcquireAnswer(w.redis, t, TtlMs(cfg.ttl), cfg.kind.fencing);
  }

  /** Begin, execute and receive, with nothing in between. */
  function Tried(cfg: Config, w: World, t: Token): World
    requires t in w.leases && w.leases[t].phase.Idle?
  {
    var w1 := Next(cfg, w, Act(t, Begin));
    var w2 := Next(cfg, w1, Act(t, ExecAcquire));
    Next(cfg, w2, Act(t, Receive))
  }

  lemma TriedIsGranted(cfg: Config, w: World, t: Token)
    requires t in w.leases && w.leases[t].phase.Idle?
    ensures var l, l' := w.leases[t], Tried(cfg, w, t).leases[t];
            && (l'.phase == Held <==> Granted(cfg, w, t) && Answerable(cfg.ttl))
            && (l'.phase == Held ==> l'.expiresAt == RequestExpiry(Reading(w, l), cfg.ttl))
            && (!Granted(cfg, w, t) ==> l'.phase == Idle(true))
            && l'.offset == l.offset && Tried(cfg, w, t).time == w.time
  {
  }

  /** In every reachable world, an attempt that nobody disturbs makes its holder valid if and only if the ttl outlasts
      the reserve and what is asked for is there to be had: a free key, room among the unexpired permits, or the lock in
      its turn. */
  lemma UndisturbedAttempt(cfg: Config, worlds: seq<World>, events: seq<Event>, i: nat, t: Token)
    requires Sound(cfg) && Protocol.IsRun(cfg, worlds, events) && i < |worlds|
    requires t in worlds[i].leases && worlds[i].leases[t].phase.Idle?
    ensures Valid(Tried(cfg, worlds[i], t), t) <==> Answerable(cfg.ttl) && Available(cfg, worlds[i], t)
  {
    RunKeepsInv(cfg, worlds, events, i);
    TriedIsGranted(cfg, worlds[i], t);
    match cfg.kind
    case Mutex(_) => KeyAvailable(cfg, worlds[i], t);
    case Semaphore(_) => PermitsAvailable(cfg, worlds[i], t);
    case ReadWrite =>
      F.RunFits(cfg, worlds, events, i);
      LockAvailable(cfg, worlds[i], t);
  }

  // ---------------------------------------------------------------- a renewal that nobody disturbs

  /** Send, execute and receive, with nothing in between. */
  function Renewed(cfg: Config, w: World, t: Token): World
    requires t in w.leases && w.leases[t].phase == Held && Renewable(cfg, w, t)
  {
    var now := Reading(w, w.leases[t]);
    var w1 := Next(cfg, w, Act(t, SendRenew));
    var w2 := Next(cfg, w1, Act(t, ExecRenew(now)));
    Next(cfg, w2, Act(t, ReceiveRenew(now)))
  }

  /** The renewal is in order, and the server takes it. */
  predicate Renewable(cfg: Config, w: World, t: Token)
    requires t in w.leases
  {
    var l := w.leases[t];
    var now := Reading(w, l);
    && (cfg.ordered && l.role.Shared? ==> Orderly(cfg, l.(sent := l.sent + {now}), now))
    && RenewScript(w.redis, t, l.role, Stamp(now), TtlMs(cfg.ttl)).1
  }

  /** The holder has the later of its old and its new deadline, and the server's record expires a full ttl from now. */
  ghost predicate Extended(cfg: Config, w: World, w': World, t: Token)
    requires t in w.leases && t in w'.leases
  {
    var now, before, l := Reading(w, w.leases[t]), w.leases[t].expiresAt, w'.leases[t];
    var deadline := RequestExpiry(now, cfg.ttl);
    && l.expiresAt == (if deadline > before then deadline else before)
    && (l.role.Exclusive? ==> w'.redis.owner == Owned(t, w.redis.now + TtlMs(cfg.ttl)))
    && (l.role.Shared? ==> forall j: nat :: j < l.role.n ==>
          Permit(t, j) in w'.redis.permits && w'.redis.permits[Permit(t, j)] == Stamp(now) + TtlMs(cfg.ttl))
  }

  lemma ValidIsRenewable(cfg: Config, w: World, t: Token)
    requires Sound(cfg) && Inv(cfg, w) && Valid(w, t) && (w.leases[t].role.Shared? ==> Steadfast(cfg))
    ensures Renewable(cfg, w, t)
  {
    var l := w.leases[t];
    var now := Reading(w, l);
    assert LeaseOk(cfg, w.redis, w.time, t, l);
    if l.role.Exclusive? {
      KeyRenewAnswer(w.redis, t, TtlMs(cfg.ttl));
    } else {
      InOrderIsOrderly(cfg, l.(sent := l.sent + {now}), now);
      SetRenew(w.redis, t, l.role.n, Stamp(now), TtlMs(cfg.ttl));
      StampBounds(now);
    }
  }

  predicate Timely(l: Lease, now: int, ttl: nat) { l.phase == Held ==> l.expiresAt <= RequestExpiry(now, ttl) }

  lemma ActKeepsTimely(cfg: Config, s: Redis, t: Token, l: Lease, now: int, a: Action)
    requires CanAct(cfg, l, a) && Timely(l, now, cfg.ttl) && l.attempt <= now
    requires forall r :: r in l.confirmed ==> r <= now
    ensures var l' := ActStep(cfg, s, t, l, now, a).1; l'.offset == l.offset && Timely(l', now, cfg.ttl)
  {
  }

  /** No deadline was ever granted that a request begun now would not reach. */
  lemma {:induction false} RunKeepsTimely(cfg: Config, worlds: seq<World>, events: seq<Event>, i: nat, t: Token)
    requires Sound(cfg) && Protocol.IsRun(cfg, worlds, events) && i < |worlds| && t in worlds[i].leases
    ensures Timely(worlds[i].leases[t], Reading(worlds[i], worlds[i].leases[t]), cfg.ttl)
  {
    if i > 0 {
      var w, e := worlds[i - 1], events[i - 1];
      assert Enabled(cfg, w, e) && worlds[i] == Next(cfg, w, e);
      if t in w.leases {
        RunKeepsTimely(cfg, worlds, events, i - 1, t);
        RunKeepsInv(cfg, worlds, events, i - 1);
        var l := w.leases[t];
        assert LeaseOk(cfg, w.redis, w.time, t, l);
        if e.Act? && e.token == t { ActKeepsTimely(cfg, w.redis, t, l, Reading(w, l), e.action); }
      }
    }
  }

  /** In every reachable world, a renewal of a valid holder that nobody disturbs is taken: the holder stays, with the
      later of its old and its new deadline, and the server's record expires a full ttl from then. */
  lemma UndisturbedRenewal(cfg: Config, worlds: seq<World>, events: seq<Event>, i: nat, t: Token)
    requires Sound(cfg) && Protocol.IsRun(cfg, worlds, events) && i < |worlds|
    requires Valid(worlds[i], t) && (worlds[i].leases[t].role.Shared? ==> Steadfast(cfg))
    ensures Renewable(cfg, worlds[i], t) && Valid(Renewed(cfg, worlds[i], t), t)
    ensures Extended(cfg, worlds[i], Renewed(cfg, worlds[i], t), t)
  {
    var w, l := worlds[i], worlds[i].leases[t];
    RunKeepsInv(cfg, worlds, events, i);
    ValidIsRenewable(cfg, w, t);
    RunKeepsTimely(cfg, worlds, events, i, t);
    RenewedIsTaken(cfg, w, t);
  }

  lemma RenewedIsTaken(cfg: Config, w: World, t: Token)
    requires Valid(w, t) && Renewable(cfg, w, t) && Answerable(cfg.ttl)
    ensures Valid(Renewed(cfg, w, t), t)
    ensures Extended(cfg, w, Renewed(cfg, w, t), t)
  {
    var l := w.leases[t];
    var now := Reading(w, l);
    if l.role.Shared? { GrantAdds(w.redis.permits, t, l.role.n, Stamp(now) + TtlMs(cfg.ttl)); }
  }

  // ---------------------------------------------------------------- leaving

  /** Give up: both commands of a dequeue, with nothing in between. */
  function GaveUp(cfg: Config, w: World, t: Token): World
    requires t in w.leases
  {
    Next(cfg, Next(cfg, Next(cfg, w, Act(t, Abandon)), Act(t, DropRank)), Act(t, DropSeen))
  }

  /** A contender that gives up leaves neither entry nor stamp of its own, and takes nobody else's. */
  lemma UndisturbedGiveUp(cfg: Config, w: World, t: Token, k: Waiter)
    requires t in w.leases
    ensures var q, q' := w.redis.queue, GaveUp(cfg, w, t).redis.queue;
            var mine := if w.leases[t].role.Exclusive? then Writer(t) else Reader(t);
            && (k in q'.waiters <==> k in q.waiters && k != mine) && (k in q'.seen <==> k in q.seen && k != mine)
            && (k in q'.waiters ==> q'.waiters[k] == q.waiters[k]) && (k in q'.seen ==> q'.seen[k] == q.seen[k])
            && GaveUp(cfg, w, t).redis == w.redis.(queue := q.(waiters := q'.waiters, seen := q'.seen))
            && GaveUp(cfg, w, t).leases[t].phase == Gone
  {
  }

  /** Release: end local use, then the script. */
  function GivenBack(cfg: Config, w: World, t: Token): World
    requires t in w.leases
  {
    Next(cfg, Next(cfg, w, Act(t, Abandon)), Act(t, ExecRelease))
  }

  /** In every reachable world, a release that nobody disturbs leaves nothing of its lease on the server, and everything
      of all others. */
  lemma UndisturbedRelease(cfg: Config, worlds: seq<World>, events: seq<Event>, i: nat, t: Token, p: Permit)
    requires Sound(cfg) && Protocol.IsRun(cfg, worlds, events) && i < |worlds| && t in worlds[i].leases
    ensures var s, s' := worlds[i].redis, GivenBack(cfg, worlds[i], t).redis;
            && s'.owner == (if OwnedBy(s, t) then Free else s.owner)
            && (p in s'.permits <==> p in s.permits && p.id != t) && (p in s'.permits ==> s'.permits[p] == s.permits[p])
            && s' == s.(owner := s'.owner, permits := s'.permits)
  {
    RunKeepsInv(cfg, worlds, events, i);
    var w, l := worlds[i], worlds[i].leases[t];
    assert LeaseOk(cfg, w.redis, w.time, t, l);
    if l.role.Shared? { DropRemoves(w.redis.permits, t, l.role.n); }
    assert p == Permit(p.id, p.index);
  }
}
