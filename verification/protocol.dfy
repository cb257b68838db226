/** The lease protocol: one Redis, any number of client lease objects and a global time.

    Clients read their clock, send, have their script executed any number of times, and receive a reply
    late or never; each of these is a separate event, so every interleaving is a run. */
module Protocol {
  import opened Store
  import opened Clock

  datatype Kind = Mutex(fencing: bool) | ReadWrite | Semaphore(capacity: nat)

  /** One primitive: its kind, its lease ttl, the largest difference between two client clocks (ns), whether the
      renewals of one shared lease execute in an orderly way, and whether an attempt that came back busy is settled, so
      that no execution of it happens later. */
  datatype Config = Config(kind: Kind, ttl: nat, skew: nat, ordered: bool, settled: bool)

  /** An exclusive lease owns a key; a shared lease owns `n` members of a sorted set. */
  datatype Role = Exclusive | Shared(n: nat)

  datatype Reply = Pending | Busy | Granted(fence: nat)

  /** `Idle` is before the first attempt, or between two of them; `Gone` covers every end of a lease: error returned,
      late grant, loss noticed, release begun. */
  datatype Phase = Idle(tried: bool) | Trying(reply: Reply) | Held | Gone

  /** A client-side lease object.
      `offset` is its clock minus global time, `attempt` the start of its latest acquisition attempt, `base` the
      start of its latest request that succeeded on the server, `sent` and `confirmed` the starts of its
      renewals that were sent and that the server accepted. */
  datatype Lease = Lease(role: Role, offset: int, phase: Phase, attempt: int, base: int, expiresAt: int,
                         sent: set<int>, confirmed: set<int>, fence: nat)

  datatype World = World(time: int, redis: Redis, leases: map<Token, Lease>)

  /** What a lease does next: client steps, and executions of its scripts on the server. */
  datatype Action =
    | Begin
    | ExecAcquire
    | Receive
    | Abandon
    | SendRenew
    | ExecRenew(start: int)
    | ReceiveRenew(start: int)
    | ExecRelease
    | DropRank
    | DropSeen

  datatype Event =
    | Pass(d: nat)
    | Create(token: Token, role: Role, offset: int)
    | Act(token: Token, action: Action)

  predicate RoleFits(k: Kind, role: Role) {
    match k
    case Mutex(_) => role == Exclusive
    case ReadWrite => role == Exclusive || role == Shared(1)
    case Semaphore(_) => role.Shared? && role.n >= 1
  }

  function Reading(w: World, l: Lease): int { w.time + l.offset }

  predicate Close(a: int, b: int, skew: nat) { a <= b + skew && b <= a + skew }

  /** A clock that differs from no other client's by more than `skew`. */
  predicate CloseClocks(w: World, offset: int, skew: nat) {
    forall t :: t in w.leases ==> Close(w.leases[t].offset, offset, skew)
  }

  // ---------------------------------------------------------------- what the scripts do for a lease

  function AcquireScript(k: Kind, s: Redis, t: Token, role: Role, stamp: int, ttl: int,
                         timeout: int): (Redis, Option<nat>) {
    match role
    case Exclusive =>
      if k.Mutex? then SingleAcquire(s, t, ttl, k.fencing) else WriteLock(s, t, ttl, stamp, timeout)
    case Shared(n) =>
      if k.Semaphore? then SemAcquire(s, stamp, ttl, k.capacity, t, n) else ReadLock(s, t, ttl, stamp, timeout)
  }

  function RenewScript(s: Redis, t: Token, role: Role, stamp: int, ttl: int): (Redis, bool) {
    match role
    case Exclusive => SingleRenew(s, t, ttl)
    case Shared(n) => SemRenew(s, stamp, ttl, t, n)
  }

  function ReleaseScript(s: Redis, t: Token, role: Role): Redis {
    match role
    case Exclusive => SingleRelease(s, t).0
    case Shared(n) => SemRelease(s, t, n).0
  }

  function QueueEntry(t: Token, role: Role): Waiter { if role.Exclusive? then Writer(t) else Reader(t) }

  // ---------------------------------------------------------------- what the client does with a reply

  function AsReply(role: Role, r: Option<nat>): Reply {
    match r
    case None => Busy
    case Some(f) => Granted(if role.Exclusive? then f else 0)
  }

  /** The reply to an acquisition attempt, at client clock `now`: a late grant is refused. */
  function OnAcquired(l: Lease, fence: nat, ttl: nat, now: int): Lease {
    var deadline := RequestExpiry(l.attempt, ttl);
    if deadline > now then l.(phase := Held, expiresAt := deadline, base := l.attempt, fence := fence)
    else l.(phase := Gone)
  }

  /** The reply to a renewal begun at `start`: it must arrive within the previously confirmed validity. */
  function OnRenewed(l: Lease, start: int, ttl: nat, now: int): Lease {
    var deadline := RequestExpiry(start, ttl);
    if l.expiresAt <= now || deadline <= now then l.(phase := Gone)
    else l.(expiresAt := if deadline > l.expiresAt then deadline else l.expiresAt)
  }

  // ---------------------------------------------------------------- runs

  /** Renewals overwrite the score, so one that executes out of order may pull it back. It must not pull it below
      a deadline already confirmed (less the clock difference that others may have). */
  predicate Orderly(cfg: Config, l: Lease, start: int) {
    forall c :: c in l.confirmed + {l.attempt} ==>
      RequestExpiry(c, cfg.ttl) <= ServerExpiry(start, cfg.ttl) - cfg.skew
  }

  /** When a lease may act. Two assumptions about the transport are made here, if the configuration says so: an attempt
      that came back busy has no execution left to happen, and renewals of one shared lease execute in an orderly
      way. */
  predicate CanAct(cfg: Config, l: Lease, a: Action) {
    match a
    case Begin => l.phase.Idle?
    case ExecAcquire => l.phase.Idle? ==> l.phase.tried && !cfg.settled
    case Receive => l.phase.Trying? && l.phase.reply != Pending
    case Abandon => true
    case SendRenew => l.phase == Held
    case ExecRenew(r) => r in l.sent && (cfg.ordered && l.role.Shared? ==> Orderly(cfg, l, r))
    case ReceiveRenew(r) => l.phase == Held && r in l.confirmed
    case ExecRelease => l.phase == Gone
    case DropRank => l.phase == Gone
    case DropSeen => l.phase == Gone
  }

  /** The server and the lease `t` after one action, at client clock `now`. */
  function ActStep(cfg: Config, s: Redis, t: Token, l: Lease, now: int, a: Action): (Redis, Lease)
    requires CanAct(cfg, l, a)
  {
    match a
    case Begin => (s, l.(phase := Trying(Pending), attempt := now, base := now))
    case ExecAcquire =>
      var (s', r) := AcquireScript(cfg.kind, s, t, l.role, Stamp(l.attempt), TtlMs(cfg.ttl), WaiterTimeout(cfg.ttl));
      (s', if l.phase.Trying? then l.(phase := Trying(AsReply(l.role, r))) else l)
    case Receive =>
      (s, if l.phase.reply == Busy then l.(phase := Idle(true)) else OnAcquired(l, l.phase.reply.fence, cfg.ttl, now))
    case Abandon => (s, l.(phase := Gone))
    case SendRenew => (s, l.(sent := l.sent + {now}))
    case ExecRenew(r) =>
      var (s', ok) := RenewScript(s, t, l.role, Stamp(r), TtlMs(cfg.ttl));
      (s', if ok then l.(confirmed := l.confirmed + {r}, base := r) else l)
    case ReceiveRenew(r) => (s, OnRenewed(l, r, cfg.ttl, now))
    case ExecRelease => (ReleaseScript(s, t, l.role), l)
    case DropRank => (DequeueRank(s, QueueEntry(t, l.role)), l)
    case DropSeen => (DequeueSeen(s, QueueEntry(t, l.role)), l)
  }

  predicate Enabled(cfg: Config, w: World, e: Event) {
    match e
    case Pass(_) => true
    case Create(t, role, offset) => t !in w.leases && RoleFits(cfg.kind, role) && CloseClocks(w, offset, cfg.skew)
    case Act(t, a) => t in w.leases && CanAct(cfg, w.leases[t], a)
  }

  function NewLease(role: Role, offset: int, now: int): Lease {
    Lease(role, offset, Idle(false), now, now, now, {}, {}, 0)
  }

  function Next(cfg: Config, w: World, e: Event): World
    requires Enabled(cfg, w, e)
  {
    match e
    case Pass(d) => w.(time := w.time + d, redis := PassTime(w.redis, w.time, d))
    case Create(t, role, offset) => w.(leases := w.leases[t := NewLease(role, offset, w.time + offset)])
    case Act(t, a) =>
      var (s, l) := ActStep(cfg, w.redis, t, w.leases[t], Reading(w, w.leases[t]), a);
      w.(redis := s, leases := w.leases[t := l])
  }

  function PassTime(s: Redis, time: int, d: nat): Redis {
    StampMonotone(time, time + d);
    Advance(s, Stamp(time + d) - Stamp(time))
  }

  /** Nothing is held, queued or created yet; the fencing counter may have any value. */
  predicate Initial(w: World) {
    && w.leases == map[] && w.redis.now == Stamp(w.time)
    && w.redis.owner == Free && w.redis.permits == map[] && w.redis.queue.waiters == map[]
  }

  ghost predicate IsRun(cfg: Config, worlds: seq<World>, events: seq<Event>) {
    && |worlds| == |events| + 1
    && Initial(worlds[0])
    && forall i {:trigger events[i]} :: 0 <= i < |events| ==>
         Enabled(cfg, worlds[i], events[i]) && worlds[i + 1] == Next(cfg, worlds[i], events[i])
  }

  /** What the holder itself sees: its handle is not lost and its deadline is still ahead on its own clock. */
  predicate Valid(w: World, t: Token) {
    t in w.leases && w.leases[t].phase == Held && Reading(w, w.leases[t]) < w.leases[t].expiresAt
  }
}
