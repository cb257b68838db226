/** Safety of the lease protocol over every run: a lease that its holder believes valid is owned on the server. */
module Safety {
  import opened Store
  import opened Clock
  import opened Protocol

  // ---------------------------------------------------------------- what each lease may rely on

  /** The grant of `t` in the sorted set is all or nothing: `n` members with one score, or none. */
  ghost predicate Whole(permits: map<Permit, int>, t: Token, n: nat) {
    && (Permit(t, 0) in permits ==> forall i :: 0 <= i < n ==> Permit(t, i) in permits)
    && (forall i: nat :: Permit(t, i) in permits ==>
          i < n && Permit(t, 0) in permits && permits[Permit(t, i)] == permits[Permit(t, 0)])
  }

  /** The key expiry `e` (server ms) is not before the local time `d` of a client with this clock offset. */
  predicate Covers(e: int, offset: int, d: int) { d <= e * MS + offset }

  /** What every lease needs: busy attempts are settled and the reserve absorbs the two truncations. Leases that own a
      key need no more, however far client clocks are apart. */
  ghost predicate Sound(cfg: Config) { cfg.ttl >= MS && Margin(cfg.ttl, 0) && cfg.settled }

  /** What shared leases need as well: the reserve absorbs the difference of client clocks, and renewals are orderly
      unless leases are too brief for more than one renewal. */
  ghost predicate Steadfast(cfg: Config) { Margin(cfg.ttl, cfg.skew) && (cfg.ordered || cfg.ttl < 2 * MS) }

  /** Within the margin a ttl under 2 ms makes a lease valid for one instant at most. */
  ghost predicate Brief(cfg: Config) { Margin(cfg.ttl, cfg.skew) && cfg.ttl < 2 * MS }

  /** In order is orderly: a renewal begun after every request already confirmed never pulls a score below a confirmed
      deadline, given the margin. */
  lemma InOrderIsOrderly(cfg: Config, l: Lease, start: int)
    requires Margin(cfg.ttl, cfg.skew)
    requires forall c :: c in l.confirmed + {l.attempt} ==> c <= start
    ensures Orderly(cfg, l, start)
  {
    DeadlineWithinMargin(start, cfg.ttl, cfg.skew);
  }

  ghost predicate KeyOk(cfg: Config, s: Redis, now: int, t: Token, l: Lease) {
    && (forall i: nat :: Permit(t, i) !in s.permits)
    && (OwnedBy(s, t) ==> s.owner.expireAt <= s.now + TtlMs(cfg.ttl))
    && (l.phase.Idle? || l.phase == Trying(Busy) ==> !OwnedBy(s, t))
    && (l.phase.Trying? && OwnedBy(s, t) ==> Covers(s.owner.expireAt, l.offset, RequestExpiry(l.attempt, cfg.ttl)))
    && (l.phase.Trying? && l.phase.reply.Granted? && now < RequestExpiry(l.attempt, cfg.ttl) ==> OwnedBy(s, t))
    && (l.phase == Held && now < l.expiresAt ==>
          && OwnedBy(s, t)
          && Covers(s.owner.expireAt, l.offset, l.expiresAt)
          && forall r :: r in l.confirmed ==> Covers(s.owner.expireAt, l.offset, RequestExpiry(r, cfg.ttl)))
  }

  ghost predicate SetOk(cfg: Config, s: Redis, now: int, t: Token, l: Lease, n: nat) {
    var p := Permit(t, 0);
    && !OwnedBy(s, t)
    && Whole(s.permits, t, n)
    && (l.phase.Idle? || l.phase == Trying(Busy) ==> p !in s.permits)
    && (l.phase.Trying? && p in s.permits ==> s.permits[p] == Stamp(l.attempt) + TtlMs(cfg.ttl))
    && (Steadfast(cfg) && l.phase.Trying? && l.phase.reply.Granted? && now < RequestExpiry(l.attempt, cfg.ttl) ==>
          p in s.permits)
    && (Steadfast(cfg) && l.phase == Held && now < l.expiresAt ==>
          && p in s.permits && s.permits[p] == Stamp(l.base) + TtlMs(cfg.ttl)
          && l.expiresAt <= ServerExpiry(l.base, cfg.ttl) - cfg.skew
          && Orderly(cfg, l, l.base))
    && (Brief(cfg) && l.phase == Held && now < l.expiresAt ==> now == l.attempt)
    && (l.phase == Held ==> exists c :: c in l.confirmed + {l.attempt} && l.expiresAt == RequestExpiry(c, cfg.ttl))
  }

  ghost predicate LeaseOk(cfg: Config, s: Redis, time: int, t: Token, l: Lease) {
    var now := time + l.offset;
    && RoleFits(cfg.kind, l.role)
    && l.attempt <= now && l.base <= now
    && (forall r :: r in l.sent ==> l.attempt <= r <= now) && l.confirmed <= l.sent
    && (l.phase.Idle? || l.phase.Trying? ==> l.sent == {})
    && (if l.role.Exclusive? then KeyOk(cfg, s, now, t, l) else SetOk(cfg, s, now, t, l, l.role.n))
  }

  /** Server-side exclusion, whatever the stamps: live key and set members never coexist; capacity holds. */
  ghost predicate StoreOk(k: Kind, s: Redis) {
    match k
    case Mutex(_) => s.permits == map[]
    case ReadWrite => s.owner.Owned? ==> s.permits == map[]
    case Semaphore(capacity) => s.owner.Free? && |s.permits| <= capacity
  }

  ghost predicate Inv(cfg: Config, w: World) {
    && w.redis.now == Stamp(w.time)
    && StoreOk(cfg.kind, w.redis)
    && (forall t, u {:trigger Close(w.leases[t].offset, w.leases[u].offset, cfg.skew)} ::
          t in w.leases && u in w.leases ==> Close(w.leases[t].offset, w.leases[u].offset, cfg.skew))
    && (forall t {:trigger LeaseOk(cfg, w.redis, w.time, t, w.leases[t])} :: t in w.leases ==>
          LeaseOk(cfg, w.redis, w.time, t, w.leases[t]))
    && (w.redis.owner.Owned? ==> w.redis.owner.token in w.leases)
    && (forall p :: p in w.redis.permits ==> p.id in w.leases)
  }

  // ---------------------------------------------------------------- the outcomes of an acquisition script

  ghost predicate Trimmed(permits: map<Permit, int>, permits': map<Permit, int>, cut: int) {
    permits' == permits || permits' == Reclaim(permits, cut)
  }

  /** Key leases: a live grant is replayed unchanged; a new one needs a free key; a refusal grants nothing. */
  ghost predicate KeyOutcome(k: Kind, s: Redis, t: Token, stamp: int, ttl: int, s': Redis, r: Option<nat>) {
    && s'.now == s.now && Trimmed(s.permits, s'.permits, stamp)
    && (k.Mutex? ==> s'.permits == s.permits)
    && (if OwnedBy(s, t) then
          s' == s && r.Some?
        else if r.Some? then
          s.owner.Free? && s'.owner == Owned(t, s.now + ttl) && (k.ReadWrite? ==> s'.permits == map[])
        else
          s'.owner == s.owner)
    && (k != Mutex(false) ==>
          && s'.fencing == (if !OwnedBy(s, t) && r.Some? then s.fencing + 1 else s.fencing)
          && (r.Some? ==> r.value == s'.fencing))
  }

  /** The set that an acquisition decides on: only the semaphore script reclaims first. */
  function Cleared(k: Kind, permits: map<Permit, int>, cut: int): map<Permit, int> {
    if k.Semaphore? then Reclaim(permits, cut) else permits
  }

  /** Set leases: a live grant is replayed unchanged; a new one adds all `n` members at once. */
  ghost predicate SetOutcome(k: Kind, s: Redis, t: Token, n: nat, stamp: int, ttl: int, s': Redis, r: Option<nat>) {
    var left := Cleared(k, s.permits, stamp);
    && s'.now == s.now && s'.owner == s.owner && s'.fencing == s.fencing
    && (if OwnsAll(s.permits, t, n, stamp) then
          s'.permits == left && r.Some?
        else if r.Some? then
          && s.owner.Free?
          && s'.permits == Grant(left, t, n, stamp + ttl)
          && (k.Semaphore? ==> |left| + n <= k.capacity)
        else
          s'.permits == left)
  }

  ghost predicate Outcome(k: Kind, s: Redis, t: Token, role: Role, stamp: int, ttl: int, s': Redis, r: Option<nat>) {
    match role
    case Exclusive => KeyOutcome(k, s, t, stamp, ttl, s', r)
    case Shared(n) => SetOutcome(k, s, t, n, stamp, ttl, s', r)
  }

  lemma SemAcquireOutcome(k: Kind, s: Redis, t: Token, n: nat, stamp: int, ttl: int)
    requires k.Semaphore? && s.owner.Free?
    ensures var (s', r) := SemAcquire(s, stamp, ttl, k.capacity, t, n); SetOutcome(k, s, t, n, stamp, ttl, s', r)
  {
  }

  lemma SingleAcquireOutcome(k: Kind, s: Redis, t: Token, stamp: int, ttl: int)
    requires k.Mutex?
    ensures var (s', r) := SingleAcquire(s, t, ttl, k.fencing); KeyOutcome(k, s, t, stamp, ttl, s', r)
  {
  }

  lemma WriteLockOutcome(k: Kind, s: Redis, t: Token, stamp: int, ttl: int, timeout: int)
    requires k.ReadWrite?
    ensures var (s', r) := WriteLock(s, t, ttl, stamp, timeout); KeyOutcome(k, s, t, stamp, ttl, s', r)
  {
  }

  lemma ReadLockOutcome(k: Kind, s: Redis, t: Token, stamp: int, ttl: int, timeout: int)
    requires k.ReadWrite?
    ensures var (s', r) := ReadLock(s, t, ttl, stamp, timeout); SetOutcome(k, s, t, 1, stamp, ttl, s', r)
  {
  }

  lemma AcquireOutcome(k: Kind, s: Redis, t: Token, role: Role, stamp: int, ttl: int, timeout: int)
    requires RoleFits(k, role) && StoreOk(k, s)
    ensures var (s', r) := AcquireScript(k, s, t, role, stamp, ttl, timeout); Outcome(k, s, t, role, stamp, ttl, s', r)
  {
    match k
    case Mutex(_) => SingleAcquireOutcome(k, s, t, stamp, ttl);
    case Semaphore(_) => SemAcquireOutcome(k, s, t, role.n, stamp, ttl);
    case ReadWrite =>
      if role.Exclusive? {
        WriteLockOutcome(k, s, t, stamp, ttl, timeout);
      } else {
        ReadLockOutcome(k, s, t, stamp, ttl, timeout);
      }
  }

  // ---------------------------------------------------------------- scripts seen by the other leases

  /** What a script run by another lease with stamp `cut` may do to `t`: nothing, or reclaim a score up to `cut`. */
  ghost predicate Foreign(s: Redis, s': Redis, t: Token, cut: int) {
    && s'.now == s.now
    && (if OwnedBy(s, t) then s'.owner == s.owner else !OwnedBy(s', t))
    && ((forall i: nat :: Permit(t, i) in s'.permits <==> Permit(t, i) in s.permits)
        || (forall i: nat :: Permit(t, i) in s'.permits <==>
                             Permit(t, i) in s.permits && s.permits[Permit(t, i)] > cut))
    && (forall i: nat :: Permit(t, i) in s'.permits && Permit(t, i) in s.permits ==>
          s'.permits[Permit(t, i)] == s.permits[Permit(t, i)])
  }

  lemma AcquireForeign(k: Kind, s: Redis, u: Token, role: Role, stamp: int, ttl: int, s': Redis,
                       r: Option<nat>, t: Token)
    requires Outcome(k, s, u, role, stamp, ttl, s', r) && t != u
    ensures Foreign(s, s', t, stamp)
  {
    if role.Shared? { GrantAdds(Cleared(k, s.permits, stamp), u, role.n, stamp + ttl); }
  }

  lemma RenewForeign(s: Redis, u: Token, role: Role, stamp: int, ttl: int, t: Token)
    requires t != u
    ensures Foreign(s, RenewScript(s, u, role, stamp, ttl).0, t, stamp)
  {
    if role.Shared? { GrantAdds(s.permits, u, role.n, stamp + ttl); }
  }

  lemma ReleaseForeign(s: Redis, u: Token, role: Role, t: Token, cut: int)
    requires t != u
    ensures Foreign(s, ReleaseScript(s, u, role), t, cut)
  {
    if role.Shared? { DropRemoves(s.permits, u, role.n); }
  }

  /** The heart of the protocol: by the time anyone's stamp reclaims a score, its holder's own deadline is past. */
  lemma ReclaimedOnlyAfterDeadline(start: int, ttl: nat, skew: nat, now: int, cut: int)
    requires Margin(ttl, skew) && cut * MS <= now + skew
    requires Stamp(start) + TtlMs(ttl) <= cut
    ensures RequestExpiry(start, ttl) <= ServerExpiry(start, ttl) - skew <= now
  {
    DeadlineWithinMargin(start, ttl, skew);
  }

  lemma ForeignKeeps(cfg: Config, s: Redis, s': Redis, time: int, t: Token, l: Lease, cut: int)
    requires Sound(cfg) && LeaseOk(cfg, s, time, t, l) && Foreign(s, s', t, cut)
    requires cut * MS <= time + l.offset + cfg.skew
    ensures LeaseOk(cfg, s', time, t, l)
  {
    var p, now := Permit(t, 0), time + l.offset;
    if Steadfast(cfg) && l.role.Shared? && p in s.permits && p !in s'.permits {
      if l.phase.Trying? {
        ReclaimedOnlyAfterDeadline(l.attempt, cfg.ttl, cfg.skew, now, cut);
      }
      if l.phase == Held && now < l.expiresAt {
        ReclaimedOnlyAfterDeadline(l.base, cfg.ttl, cfg.skew, now, cut);
      }
    }
  }

  // ---------------------------------------------------------------- scripts seen by the lease that runs them

  lemma OwnsWhole(permits: map<Permit, int>, t: Token, n: nat, stamp: int)
    requires Whole(permits, t, n) && n >= 1
    ensures OwnsAll(permits, t, n, stamp) <==> Permit(t, 0) in permits && permits[Permit(t, 0)] > stamp
  {
    assert OwnsAll(permits, t, n, stamp) ==> Permit(t, 0 as nat) in permits;
  }

  lemma SetAcquire(k: Kind, s: Redis, t: Token, n: nat, stamp: int, ttl: int, s': Redis, r: Option<nat>)
    requires SetOutcome(k, s, t, n, stamp, ttl, s', r) && Whole(s.permits, t, n) && n >= 1
    ensures var p := Permit(t, 0);
            && Whole(s'.permits, t, n)
            && (if p in s.permits && s.permits[p] > stamp then
                  r.Some? && p in s'.permits && s'.permits[p] == s.permits[p]
                else if r.Some? then
                  p in s'.permits && s'.permits[p] == stamp + ttl
                else
                  p in s'.permits ==> p in s.permits && s'.permits[p] == s.permits[p])
  {
    OwnsWhole(s.permits, t, n, stamp);
    GrantAdds(Cleared(k, s.permits, stamp), t, n, stamp + ttl);
  }

  lemma SetRenew(s: Redis, t: Token, n: nat, stamp: int, ttl: int)
    requires Whole(s.permits, t, n) && n >= 1
    ensures var (s', ok) := RenewScript(s, t, Shared(n), stamp, ttl);
            var p := Permit(t, 0);
            && s'.now == s.now && s'.owner == s.owner && Whole(s'.permits, t, n)
            && (ok <==> p in s.permits && s.permits[p] > stamp)
            && (if ok then p in s'.permits && s'.permits[p] == stamp + ttl else s' == s)
  {
    OwnsWhole(s.permits, t, n, stamp);
    GrantAdds(s.permits, t, n, stamp + ttl);
  }

  lemma SetRelease(s: Redis, t: Token, n: nat)
    requires Whole(s.permits, t, n)
    ensures Whole(ReleaseScript(s, t, Shared(n)).permits, t, n)
    ensures Permit(t, 0) !in ReleaseScript(s, t, Shared(n)).permits
  {
    DropRemoves(s.permits, t, n);
  }

  /** A key set or extended by a request outlives the deadline counted from before that request. */
  lemma FreshKeyCovers(start: int, time: int, offset: int, ttl: nat)
    requires Margin(ttl, 0) && start <= time + offset
    ensures Covers(Stamp(time) + TtlMs(ttl), offset, RequestExpiry(start, ttl))
  {
    DeadlineWithinMargin(time, ttl, 0);
  }

  function AfterExec(l: Lease, r: Option<nat>): Lease {
    if l.phase.Trying? then l.(phase := Trying(AsReply(l.role, r))) else l
  }

  lemma KeyExecKeeps(cfg: Config, s: Redis, time: int, t: Token, l: Lease, s': Redis, r: Option<nat>)
    requires Sound(cfg) && LeaseOk(cfg, s, time, t, l) && s.now == Stamp(time) && !l.phase.Idle? && l.role.Exclusive?
    requires KeyOutcome(cfg.kind, s, t, Stamp(l.attempt), TtlMs(cfg.ttl), s', r)
    ensures LeaseOk(cfg, s', time, t, AfterExec(l, r))
  {
    FreshKeyCovers(l.attempt, time, l.offset, cfg.ttl);
  }

  lemma SetExecKeeps(cfg: Config, s: Redis, time: int, t: Token, l: Lease, s': Redis, r: Option<nat>)
    requires Sound(cfg) && LeaseOk(cfg, s, time, t, l) && !l.phase.Idle? && l.role.Shared?
    requires SetOutcome(cfg.kind, s, t, l.role.n, Stamp(l.attempt), TtlMs(cfg.ttl), s', r)
    ensures LeaseOk(cfg, s', time, t, AfterExec(l, r))
  {
    SetAcquire(cfg.kind, s, t, l.role.n, Stamp(l.attempt), TtlMs(cfg.ttl), s', r);
    StampBounds(l.attempt);
  }

  lemma ExecRenewKeeps(cfg: Config, s: Redis, time: int, t: Token, l: Lease, r: int)
    requires Sound(cfg) && LeaseOk(cfg, s, time, t, l) && s.now == Stamp(time) && CanAct(cfg, l, ExecRenew(r))
    ensures var (s', l') := ActStep(cfg, s, t, l, time + l.offset, ExecRenew(r));
            LeaseOk(cfg, s', time, t, l')
  {
    if l.role.Exclusive? {
      FreshKeyCovers(r, time, l.offset, cfg.ttl);
    } else {
      SetRenew(s, t, l.role.n, Stamp(r), TtlMs(cfg.ttl));
    }
  }

  /** The reply to an acquisition, and the reply to a renewal. */
  lemma ReplyKeeps(cfg: Config, s: Redis, time: int, t: Token, l: Lease)
    requires Sound(cfg) && LeaseOk(cfg, s, time, t, l) && CanAct(cfg, l, Receive)
    ensures LeaseOk(cfg, s, time, t, ActStep(cfg, s, t, l, time + l.offset, Receive).1)
  {
  }

  lemma RenewReplyKeeps(cfg: Config, s: Redis, time: int, t: Token, l: Lease, r: int)
    requires Sound(cfg) && LeaseOk(cfg, s, time, t, l) && CanAct(cfg, l, ReceiveRenew(r))
    ensures LeaseOk(cfg, s, time, t, ActStep(cfg, s, t, l, time + l.offset, ReceiveRenew(r)).1)
  {
  }

  lemma ReleaseKeeps(cfg: Config, s: Redis, time: int, t: Token, l: Lease)
    requires Sound(cfg) && LeaseOk(cfg, s, time, t, l) && CanAct(cfg, l, ExecRelease)
    ensures LeaseOk(cfg, ActStep(cfg, s, t, l, time + l.offset, ExecRelease).0, time, t, l)
  {
    if l.role.Shared? { SetRelease(s, t, l.role.n); }
  }

  lemma ClientStepKeeps(cfg: Config, s: Redis, time: int, t: Token, l: Lease, a: Action)
    requires Sound(cfg) && LeaseOk(cfg, s, time, t, l) && CanAct(cfg, l, a)
    requires a.Begin? || a.Abandon? || a.SendRenew? || a.DropRank? || a.DropSeen?
    ensures var (s', l') := ActStep(cfg, s, t, l, time + l.offset, a);
            LeaseOk(cfg, s', time, t, l')
  {
  }

  lemma PassKeeps(cfg: Config, s: Redis, time: int, d: nat, t: Token, l: Lease)
    requires LeaseOk(cfg, s, time, t, l) && s.now == Stamp(time)
    ensures LeaseOk(cfg, PassTime(s, time, d), time + d, t, l)
  {
    StampBounds(time + d);
    if OwnedBy(s, t) && s.owner.expireAt <= Stamp(time + d) {
      assert s.owner.expireAt * MS <= time + d;
    }
  }

  lemma ActKeepsSelf(cfg: Config, s: Redis, time: int, t: Token, l: Lease, now: int, a: Action)
    requires Sound(cfg) && LeaseOk(cfg, s, time, t, l) && s.now == Stamp(time) && now == time + l.offset
    requires CanAct(cfg, l, a) && StoreOk(cfg.kind, s)
    ensures var (s', l') := ActStep(cfg, s, t, l, now, a);
            LeaseOk(cfg, s', time, t, l') && l'.offset == l.offset && s'.now == s.now
  {
    match a
    case ExecAcquire =>
      var stamp, ttl, timeout := Stamp(l.attempt), TtlMs(cfg.ttl), WaiterTimeout(cfg.ttl);
      var (s', r) := AcquireScript(cfg.kind, s, t, l.role, stamp, ttl, timeout);
      AcquireOutcome(cfg.kind, s, t, l.role, stamp, ttl, timeout);
      if l.role.Exclusive? {
        KeyExecKeeps(cfg, s, time, t, l, s', r);
      } else {
        SetExecKeeps(cfg, s, time, t, l, s', r);
      }
    case ExecRenew(r) => ExecRenewKeeps(cfg, s, time, t, l, r);
    case Receive => ReplyKeeps(cfg, s, time, t, l);
    case ReceiveRenew(r) => RenewReplyKeeps(cfg, s, time, t, l, r);
    case ExecRelease => ReleaseKeeps(cfg, s, time, t, l);
    case _ => ClientStepKeeps(cfg, s, time, t, l, a);
  }

  /** The clock reading that an action of `k` stamps on the server, if any. */
  function StampedAt(k: Lease, a: Action): int { if a.ExecRenew? then a.start else k.attempt }

  lemma ActForeign(cfg: Config, s: Redis, u: Token, k: Lease, now: int, a: Action, t: Token)
    requires CanAct(cfg, k, a) && t != u && StoreOk(cfg.kind, s) && RoleFits(cfg.kind, k.role)
    ensures Foreign(s, ActStep(cfg, s, u, k, now, a).0, t, Stamp(StampedAt(k, a)))
  {
    var cut, ttl, timeout := Stamp(StampedAt(k, a)), TtlMs(cfg.ttl), WaiterTimeout(cfg.ttl);
    match a
    case ExecAcquire =>
      var (s', r) := AcquireScript(cfg.kind, s, u, k.role, cut, ttl, timeout);
      AcquireOutcome(cfg.kind, s, u, k.role, cut, ttl, timeout);
      AcquireForeign(cfg.kind, s, u, k.role, cut, ttl, s', r, t);
    case ExecRenew(r) => RenewForeign(s, u, k.role, cut, ttl, t);
    case ExecRelease => ReleaseForeign(s, u, k.role, t, cut);
    case _ =>
  }

  /** An action of `u` leaves every other lease as sound as it was. */
  lemma OthersKept(cfg: Config, w: World, u: Token, stamped: int, s: Redis)
    requires Sound(cfg) && Inv(cfg, w) && u in w.leases && stamped <= Reading(w, w.leases[u])
    requires forall t :: t in w.leases && t != u ==> Foreign(w.redis, s, t, Stamp(stamped))
    ensures forall t :: t in w.leases && t != u ==> LeaseOk(cfg, s, w.time, t, w.leases[t])
  {
    forall t | t in w.leases && t != u
      ensures LeaseOk(cfg, s, w.time, t, w.leases[t])
    {
      assert Close(w.leases[u].offset, w.leases[t].offset, cfg.skew);
      StampBounds(stamped);
      ForeignKeeps(cfg, w.redis, s, w.time, t, w.leases[t], Stamp(stamped));
    }
  }

  // ---------------------------------------------------------------- the store itself

  lemma {:induction false} GrantCount(permits: map<Permit, int>, t: Token, n: nat, score: int)
    ensures |Grant(permits, t, n, score)| <= |permits| + n
  {
    if n > 0 {
      GrantCount(permits, t, n - 1, score);
      var less, more := Grant(permits, t, n - 1, score), Grant(permits, t, n, score);
      assert more.Keys == less.Keys + {Permit(t, n - 1)};
      assert |more| == |more.Keys| && |less| == |less.Keys|;
    }
  }

  lemma AcquireKeepsStore(k: Kind, s: Redis, t: Token, role: Role, stamp: int, ttl: int, s': Redis, r: Option<nat>)
    requires StoreOk(k, s) && RoleFits(k, role) && Outcome(k, s, t, role, stamp, ttl, s', r)
    ensures StoreOk(k, s')
  {
    if k.Semaphore? {
      var live := Reclaim(s.permits, stamp);
      FewerKeys(live, s.permits);
      GrantCount(live, t, role.n, stamp + ttl);
    }
  }

  lemma RenewKeepsStore(k: Kind, s: Redis, t: Token, role: Role, stamp: int, ttl: int)
    requires StoreOk(k, s) && RoleFits(k, role)
    ensures StoreOk(k, RenewScript(s, t, role, stamp, ttl).0)
  {
    if role.Shared? && OwnsAll(s.permits, t, role.n, stamp) {
      assert Permit(t, 0) in s.permits;
      var renewed := Grant(s.permits, t, role.n, stamp + ttl);
      GrantAdds(s.permits, t, role.n, stamp + ttl);
      forall p | p in renewed
        ensures p in s.permits
      {
        assert p.id == t && p.index < role.n ==> p == Permit(t, p.index);
      }
      FewerKeys(renewed, s.permits);
    }
  }

  lemma ReleaseKeepsStore(k: Kind, s: Redis, t: Token, role: Role)
    requires StoreOk(k, s)
    ensures StoreOk(k, ReleaseScript(s, t, role))
  {
    if role.Shared? {
      var left := Drop(s.permits, t, role.n);
      DropRemoves(s.permits, t, role.n);
      FewerKeys(left, s.permits);
      assert s.permits == map[] ==> left == map[];
    }
  }

  /** Records are added only in the name of the lease that acts. */
  ghost predicate AddsOwn(s: Redis, s': Redis, t: Token) {
    && (s'.owner.Owned? ==> OwnedBy(s', t) || s'.owner == s.owner)
    && (forall p :: p in s'.permits ==> p.id == t || p in s.permits)
  }

  lemma AcquireAddsOwn(k: Kind, s: Redis, t: Token, role: Role, stamp: int, ttl: int, s': Redis, r: Option<nat>)
    requires Outcome(k, s, t, role, stamp, ttl, s', r)
    ensures AddsOwn(s, s', t)
  {
    if role.Shared? { GrantAdds(Cleared(k, s.permits, stamp), t, role.n, stamp + ttl); }
  }

  lemma RenewAddsOwn(s: Redis, t: Token, role: Role, stamp: int, ttl: int)
    ensures AddsOwn(s, RenewScript(s, t, role, stamp, ttl).0, t)
  {
    if role.Shared? { GrantAdds(s.permits, t, role.n, stamp + ttl); }
  }

  lemma ReleaseAddsOwn(s: Redis, t: Token, role: Role)
    ensures AddsOwn(s, ReleaseScript(s, t, role), t)
  {
    if role.Shared? { DropRemoves(s.permits, t, role.n); }
  }

  lemma ActKeepsStore(cfg: Config, s: Redis, t: Token, l: Lease, now: int, a: Action)
    requires StoreOk(cfg.kind, s) && RoleFits(cfg.kind, l.role) && CanAct(cfg, l, a)
    ensures StoreOk(cfg.kind, ActStep(cfg, s, t, l, now, a).0)
    ensures AddsOwn(s, ActStep(cfg, s, t, l, now, a).0, t)
  {
    match a
    case ExecAcquire =>
      var stamp, ttl, timeout := Stamp(l.attempt), TtlMs(cfg.ttl), WaiterTimeout(cfg.ttl);
      var (s', r) := AcquireScript(cfg.kind, s, t, l.role, stamp, ttl, timeout);
      AcquireOutcome(cfg.kind, s, t, l.role, stamp, ttl, timeout);
      AcquireKeepsStore(cfg.kind, s, t, l.role, stamp, ttl, s', r);
      AcquireAddsOwn(cfg.kind, s, t, l.role, stamp, ttl, s', r);
    case ExecRenew(r) =>
      RenewKeepsStore(cfg.kind, s, t, l.role, Stamp(r), TtlMs(cfg.ttl));
      RenewAddsOwn(s, t, l.role, Stamp(r), TtlMs(cfg.ttl));
    case ExecRelease =>
      ReleaseKeepsStore(cfg.kind, s, t, l.role);
      ReleaseAddsOwn(s, t, l.role);
    case _ =>
  }

  // ---------------------------------------------------------------- the invariant over runs

  lemma PassKeepsInv(cfg: Config, w: World, d: nat)
    requires Inv(cfg, w)
    ensures Inv(cfg, Next(cfg, w, Pass(d)))
  {
    var w' := Next(cfg, w, Pass(d));
    forall t | t in w.leases ensures LeaseOk(cfg, w'.redis, w'.time, t, w'.leases[t]) {
      PassKeeps(cfg, w.redis, w.time, d, t, w.leases[t]);
    }
  }

  lemma CreateKeepsInv(cfg: Config, w: World, t: Token, role: Role, offset: int)
    requires Inv(cfg, w) && Enabled(cfg, w, Create(t, role, offset))
    ensures Inv(cfg, Next(cfg, w, Create(t, role, offset)))
  {
    assert !OwnedBy(w.redis, t) && forall i: nat :: Permit(t, i) !in w.redis.permits;
  }

  /** A server state `s` and a lease state `k` of `u` that may follow `w`. */
  ghost predicate Continues(cfg: Config, w: World, u: Token, s: Redis, k: Lease)
    requires u in w.leases
  {
    && k.offset == w.leases[u].offset && s.now == w.redis.now
    && StoreOk(cfg.kind, s) && AddsOwn(w.redis, s, u)
    && LeaseOk(cfg, s, w.time, u, k)
    && forall t {:trigger LeaseOk(cfg, s, w.time, t, w.leases[t])} :: t in w.leases && t != u ==>
         LeaseOk(cfg, s, w.time, t, w.leases[t])
  }

  lemma ActKeepsOthers(cfg: Config, w: World, u: Token, a: Action)
    requires Sound(cfg) && Inv(cfg, w) && Enabled(cfg, w, Act(u, a))
    ensures var s := ActStep(cfg, w.redis, u, w.leases[u], Reading(w, w.leases[u]), a).0;
            forall t :: t in w.leases && t != u ==> LeaseOk(cfg, s, w.time, t, w.leases[t])
  {
    var k := w.leases[u];
    assert LeaseOk(cfg, w.redis, w.time, u, k);
    forall t | t in w.leases && t != u
      ensures Foreign(w.redis, ActStep(cfg, w.redis, u, k, Reading(w, k), a).0, t, Stamp(StampedAt(k, a)))
    {
      ActForeign(cfg, w.redis, u, k, Reading(w, k), a, t);
    }
    OthersKept(cfg, w, u, StampedAt(k, a), ActStep(cfg, w.redis, u, k, Reading(w, k), a).0);
  }

  lemma ActContinues(cfg: Config, w: World, u: Token, a: Action)
    requires Sound(cfg) && Inv(cfg, w) && Enabled(cfg, w, Act(u, a))
    ensures var (s, k) := ActStep(cfg, w.redis, u, w.leases[u], Reading(w, w.leases[u]), a);
            Continues(cfg, w, u, s, k)
  {
    var k := w.leases[u];
    assert LeaseOk(cfg, w.redis, w.time, u, k);
    ActKeepsOthers(cfg, w, u, a);
    ActKeepsStore(cfg, w.redis, u, k, Reading(w, k), a);
    ActKeepsSelf(cfg, w.redis, w.time, u, k, Reading(w, k), a);
  }

  lemma Reassemble(cfg: Config, w: World, u: Token, s: Redis, k: Lease)
    requires Inv(cfg, w) && u in w.leases && Continues(cfg, w, u, s, k)
    ensures Inv(cfg, w.(redis := s, leases := w.leases[u := k]))
  {
  }

  lemma ActKeepsInv(cfg: Config, w: World, u: Token, a: Action)
    requires Sound(cfg) && Inv(cfg, w) && Enabled(cfg, w, Act(u, a))
    ensures Inv(cfg, Next(cfg, w, Act(u, a)))
  {
    var (s, k) := ActStep(cfg, w.redis, u, w.leases[u], Reading(w, w.leases[u]), a);
    ActContinues(cfg, w, u, a);
    Reassemble(cfg, w, u, s, k);
  }

  lemma StepKeepsInv(cfg: Config, w: World, e: Event)
    requires Sound(cfg) && Inv(cfg, w) && Enabled(cfg, w, e)
    ensures Inv(cfg, Next(cfg, w, e))
  {
    match e
    case Pass(d) => PassKeepsInv(cfg, w, d);
    case Create(t, role, offset) => CreateKeepsInv(cfg, w, t, role, offset);
    case Act(u, a) => ActKeepsInv(cfg, w, u, a);
  }

  lemma {:induction false} RunKeepsInv(cfg: Config, worlds: seq<World>, events: seq<Event>, i: nat)
    requires Sound(cfg) && IsRun(cfg, worlds, events) && i < |worlds|
    ensures Inv(cfg, worlds[i])
  {
    if i > 0 {
      RunKeepsInv(cfg, worlds, events, i - 1);
      StepKeepsInv(cfg, worlds[i - 1], events[i - 1]);
    }
  }
}
