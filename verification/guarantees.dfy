/** What the lease protocol guarantees to its users, in every reachable world of every run. */
module Guarantees {
  import opened Store
  import opened Clock
  import opened Protocol
  import opened Safety

  // ---------------------------------------------------------------- ownership and exclusion

  /** A lease its holder believes valid is owned on the server: the key holds its token, or all of its members are
      present, and the server record outlives the local deadline (of a shared lease, on everyone's clock). Only shared
      leases need client clocks that agree. */
  lemma ValidityImpliesOwnership(cfg: Config, worlds: seq<World>, events: seq<Event>, i: nat, t: Token)
    requires Sound(cfg) && IsRun(cfg, worlds, events) && i < |worlds| && Valid(worlds[i], t)
    requires worlds[i].leases[t].role.Shared? ==> Steadfast(cfg)
    ensures var w := worlds[i]; var l := w.leases[t];
            match l.role
            case Exclusive => OwnedBy(w.redis, t) && Covers(w.redis.owner.expireAt, l.offset, l.expiresAt)
            case Shared(n) => forall j: nat :: j < n ==> (
                Permit(t, j) in w.redis.permits && l.expiresAt <= w.redis.permits[Permit(t, j)] * MS - cfg.skew)
  {
    RunKeepsInv(cfg, worlds, events, i);
    assert LeaseOk(cfg, worlds[i].redis, worlds[i].time, t, worlds[i].leases[t]);
  }

  /** A valid exclusive holder is alone: no other lease is valid at the same time. Two holders of a mutex, or two
      writers, exclude each other whatever their clocks say; a reader's clock has to agree with the writer's. */
  lemma MutualExclusion(cfg: Config, worlds: seq<World>, events: seq<Event>, i: nat, t: Token, u: Token)
    requires Sound(cfg) && IsRun(cfg, worlds, events) && i < |worlds|
    requires u in worlds[i].leases && worlds[i].leases[u].role.Shared? ==> Steadfast(cfg)
    requires Valid(worlds[i], t) && worlds[i].leases[t].role == Exclusive && t != u
    ensures !Valid(worlds[i], u)
  {
    RunKeepsInv(cfg, worlds, events, i);
    if Valid(worlds[i], u) {
      assert LeaseOk(cfg, worlds[i].redis, worlds[i].time, u, worlds[i].leases[u]);
      ValidityImpliesOwnership(cfg, worlds, events, i, t);
    }
  }

  // ---------------------------------------------------------------- permits

  /** The members of a grant of `n` permits. */
  function Members(id: Token, n: nat): (ps: set<Permit>)
    ensures forall p :: p in ps <==> p.id == id && p.index < n
  {
    if n == 0 then {} else Members(id, n - 1) + {Permit(id, n - 1)}
  }

  lemma {:induction false} MembersCount(id: Token, n: nat)
    ensures |Members(id, n)| == n
  {
    if n > 0 { MembersCount(id, n - 1); }
  }

  predicate Sharing(w: World, ts: seq<Token>) {
    forall i :: 0 <= i < |ts| ==> ts[i] in w.leases && w.leases[ts[i]].role.Shared?
  }

  /** The number of permits that the leases `ts` stand for. */
  function Load(w: World, ts: seq<Token>): nat
    requires Sharing(w, ts)
  {
    if ts == [] then 0 else w.leases[ts[0]].role.n + Load(w, ts[1..])
  }

  ghost predicate Distinct(ts: seq<Token>) { forall i, j :: 0 <= i < j < |ts| ==> ts[i] != ts[j] }

  ghost predicate AllPresent(w: World, ts: seq<Token>)
    requires Sharing(w, ts)
  {
    forall i :: 0 <= i < |ts| ==> Members(ts[i], w.leases[ts[i]].role.n) <= w.redis.permits.Keys
  }

  /** The permits of any collection of grants, counted together, fit into the sorted set. */
  lemma {:induction false} GrantsFit(w: World, ts: seq<Token>, room: set<Permit>)
    requires Sharing(w, ts) && Distinct(ts) && AllPresent(w, ts)
    requires forall p :: p in w.redis.permits && p.id in ts ==> p in room
    ensures Load(w, ts) <= |room|
  {
    if ts != [] {
      var mine := Members(ts[0], w.leases[ts[0]].role.n);
      assert mine <= room;
      assert forall t :: t in ts[1..] ==> t in ts && t != ts[0];
      GrantsFit(w, ts[1..], room - mine);
      assert room == mine + (room - mine);
      MembersCount(ts[0], w.leases[ts[0]].role.n);
    }
  }

  /** The permits of all valid holders together never exceed the capacity. */
  lemma CapacityRespected(cfg: Config, worlds: seq<World>, events: seq<Event>, i: nat, ts: seq<Token>)
    requires Sound(cfg) && Steadfast(cfg) && IsRun(cfg, worlds, events) && i < |worlds| && cfg.kind.Semaphore?
    requires Distinct(ts) && forall j :: 0 <= j < |ts| ==> Valid(worlds[i], ts[j])
    ensures Sharing(worlds[i], ts)
    ensures Load(worlds[i], ts) <= |worlds[i].redis.permits| <= cfg.kind.capacity
  {
    var w := worlds[i];
    RunKeepsInv(cfg, worlds, events, i);
    forall j | 0 <= j < |ts|
      ensures && ts[j] in w.leases && w.leases[ts[j]].role.Shared?
              && Members(ts[j], w.leases[ts[j]].role.n) <= w.redis.permits.Keys
    {
      assert LeaseOk(cfg, w.redis, w.time, ts[j], w.leases[ts[j]]);
      ValidityImpliesOwnership(cfg, worlds, events, i, ts[j]);
    }
    GrantsFit(w, ts, w.redis.permits.Keys);
  }

  /** Exactly the members of index below `n` are present for `t`, all with one score. */
  ghost predicate Complete(permits: map<Permit, int>, t: Token, n: nat, score: int) {
    forall p: Permit :: p.id == t ==> (p in permits <==> p.index < n) && (p in permits ==> permits[p] == score)
  }

  lemma WholeIsComplete(permits: map<Permit, int>, t: Token, n: nat, p: Permit)
    requires Whole(permits, t, n) && p in permits && p.id == t
    ensures Permit(t, 0) in permits && Complete(permits, t, n, permits[Permit(t, 0)])
  {
    assert p == Permit(t, p.index);
    forall q: Permit | q.id == t
      ensures (q in permits <==> q.index < n) && (q in permits ==> permits[q] == permits[Permit(t, 0)])
    {
      assert q == Permit(t, q.index);
    }
  }

  /** A grant of several permits is never seen in part, in any phase of its lease. */
  lemma AllOrNothing(cfg: Config, worlds: seq<World>, events: seq<Event>, i: nat, t: Token)
    requires Sound(cfg) && IsRun(cfg, worlds, events) && i < |worlds|
    requires t in worlds[i].leases && worlds[i].leases[t].role.Shared?
    ensures var permits, n := worlds[i].redis.permits, worlds[i].leases[t].role.n;
            (forall p :: p in permits ==> p.id != t) || (exists score :: Complete(permits, t, n, score))
  {
    RunKeepsInv(cfg, worlds, events, i);
    var w := worlds[i];
    assert LeaseOk(cfg, w.redis, w.time, t, w.leases[t]);
    if p :| p in w.redis.permits && p.id == t {
      WholeIsComplete(w.redis.permits, t, w.leases[t].role.n, p);
    }
  }

  // ---------------------------------------------------------------- fencing tokens

  /** The fencing token a lease has been told, or is about to be told. */
  function Told(l: Lease): nat {
    match l.phase
    case Trying(Granted(f)) => f
    case _ => l.fence
  }

  predicate Fenced(k: Kind) { k == Mutex(true) || k == ReadWrite }

  /** What the lease `l` of `t` was told, against the counter of `s`: never more than it, and exactly it while a grant
      still owned awaits its reply or the holder is valid. */
  ghost predicate FenceLeaseOk(s: Redis, time: int, t: Token, l: Lease) {
    && Told(l) <= s.fencing
    && (l.phase.Idle? || l.phase.Trying? ==> l.fence == 0)
    && (l.role.Shared? ==> Told(l) == 0)
    && (OwnedBy(s, t) && l.phase.Trying? && l.phase.reply.Granted? ==> l.phase.reply.fence == s.fencing)
    && (s.owner.Owned? && s.owner.token != t ==> Told(l) < s.fencing)
    && (l.role.Exclusive? && l.phase == Held && time + l.offset < l.expiresAt ==> l.fence == s.fencing)
  }

  /** No two leases were told the same token. */
  ghost predicate Unshared(l: Lease, k: Lease) { Told(l) > 0 ==> Told(l) != Told(k) }

  ghost predicate FenceOk(w: World) {
    && (forall t {:trigger FenceLeaseOk(w.redis, w.time, t, w.leases[t])} :: t in w.leases ==>
          FenceLeaseOk(w.redis, w.time, t, w.leases[t]))
    && (forall t, u {:trigger Unshared(w.leases[t], w.leases[u])} :: t in w.leases && u in w.leases && t != u ==>
          Unshared(w.leases[t], w.leases[u]))
    && (w.redis.owner.Owned? ==> w.redis.fencing > 0)
  }

  /** An execution by `u` with outcome `s'`, seen by another lease. */
  lemma ExecFenceOther(cfg: Config, s: Redis, time: int, u: Token, role: Role, stamp: int, s': Redis, r: Option<nat>,
                       t: Token, l: Lease)
    requires Fenced(cfg.kind) && Outcome(cfg.kind, s, u, role, stamp, TtlMs(cfg.ttl), s', r) && t != u
    requires LeaseOk(cfg, s, time, t, l) && FenceLeaseOk(s, time, t, l)
    ensures FenceLeaseOk(s', time, t, l)
  {
  }

  lemma ExecFenceSelf(cfg: Config, s: Redis, time: int, u: Token, k: Lease, s': Redis, r: Option<nat>)
    requires Fenced(cfg.kind) && Outcome(cfg.kind, s, u, k.role, Stamp(k.attempt), TtlMs(cfg.ttl), s', r)
    requires LeaseOk(cfg, s, time, u, k) && FenceLeaseOk(s, time, u, k)
    ensures FenceLeaseOk(s', time, u, AfterExec(k, r))
  {
  }

  /** Told a token by an execution, a lease is told one that nobody else was. */
  lemma ExecUnshared(cfg: Config, s: Redis, u: Token, k: Lease, stamp: int, s': Redis, r: Option<nat>,
                     time: int, t: Token, l: Lease)
    requires Fenced(cfg.kind) && Outcome(cfg.kind, s, u, k.role, stamp, TtlMs(cfg.ttl), s', r) && t != u
    requires FenceLeaseOk(s, time, t, l) && Unshared(k, l) && Unshared(l, k) && FenceLeaseOk(s, time, u, k)
    ensures Unshared(AfterExec(k, r), l) && Unshared(l, AfterExec(k, r))
  {
  }

  /** Any action but an execution of the acquisition script. */
  lemma QuietFence(cfg: Config, s: Redis, time: int, u: Token, k: Lease, a: Action)
    requires CanAct(cfg, k, a) && !a.ExecAcquire? && LeaseOk(cfg, s, time, u, k) && FenceLeaseOk(s, time, u, k)
    ensures var (s', k') := ActStep(cfg, s, u, k, time + k.offset, a);
            && FenceLeaseOk(s', time, u, k') && s'.fencing == s.fencing
            && (Told(k') == Told(k) || Told(k') == 0)
            && (s'.owner.Owned? ==> s.owner.Owned? && s.owner.token == s'.owner.token)
  {
  }

  ghost predicate FenceContinues(w: World, u: Token, s: Redis, k: Lease)
    requires u in w.leases
  {
    && (s.owner.Owned? ==> s.fencing > 0)
    && FenceLeaseOk(s, w.time, u, k)
    && forall t :: t in w.leases && t != u ==>
         && FenceLeaseOk(s, w.time, t, w.leases[t])
         && Unshared(k, w.leases[t]) && Unshared(w.leases[t], k)
  }

  lemma FenceReassemble(w: World, u: Token, s: Redis, k: Lease)
    requires FenceOk(w) && u in w.leases && FenceContinues(w, u, s, k)
    ensures FenceOk(w.(redis := s, leases := w.leases[u := k]))
  {
    var w' := w.(redis := s, leases := w.leases[u := k]);
    forall t, v | t in w'.leases && v in w'.leases && t != v
      ensures Unshared(w'.leases[t], w'.leases[v])
    {
      assert t != u && v != u ==> Unshared(w.leases[t], w.leases[v]);
    }
  }

  /** Such an action by `u`, seen by another lease. */
  lemma QuietFenceOther(s: Redis, s': Redis, k: Lease, k': Lease, time: int, t: Token, l: Lease)
    requires FenceLeaseOk(s, time, t, l) && s'.fencing == s.fencing && Unshared(k, l) && Unshared(l, k)
    requires Told(k') == Told(k) || Told(k') == 0
    requires s'.owner.Owned? ==> s.owner.Owned? && s.owner.token == s'.owner.token
    ensures FenceLeaseOk(s', time, t, l) && Unshared(k', l) && Unshared(l, k')
  {
  }

  lemma QuietContinues(w: World, u: Token, s: Redis, k: Lease)
    requires FenceOk(w) && u in w.leases && FenceLeaseOk(s, w.time, u, k) && s.fencing == w.redis.fencing
    requires Told(k) == Told(w.leases[u]) || Told(k) == 0
    requires s.owner.Owned? ==> w.redis.owner.Owned? && w.redis.owner.token == s.owner.token
    ensures FenceContinues(w, u, s, k)
  {
    forall t | t in w.leases && t != u
      ensures && FenceLeaseOk(s, w.time, t, w.leases[t])
              && Unshared(k, w.leases[t]) && Unshared(w.leases[t], k)
    {
      assert FenceLeaseOk(w.redis, w.time, t, w.leases[t]);
      assert Unshared(w.leases[u], w.leases[t]) && Unshared(w.leases[t], w.leases[u]);
      QuietFenceOther(w.redis, s, w.leases[u], k, w.time, t, w.leases[t]);
    }
  }

  lemma QuietFenceAct(cfg: Config, w: World, u: Token, a: Action)
    requires Inv(cfg, w) && FenceOk(w) && Enabled(cfg, w, Act(u, a)) && !a.ExecAcquire?
    ensures var (s, k) := ActStep(cfg, w.redis, u, w.leases[u], Reading(w, w.leases[u]), a);
            FenceContinues(w, u, s, k)
  {
    var l := w.leases[u];
    var (s, k) := ActStep(cfg, w.redis, u, l, Reading(w, l), a);
    assert LeaseOk(cfg, w.redis, w.time, u, l) && FenceLeaseOk(w.redis, w.time, u, l);
    QuietFence(cfg, w.redis, w.time, u, l, a);
    QuietContinues(w, u, s, k);
  }

  lemma ExecFenceAct(cfg: Config, w: World, u: Token, s: Redis, r: Option<nat>)
    requires Fenced(cfg.kind) && Inv(cfg, w) && FenceOk(w) && Enabled(cfg, w, Act(u, ExecAcquire))
    requires Outcome(cfg.kind, w.redis, u, w.leases[u].role, Stamp(w.leases[u].attempt), TtlMs(cfg.ttl), s, r)
    ensures FenceContinues(w, u, s, AfterExec(w.leases[u], r))
  {
    var l := w.leases[u];
    assert LeaseOk(cfg, w.redis, w.time, u, l) && FenceLeaseOk(w.redis, w.time, u, l);
    ExecFenceSelf(cfg, w.redis, w.time, u, l, s, r);
    forall t | t in w.leases && t != u
      ensures && FenceLeaseOk(s, w.time, t, w.leases[t])
              && Unshared(AfterExec(l, r), w.leases[t]) && Unshared(w.leases[t], AfterExec(l, r))
    {
      var k := w.leases[t];
      assert LeaseOk(cfg, w.redis, w.time, t, k) && FenceLeaseOk(w.redis, w.time, t, k);
      assert Unshared(l, k) && Unshared(k, l);
      ExecFenceOther(cfg, w.redis, w.time, u, l.role, Stamp(l.attempt), s, r, t, k);
      ExecUnshared(cfg, w.redis, u, l, Stamp(l.attempt), s, r, w.time, t, k);
    }
  }

  lemma PassKeepsFence(cfg: Config, w: World, d: nat)
    requires FenceOk(w)
    ensures FenceOk(Next(cfg, w, Pass(d)))
  {
    var w' := Next(cfg, w, Pass(d));
    forall t | t in w.leases ensures FenceLeaseOk(w'.redis, w'.time, t, w'.leases[t]) {
      assert FenceLeaseOk(w.redis, w.time, t, w.leases[t]);
    }
    assert forall t, u :: t in w.leases && u in w.leases && t != u ==> Unshared(w.leases[t], w.leases[u]);
  }

  lemma CreateKeepsFence(cfg: Config, w: World, t: Token, role: Role, offset: int)
    requires FenceOk(w) && Enabled(cfg, w, Create(t, role, offset))
    ensures FenceOk(Next(cfg, w, Create(t, role, offset)))
  {
    var w' := Next(cfg, w, Create(t, role, offset));
    forall u | u in w'.leases ensures FenceLeaseOk(w'.redis, w'.time, u, w'.leases[u]) {
      assert u != t ==> FenceLeaseOk(w.redis, w.time, u, w.leases[u]);
    }
    forall u, v | u in w'.leases && v in w'.leases && u != v ensures Unshared(w'.leases[u], w'.leases[v]) {
      assert u != t && v != t ==> Unshared(w.leases[u], w.leases[v]);
    }
  }

  lemma ActKeepsFence(cfg: Config, w: World, u: Token, a: Action)
    requires Fenced(cfg.kind) && Inv(cfg, w) && FenceOk(w) && Enabled(cfg, w, Act(u, a))
    ensures FenceOk(Next(cfg, w, Act(u, a)))
  {
    var l := w.leases[u];
    var (s, k) := ActStep(cfg, w.redis, u, l, Reading(w, l), a);
    if a.ExecAcquire? {
      assert LeaseOk(cfg, w.redis, w.time, u, l);
      var stamp, ttl, timeout := Stamp(l.attempt), TtlMs(cfg.ttl), WaiterTimeout(cfg.ttl);
      AcquireOutcome(cfg.kind, w.redis, u, l.role, stamp, ttl, timeout);
      ExecFenceAct(cfg, w, u, s, AcquireScript(cfg.kind, w.redis, u, l.role, stamp, ttl, timeout).1);
    } else {
      QuietFenceAct(cfg, w, u, a);
    }
    FenceReassemble(w, u, s, k);
  }

  lemma StepKeepsFence(cfg: Config, w: World, e: Event)
    requires Fenced(cfg.kind) && Inv(cfg, w) && FenceOk(w) && Enabled(cfg, w, e)
    ensures FenceOk(Next(cfg, w, e))
  {
    match e
    case Pass(d) => PassKeepsFence(cfg, w, d);
    case Create(t, role, offset) => CreateKeepsFence(cfg, w, t, role, offset);
    case Act(u, a) => ActKeepsFence(cfg, w, u, a);
  }

  lemma StartKeepsFence(w: World)
    requires Initial(w)
    ensures FenceOk(w)
  {
  }

  lemma {:induction false} RunKeepsFence(cfg: Config, worlds: seq<World>, events: seq<Event>, i: nat)
    requires Sound(cfg) && Fenced(cfg.kind) && IsRun(cfg, worlds, events) && i < |worlds|
    ensures FenceOk(worlds[i])
  {
    if i > 0 {
      RunKeepsFence(cfg, worlds, events, i - 1);
      RunKeepsInv(cfg, worlds, events, i - 1);
      assert Enabled(cfg, worlds[i - 1], events[i - 1]);
      StepKeepsFence(cfg, worlds[i - 1], events[i - 1]);
    } else {
      StartKeepsFence(worlds[0]);
    }
  }

  /** A valid holder carries the newest fencing token: the counter itself, above every token anyone else ever got. */
  lemma ValidHolderHasNewestToken(cfg: Config, worlds: seq<World>, events: seq<Event>, i: nat, t: Token, u: Token)
    requires Sound(cfg) && Fenced(cfg.kind) && IsRun(cfg, worlds, events) && i < |worlds|
    requires Valid(worlds[i], t) && worlds[i].leases[t].role == Exclusive && u in worlds[i].leases && u != t
    ensures worlds[i].leases[t].fence == worlds[i].redis.fencing
    ensures worlds[i].leases[u].fence < worlds[i].leases[t].fence
  {
    RunKeepsInv(cfg, worlds, events, i);
    RunKeepsFence(cfg, worlds, events, i);
    assert LeaseOk(cfg, worlds[i].redis, worlds[i].time, t, worlds[i].leases[t]);
    assert FenceLeaseOk(worlds[i].redis, worlds[i].time, t, worlds[i].leases[t]);
    assert FenceLeaseOk(worlds[i].redis, worlds[i].time, u, worlds[i].leases[u]);
  }

  /** A repeated execution of an acquisition that is still owned returns the token already minted and changes neither
      counter, nor expiry, nor queue. */
  lemma ReplayReturnsOriginal(cfg: Config, worlds: seq<World>, events: seq<Event>, i: nat, t: Token)
    requires Sound(cfg) && Fenced(cfg.kind) && IsRun(cfg, worlds, events) && i < |worlds|
    requires t in worlds[i].leases && worlds[i].leases[t].role == Exclusive
    requires Valid(worlds[i], t) || (OwnedBy(worlds[i].redis, t) && worlds[i].leases[t].phase.Trying?
                                     && worlds[i].leases[t].phase.reply.Granted?)
    ensures var w := worlds[i]; var stamp := Stamp(w.leases[t].attempt);
            AcquireScript(cfg.kind, w.redis, t, Exclusive, stamp, TtlMs(cfg.ttl), WaiterTimeout(cfg.ttl)) ==
            (w.redis, Some(Told(w.leases[t])))
  {
    RunKeepsFence(cfg, worlds, events, i);
    assert FenceLeaseOk(worlds[i].redis, worlds[i].time, t, worlds[i].leases[t]);
    if Valid(worlds[i], t) { ValidityImpliesOwnership(cfg, worlds, events, i, t); }
  }

  /** A lease learns a token only by an execution that leaves it the owner, and keeps what it was handed. */
  lemma TokenLearned(cfg: Config, s: Redis, t: Token, l: Lease, now: int, a: Action)
    requires Fenced(cfg.kind) && CanAct(cfg, l, a) && StoreOk(cfg.kind, s) && RoleFits(cfg.kind, l.role)
    requires l.phase.Idle? || l.phase.Trying? ==> l.fence == 0
    ensures var (s', l') := ActStep(cfg, s, t, l, now, a);
            && (Told(l') == Told(l) || Told(l') == 0 || (OwnedBy(s', t) && Told(l') == s'.fencing))
            && (l.fence > 0 ==> l'.fence == l.fence && Told(l') == l.fence)
  {
    if a.ExecAcquire? {
      AcquireOutcome(cfg.kind, s, t, l.role, Stamp(l.attempt), TtlMs(cfg.ttl), WaiterTimeout(cfg.ttl));
    }
  }

  /** `u` holds token `f`, and `t` has learned nothing yet, or something larger. */
  ghost predicate Ranked(w: World, u: Token, f: nat, t: Token) {
    && u in w.leases && w.leases[u].fence == f
    && (t in w.leases ==> Told(w.leases[t]) == 0 || f < Told(w.leases[t]))
  }

  lemma RankedStep(cfg: Config, w: World, e: Event, u: Token, f: nat, t: Token)
    requires Sound(cfg) && Fenced(cfg.kind) && Inv(cfg, w) && FenceOk(w) && Enabled(cfg, w, e)
    requires t != u && f > 0 && Ranked(w, u, f, t)
    ensures Ranked(Next(cfg, w, e), u, f, t)
  {
    var w' := Next(cfg, w, e);
    if e.Act? {
      var l := w.leases[e.token];
      assert LeaseOk(cfg, w.redis, w.time, e.token, l) && FenceLeaseOk(w.redis, w.time, e.token, l);
      TokenLearned(cfg, w.redis, e.token, l, Reading(w, l), e.action);
      ActKeepsFence(cfg, w, e.token, e.action);
      assert FenceLeaseOk(w'.redis, w'.time, u, w'.leases[u]);
    }
  }

  lemma RunRanked(cfg: Config, worlds: seq<World>, events: seq<Event>, i: nat, u: Token, f: nat, t: Token)
    requires Sound(cfg) && Fenced(cfg.kind) && IsRun(cfg, worlds, events) && i < |events|
    requires t != u && f > 0 && Ranked(worlds[i], u, f, t)
    ensures Ranked(worlds[i + 1], u, f, t)
  {
    RunKeepsInv(cfg, worlds, events, i);
    RunKeepsFence(cfg, worlds, events, i);
    RankedStep(cfg, worlds[i], events[i], u, f, t);
  }

  /** Tokens grow along every run: a lease that learns its token after `u` was handed `f` learns a larger one. */
  lemma {:induction false} TokensStrictlyIncrease(
    cfg: Config, worlds: seq<World>, events: seq<Event>, i: nat, j: nat, u: Token, f: nat, t: Token)
    requires Sound(cfg) && Fenced(cfg.kind) && IsRun(cfg, worlds, events) && i <= j < |worlds|
    requires t != u && f > 0 && Ranked(worlds[i], u, f, t)
    ensures Ranked(worlds[j], u, f, t)
  {
    if i < j {
      TokensStrictlyIncrease(cfg, worlds, events, i, j - 1, u, f, t);
      RunRanked(cfg, worlds, events, j - 1, u, f, t);
    }
  }
}
