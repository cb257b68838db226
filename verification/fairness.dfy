/** First come, first served for the clients of the read-write lock: every event of the lease protocol is one command of
    a server history, or none, so what holds over all histories of the queue holds over all runs of the protocol. */
module Fairness {
  import opened Store
  import opened Clock
  import opened Protocol
  import A = ArrivalQueue

  /** The command that an event executes on the server, if any. */
  function CommandOf(cfg: Config, w: World, e: Event): Option<A.Command>
    requires Enabled(cfg, w, e)
  {
    match e
    case Pass(d) =>
      StampMonotone(w.time, w.time + d);
      Some(A.Tick(Stamp(w.time + d) - Stamp(w.time)))
    case Create(_, _, _) => None
    case Act(t, a) => ActCommand(cfg, w.leases[t], t, a)
  }

  function ActCommand(cfg: Config, l: Lease, t: Token, a: Action): Option<A.Command> {
    match a
    case ExecAcquire =>
      Some(if l.role.Exclusive? then A.Write(t, TtlMs(cfg.ttl), Stamp(l.attempt), WaiterTimeout(cfg.ttl))
           else A.Read(t, TtlMs(cfg.ttl), Stamp(l.attempt), WaiterTimeout(cfg.ttl)))
    case ExecRenew(r) =>
      Some(if l.role.Exclusive? then A.RenewWriter(t, TtlMs(cfg.ttl)) else A.RenewReader(t, TtlMs(cfg.ttl), Stamp(r)))
    case ExecRelease => Some(if l.role.Exclusive? then A.ReleaseWriter(t) else A.ReleaseReader(t))
    case DropRank => Some(A.RemoveRank(QueueEntry(t, l.role)))
    case DropSeen => Some(A.RemoveSeen(QueueEntry(t, l.role)))
    case _ => None
  }

  function Applied(s: Redis, c: Option<A.Command>): Redis { if c.Some? then A.Apply(s, c.value) else s }

  /** Who is newly admitted by an event. */
  function Admits(cfg: Config, w: World, e: Event): Option<Waiter>
    requires Enabled(cfg, w, e)
  {
    var c := CommandOf(cfg, w, e);
    if c.Some? then A.Grants(w.redis, c.value) else None
  }

  ghost predicate Fits(cfg: Config, w: World) {
    cfg.kind.ReadWrite? && forall t :: t in w.leases ==> RoleFits(cfg.kind, w.leases[t].role)
  }

  lemma ActIsCommand(cfg: Config, s: Redis, t: Token, l: Lease, now: int, a: Action)
    requires cfg.kind.ReadWrite? && RoleFits(cfg.kind, l.role) && CanAct(cfg, l, a)
    ensures ActStep(cfg, s, t, l, now, a).0 == Applied(s, ActCommand(cfg, l, t, a))
    ensures ActStep(cfg, s, t, l, now, a).1.role == l.role
  {
  }

  lemma EventIsCommand(cfg: Config, w: World, e: Event)
    requires Fits(cfg, w) && Enabled(cfg, w, e)
    ensures Next(cfg, w, e).redis == Applied(w.redis, CommandOf(cfg, w, e))
    ensures Fits(cfg, Next(cfg, w, e))
  {
    if e.Act? { ActIsCommand(cfg, w.redis, e.token, w.leases[e.token], Reading(w, w.leases[e.token]), e.action); }
  }

  lemma {:induction false} RunFits(cfg: Config, worlds: seq<World>, events: seq<Event>, i: nat)
    requires Protocol.IsRun(cfg, worlds, events) && cfg.kind.ReadWrite? && i < |worlds|
    ensures Fits(cfg, worlds[i]) && A.Ordered(worlds[i].redis.queue)
  {
    if i > 0 {
      RunFits(cfg, worlds, events, i - 1);
      var w, e := worlds[i - 1], events[i - 1];
      assert Enabled(cfg, w, e);
      EventIsCommand(cfg, w, e);
      var c := CommandOf(cfg, w, e);
      if c.Some? { A.StepEvolves(w.redis, c.value); }
    }
  }

  lemma StepStaysBehind(s: Redis, c: Option<A.Command>, a: Waiter, b: Waiter)
    requires A.Ordered(s.queue) && A.Before(s.queue, a, b) && A.Queued(Applied(s, c), a)
    ensures A.Before(Applied(s, c).queue, a, b)
  {
    if c.Some? { A.StepEvolves(s, c.value); }
  }

  lemma {:induction false} ClientStaysBehind(
    cfg: Config, worlds: seq<World>, events: seq<Event>, i: nat, j: nat, a: Waiter, b: Waiter)
    requires Protocol.IsRun(cfg, worlds, events) && cfg.kind.ReadWrite? && i <= j < |worlds|
    requires forall k :: i <= k <= j ==> A.Queued(worlds[k].redis, a)
    requires A.Before(worlds[i].redis.queue, a, b)
    ensures A.Before(worlds[j].redis.queue, a, b)
  {
    if i < j {
      ClientStaysBehind(cfg, worlds, events, i, j - 1, a, b);
      RunFits(cfg, worlds, events, j - 1);
      var w, e := worlds[j - 1], events[j - 1];
      assert Enabled(cfg, w, e) && worlds[j] == Next(cfg, w, e);
      EventIsCommand(cfg, w, e);
      assert A.Queued(worlds[j].redis, a);
      StepStaysBehind(w.redis, CommandOf(cfg, w, e), a, b);
    }
  }

  /** Over every run of the protocol, with lost, late and repeated executions: while the entry of `a` is present, no
      conflicting contender behind it is newly admitted. */
  lemma ClientsServedInOrder(cfg: Config, worlds: seq<World>, events: seq<Event>, i: nat, j: nat, a: Waiter, b: Waiter)
    requires Protocol.IsRun(cfg, worlds, events) && cfg.kind.ReadWrite? && i <= j < |events|
    requires forall k :: i <= k <= j + 1 ==> A.Queued(worlds[k].redis, a)
    requires A.Before(worlds[i].redis.queue, a, b) && A.Conflict(a, b)
    ensures Enabled(cfg, worlds[j], events[j]) && Admits(cfg, worlds[j], events[j]) != Some(b)
  {
    ClientStaysBehind(cfg, worlds, events, i, j, a, b);
    RunFits(cfg, worlds, events, j);
    var w, e := worlds[j], events[j];
    assert Enabled(cfg, w, e) && worlds[j + 1] == Next(cfg, w, e);
    EventIsCommand(cfg, w, e);
    assert A.Queued(worlds[j + 1].redis, a);
    if Admits(cfg, w, e) == Some(b) {
      A.GrantClearsConflicts(w.redis, CommandOf(cfg, w, e).value, a, b);
    }
  }

  /** Who was admitted by each event of a run. */
  ghost predicate IsAdmissionLog(log: seq<Option<Waiter>>, cfg: Config, worlds: seq<World>, events: seq<Event>) {
    && |log| == |events| == |worlds| - 1
    && forall k {:trigger events[k]} :: 0 <= k < |events| ==>
         Enabled(cfg, worlds[k], events[k]) && log[k] == Admits(cfg, worlds[k], events[k])
  }

  lemma StepWaits(s: Redis, c: Option<A.Command>, w: Waiter)
    requires A.Ordered(s.queue) && A.Queued(s, w) && A.Queued(Applied(s, c), w) && w.Writer?
    ensures |A.Ahead(Applied(s, c), w)| + (if c.Some? && A.Grants(s, c.value).Some? then 1 else 0) <= |A.Ahead(s, w)|
  {
    if c.Some? { A.OneLessAhead(s, c.value, w); }
  }

  /** While a writer stays queued, the protocol admits at most once for each entry that was ahead of it. */
  lemma {:induction false} WriterWaitsBounded(
    cfg: Config, worlds: seq<World>, events: seq<Event>, log: seq<Option<Waiter>>, i: nat, j: nat, w: Waiter)
    requires Protocol.IsRun(cfg, worlds, events) && cfg.kind.ReadWrite? && i <= j < |worlds|
    requires IsAdmissionLog(log, cfg, worlds, events)
    requires w.Writer? && forall k :: i <= k <= j ==> A.Queued(worlds[k].redis, w)
    ensures A.Admissions(log, i, j) + |A.Ahead(worlds[j].redis, w)| <= |A.Ahead(worlds[i].redis, w)|
  {
    if i < j {
      WriterWaitsBounded(cfg, worlds, events, log, i, j - 1, w);
      RunFits(cfg, worlds, events, j - 1);
      var u, e := worlds[j - 1], events[j - 1];
      assert Enabled(cfg, u, e) && worlds[j] == Next(cfg, u, e);
      EventIsCommand(cfg, u, e);
      assert A.Queued(worlds[j].redis, w) && A.Queued(u.redis, w);
      StepWaits(u.redis, CommandOf(cfg, u, e), w);
    }
  }
}
