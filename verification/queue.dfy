/** The arrival queue of the read-write lock over whole server histories.

    The commands of a history carry arbitrary arguments: any client, any stamp, any ttl, in any
    order, with any amount of server time passing in between. */
module ArrivalQueue {
  import opened Store

  datatype Command =
    | Tick(ms: nat)
    | Write(token: Token, ttl: int, stamp: int, timeout: nat)
    | Read(token: Token, ttl: int, stamp: int, timeout: nat)
    | RenewWriter(token: Token, ttl: int)
    | ReleaseWriter(token: Token)
    | RenewReader(token: Token, ttl: int, stamp: int)
    | ReleaseReader(token: Token)
    | RemoveRank(waiter: Waiter)
    | RemoveSeen(waiter: Waiter)

  function Apply(s: Redis, c: Command): Redis {
    match c
    case Tick(ms) => Advance(s, ms)
    case Write(t, ttl, stamp, timeout) => WriteLock(s, t, ttl, stamp, timeout).0
    case Read(t, ttl, stamp, timeout) => ReadLock(s, t, ttl, stamp, timeout).0
    case RenewWriter(t, ttl) => SingleRenew(s, t, ttl).0
    case ReleaseWriter(t) => SingleRelease(s, t).0
    case RenewReader(t, ttl, stamp) => SemRenew(s, stamp, ttl, t, 1).0
    case ReleaseReader(t) => SemRelease(s, t, 1).0
    case RemoveRank(m) => DequeueRank(s, m)
    case RemoveSeen(m) => DequeueSeen(s, m)
  }

  /** The contender that `c` newly admits in `s`; a replayed reply admits nobody. */
  function Grants(s: Redis, c: Command): Option<Waiter> {
    match c
    case Write(t, ttl, stamp, timeout) =>
      if !OwnedBy(s, t) && WriteLock(s, t, ttl, stamp, timeout).1.Some? then Some(Writer(t)) else None
    case Read(t, ttl, stamp, timeout) =>
      if !ReadHeld(s, t, stamp) && ReadLock(s, t, ttl, stamp, timeout).1.Some? then Some(Reader(t)) else None
    case _ => None
  }

  ghost predicate IsRun(states: seq<Redis>, cmds: seq<Command>) {
    && |states| == |cmds| + 1
    && forall i {:trigger cmds[i]} :: 0 <= i < |cmds| ==> states[i + 1] == Apply(states[i], cmds[i])
  }

  predicate Queued(s: Redis, m: Waiter) { m in s.queue.waiters }

  function Rank(s: Redis, m: Waiter): nat
    requires Queued(s, m)
  {
    s.queue.waiters[m]
  }

  // ---------------------------------------------------------------- the queue invariant

  /** The rank and counter keys live and die together, ranks are distinct and none exceeds the counter. */
  ghost predicate Ordered(q: Queue) {
    && (q.waiters != map[] ==> q.waitersExp == q.counterExp)
    && (forall m :: m in q.waiters ==> q.waiters[m] <= q.counter)
    && (forall m, k :: m in q.waiters && k in q.waiters && q.waiters[m] == q.waiters[k] ==> m == k)
  }

  /** Every queued entry has a last-seen stamp, and that key shares the queue's expiry. */
  ghost predicate Traceable(q: Queue) {
    && (q.waiters != map[] ==> q.seenExp == q.waitersExp)
    && q.waiters.Keys <= q.seen.Keys
  }

  /** From `q` to `r` entries may leave, nobody changes rank, and only `joiner` may arrive, at the back. */
  ghost predicate Evolves(q: Queue, r: Queue, joiner: Option<Waiter>) {
    forall m :: m in r.waiters ==>
      if m in q.waiters then r.waiters[m] == q.waiters[m]
      else joiner == Some(m) && r.waiters[m] == q.counter + 1
  }

  lemma EnterKeepsCaller(q: Queue, m: Waiter, now: int, stamp: int, timeout: nat)
    ensures m in Enter(q, m, now, stamp, timeout).waiters
  {
    var j := Join(q, m, now, stamp, timeout);
    assert !Stale(j, m, stamp, timeout);
    assert Shielded(j, m, stamp, timeout);
  }

  lemma EnterEvolves(q: Queue, m: Waiter, now: int, stamp: int, timeout: nat)
    requires Ordered(q)
    ensures Ordered(Enter(q, m, now, stamp, timeout))
    ensures Evolves(q, Enter(q, m, now, stamp, timeout), Some(m))
    ensures Ordered(Leave(Enter(q, m, now, stamp, timeout), m))
    ensures Evolves(q, Leave(Enter(q, m, now, stamp, timeout), m), Some(m))
  {
    var j := Join(q, m, now, stamp, timeout);
    assert Ordered(j) && Evolves(q, j, Some(m));
    var p := Purge(j, stamp, timeout);
    assert forall k :: k in p.waiters ==> k in j.waiters && p.waiters[k] == j.waiters[k];
  }

  function Joiner(c: Command): Option<Waiter> {
    if c.Write? then Some(Writer(c.token)) else if c.Read? then Some(Reader(c.token)) else None
  }

  lemma WriteShape(s: Redis, c: Command)
    requires c.Write?
    ensures var q := s.queue; var r := Apply(s, c).queue; var m := Writer(c.token);
            var e := Enter(q, m, s.now, c.stamp, c.timeout);
            if Grants(s, c) == Some(m) then r == Leave(e, m) && AtHead(e, m)
            else Grants(s, c).None? && (r == q || r == e)
  {
  }

  lemma ReadShape(s: Redis, c: Command)
    requires c.Read?
    ensures var q := s.queue; var r := Apply(s, c).queue; var m := Reader(c.token);
            var e := Enter(q, m, s.now, c.stamp, c.timeout);
            if Grants(s, c) == Some(m) then r == Leave(e, m) && !WriterAhead(e, m)
            else Grants(s, c).None? && (r == q || r == e)
  {
  }

  /** What one command does to the queue. */
  lemma StepEvolves(s: Redis, c: Command)
    requires Ordered(s.queue)
    ensures Ordered(Apply(s, c).queue)
    ensures Evolves(s.queue, Apply(s, c).queue, Joiner(c))
  {
    match c
    case Write(t, ttl, stamp, timeout) =>
      WriteShape(s, c);
      EnterEvolves(s.queue, Writer(t), s.now, stamp, timeout);
    case Read(t, ttl, stamp, timeout) =>
      ReadShape(s, c);
      EnterEvolves(s.queue, Reader(t), s.now, stamp, timeout);
    case _ =>
  }

  lemma {:induction false} RunOrdered(states: seq<Redis>, cmds: seq<Command>, i: nat)
    requires IsRun(states, cmds) && Ordered(states[0].queue) && i < |states|
    ensures Ordered(states[i].queue)
  {
    if i > 0 {
      RunOrdered(states, cmds, i - 1);
      StepEvolves(states[i - 1], cmds[i - 1]);
    }
  }

  // ---------------------------------------------------------------- the purge

  /** The purge removes a prefix of the queue made of stale entries, and no longer such prefix exists. */
  lemma PurgeRemovesMaximalStalePrefix(q: Queue, stamp: int, timeout: nat, prefix: set<Waiter>)
    requires prefix <= q.waiters.Keys
    requires forall m, k :: m in prefix && k in q.waiters && q.waiters[k] <= q.waiters[m] ==> k in prefix
    requires forall m :: m in prefix ==> Stale(q, m, stamp, timeout)
    ensures var gone := q.waiters.Keys - Purge(q, stamp, timeout).waiters.Keys;
            && prefix <= gone
            && (forall m :: m in gone ==> Stale(q, m, stamp, timeout))
            && (forall m, k :: m in gone && k in q.waiters && q.waiters[k] <= q.waiters[m] ==> k in gone)
  {
    var r := Purge(q, stamp, timeout);
    var gone := q.waiters.Keys - r.waiters.Keys;
    assert forall m :: m in q.waiters ==> (m in gone <==> !Shielded(q, m, stamp, timeout));
    forall m | m in prefix
      ensures m in gone
    {
      assert !Shielded(q, m, stamp, timeout);
    }
    forall m, k | m in gone && k in q.waiters && q.waiters[k] <= q.waiters[m]
      ensures k in gone
    {
      if Shielded(q, k, stamp, timeout) {
        assert false;
      }
    }
  }

  /** Everyone that arrived before `m`: all entries, when `m` has not joined yet. */
  ghost predicate Before(q: Queue, k: Waiter, m: Waiter) {
    k in q.waiters && k != m && (m in q.waiters ==> q.waiters[k] < q.waiters[m])
  }

  lemma SurvivesEnter(q: Queue, k: Waiter, m: Waiter, now: int, stamp: int, timeout: nat)
    requires Ordered(q) && Before(q, k, m)
    ensures k in Enter(q, m, now, stamp, timeout).waiters <==>
            Shielded(q, k, stamp, timeout)
  {
    var j := Join(q, m, now, stamp, timeout);
    assert forall h :: h in q.waiters && h != m ==> (Stale(j, h, stamp, timeout) <==> Stale(q, h, stamp, timeout));
    assert k in Enter(q, m, now, stamp, timeout).waiters <==> Shielded(j, k, stamp, timeout);
  }

  /** What the queue `e` that a lock attempt of `m` decides on has to do with the queue `q` it found. */
  ghost predicate Entered(q: Queue, e: Queue, m: Waiter, stamp: int, timeout: nat) {
    && m in e.waiters
    && (forall k :: k in e.waiters && k != m ==> (Before(q, k, m) <==> e.waiters[k] < e.waiters[m]))
    && (forall k :: k in e.waiters && k != m ==> e.waiters[k] != e.waiters[m])
    && (forall k :: Before(q, k, m) ==> (k in e.waiters <==> Shielded(q, k, stamp, timeout)))
  }

  lemma EnterEntered(q: Queue, m: Waiter, now: int, stamp: int, timeout: nat)
    requires Ordered(q)
    ensures Entered(q, Enter(q, m, now, stamp, timeout), m, stamp, timeout)
  {
    EnterKeepsCaller(q, m, now, stamp, timeout);
    EnterEvolves(q, m, now, stamp, timeout);
    forall k | Before(q, k, m)
      ensures k in Enter(q, m, now, stamp, timeout).waiters <==> Shielded(q, k, stamp, timeout)
    {
      SurvivesEnter(q, k, m, now, stamp, timeout);
    }
  }

  lemma HeadWhen(q: Queue, e: Queue, m: Waiter, stamp: int, timeout: nat)
    requires Entered(q, e, m, stamp, timeout)
    ensures AtHead(e, m) <==> forall k :: Before(q, k, m) ==> Stale(q, k, stamp, timeout)
  {
    if k :| Before(q, k, m) && !Stale(q, k, stamp, timeout) {
      assert Shielded(q, k, stamp, timeout);
    } else {
      forall k, h | Before(q, k, m) && h in q.waiters && q.waiters[h] <= q.waiters[k] && h != m
        ensures Stale(q, h, stamp, timeout)
      {
        assert Before(q, h, m);
      }
    }
  }

  /** A writer is admitted exactly when nobody holds the lock and only silent entries precede it. */
  lemma WriterGrantedExactlyWhen(s: Redis, c: Command)
    requires Ordered(s.queue) && c.Write?
    ensures Grants(s, c).Some? <==>
            && s.owner.Free?
            && Reclaim(s.permits, c.stamp) == map[]
            && forall k :: Before(s.queue, k, Writer(c.token)) ==> Stale(s.queue, k, c.stamp, c.timeout)
  {
    EnterEntered(s.queue, Writer(c.token), s.now, c.stamp, c.timeout);
    HeadWhen(s.queue, Enter(s.queue, Writer(c.token), s.now, c.stamp, c.timeout), Writer(c.token), c.stamp, c.timeout);
  }

  /** A reader is admitted exactly when no writer holds and the purge clears every writer before it. */
  lemma ReaderGrantedExactlyWhen(s: Redis, c: Command)
    requires Ordered(s.queue) && c.Read?
    ensures Grants(s, c).Some? <==>
            && s.owner.Free?
            && !ReadHeld(s, c.token, c.stamp)
            && forall k :: Before(s.queue, k, Reader(c.token)) && k.Writer? ==>
                 !Shielded(s.queue, k, c.stamp, c.timeout)
  {
    EnterEntered(s.queue, Reader(c.token), s.now, c.stamp, c.timeout);
  }

  // ---------------------------------------------------------------- first come, first served

  predicate Conflict(a: Waiter, b: Waiter) { a != b && (a.Writer? || b.Writer?) }

  /** A step that admits `b` leaves no conflicting entry that arrived before `b`. */
  lemma GrantClearsConflicts(s: Redis, c: Command, a: Waiter, b: Waiter)
    requires Ordered(s.queue) && Grants(s, c) == Some(b) && Conflict(a, b)
    ensures Before(s.queue, a, b) ==> !Queued(Apply(s, c), a)
  {
    EnterKeepsCaller(s.queue, b, s.now, c.stamp, c.timeout);
    EnterEvolves(s.queue, b, s.now, c.stamp, c.timeout);
    if c.Write? {
      WriteShape(s, c);
    } else {
      ReadShape(s, c);
    }
  }

  /** While `a` keeps its entry, `b` stays behind it. */
  lemma {:induction false} StaysBehind(states: seq<Redis>, cmds: seq<Command>, i: nat, j: nat, a: Waiter, b: Waiter)
    requires IsRun(states, cmds) && Ordered(states[0].queue) && i <= j < |states|
    requires forall k :: i <= k <= j ==> Queued(states[k], a)
    requires Before(states[i].queue, a, b)
    ensures Before(states[j].queue, a, b)
  {
    if i < j {
      StaysBehind(states, cmds, i, j - 1, a, b);
      RunOrdered(states, cmds, j - 1);
      StepEvolves(states[j - 1], cmds[j - 1]);
      assert Queued(states[j], a) && Queued(states[j - 1], a);
    }
  }

  /** No overtaking over whole runs: as long as the entry of `a` is present, no conflicting contender
      that arrived after it is admitted, whatever retries, purges, dequeues, releases and expiries occur. */
  lemma FirstComeFirstServed(states: seq<Redis>, cmds: seq<Command>, i: nat, j: nat, a: Waiter, b: Waiter)
    requires IsRun(states, cmds) && Ordered(states[0].queue) && i <= j < |states|
    requires forall k :: i <= k <= j ==> Queued(states[k], a)
    requires Before(states[i].queue, a, b) && Conflict(a, b)
    ensures forall k :: i <= k < j ==> Grants(states[k], cmds[k]) != Some(b)
  {
    forall k | i <= k < j
      ensures Grants(states[k], cmds[k]) != Some(b)
    {
      if Grants(states[k], cmds[k]) == Some(b) {
        StaysBehind(states, cmds, i, k, a, b);
        RunOrdered(states, cmds, k);
        assert Queued(states[k + 1], a) && states[k + 1] == Apply(states[k], cmds[k]);
        GrantClearsConflicts(states[k], cmds[k], a, b);
      }
    }
  }

  // ---------------------------------------------------------------- bounded waiting

  function Ahead(s: Redis, m: Waiter): set<Waiter>
    requires Queued(s, m)
  {
    set k | k in s.queue.waiters && s.queue.waiters[k] < Rank(s, m)
  }

  /** The entries ahead only leave, and every admission while a writer waits is one of them leaving. */
  lemma AheadShrinks(s: Redis, c: Command, m: Waiter)
    requires Ordered(s.queue) && Queued(s, m) && Queued(Apply(s, c), m)
    ensures Ahead(Apply(s, c), m) <= Ahead(s, m)
    ensures m.Writer? && Grants(s, c).Some? ==>
              Grants(s, c).value in Ahead(s, m) && Grants(s, c).value !in Ahead(Apply(s, c), m)
  {
    StepEvolves(s, c);
    if m.Writer? && Grants(s, c).Some? {
      var g := Grants(s, c).value;
      if c.Write? { WriteShape(s, c); } else { ReadShape(s, c); }
      assert !Queued(Apply(s, c), g);
      if Before(s.queue, m, g) {
        GrantClearsConflicts(s, c, m, g);
      }
    }
  }

  lemma OneLessAhead(s: Redis, c: Command, w: Waiter)
    requires Ordered(s.queue) && Queued(s, w) && Queued(Apply(s, c), w) && w.Writer?
    ensures |Ahead(Apply(s, c), w)| + (if Grants(s, c).Some? then 1 else 0) <= |Ahead(s, w)|
  {
    AheadShrinks(s, c, w);
    if Grants(s, c).Some? {
      Smaller(Ahead(Apply(s, c), w), Ahead(s, w) - {Grants(s, c).value});
    } else {
      Smaller(Ahead(Apply(s, c), w), Ahead(s, w));
    }
  }

  /** Who was admitted by each command of a run. */
  ghost predicate IsLog(log: seq<Option<Waiter>>, states: seq<Redis>, cmds: seq<Command>)
    requires |cmds| <= |states|
  {
    && |log| == |cmds|
    && forall k {:trigger Grants(states[k], cmds[k])} :: 0 <= k < |cmds| ==> log[k] == Grants(states[k], cmds[k])
  }

  /** The number of admissions among commands `i` up to `j`. */
  function Admissions(log: seq<Option<Waiter>>, i: nat, j: nat): nat
    requires i <= j <= |log|
  {
    if i == j then 0 else Admissions(log, i, j - 1) + if log[j - 1].Some? then 1 else 0
  }

  lemma RunOneLessAhead(states: seq<Redis>, cmds: seq<Command>, log: seq<Option<Waiter>>, i: nat, w: Waiter)
    requires IsRun(states, cmds) && IsLog(log, states, cmds) && Ordered(states[0].queue) && i < |cmds| && w.Writer?
    requires Queued(states[i], w) && Queued(states[i + 1], w)
    ensures |Ahead(states[i + 1], w)| + (if log[i].Some? then 1 else 0) <= |Ahead(states[i], w)|
  {
    RunOrdered(states, cmds, i);
    OneLessAhead(states[i], cmds[i], w);
  }

  /** While a writer keeps waiting, the lock is granted at most once to each entry that was ahead of it. */
  lemma {:induction false} BoundedWaiting(
    states: seq<Redis>, cmds: seq<Command>, log: seq<Option<Waiter>>, i: nat, j: nat, w: Waiter)
    requires IsRun(states, cmds) && IsLog(log, states, cmds) && Ordered(states[0].queue) && i <= j < |states|
    requires w.Writer? && forall k :: i <= k <= j ==> Queued(states[k], w)
    ensures Admissions(log, i, j) + |Ahead(states[j], w)| <= |Ahead(states[i], w)|
  {
    if i < j {
      BoundedWaiting(states, cmds, log, i, j - 1, w);
      RunOneLessAhead(states, cmds, log, j - 1, w);
    }
  }

  // ---------------------------------------------------------------- what an attempt leaves behind

  predicate Attempts(c: Command) { c.Write? || c.Read? }

  /** The caller has the lock already, by an earlier execution. */
  predicate Replayed(s: Redis, c: Command)
    requires Attempts(c)
  {
    if c.Write? then OwnedBy(s, c.token)
    else Permit(c.token, 0) in s.permits && s.permits[Permit(c.token, 0)] > c.stamp
  }

  predicate Refused(s: Redis, c: Command) { Attempts(c) && !Replayed(s, c) && Grants(s, c).None? }

  lemma RefusedEnters(s: Redis, c: Command)
    requires Refused(s, c)
    ensures Apply(s, c).queue == Enter(s.queue, Joiner(c).value, s.now, c.stamp, c.timeout)
    ensures Apply(s, c).now == s.now && Apply(s, c).owner == s.owner && Apply(s, c).fencing == s.fencing
  {
  }

  /** In `e` the caller is queued: with the rank it had in `q`, or behind everybody if it is new, seen at `stamp`, and
      with one expiry on the keys of the queue. Nobody else changed rank. */
  ghost predicate TookTurn(q: Queue, e: Queue, m: Waiter, stamp: int, expiry: int) {
    && m in e.waiters && m in e.seen && e.seen[m] == stamp
    && e.waiters[m] == (if m in q.waiters then q.waiters[m] else q.counter + 1)
    && e.counter == (if m in q.waiters then q.counter else q.counter + 1)
    && e.waitersExp == e.seenExp == e.counterExp == expiry
    && (forall k :: k in e.waiters && k != m ==> k in q.waiters && e.waiters[k] == q.waiters[k])
    && (m !in q.waiters ==> forall k :: k in e.waiters && k != m ==> e.waiters[k] < e.waiters[m])
  }

  lemma JoinTakesTurn(q: Queue, m: Waiter, now: int, stamp: int, timeout: nat)
    requires Ordered(q)
    ensures TookTurn(q, Join(q, m, now, stamp, timeout), m, stamp, now + timeout)
  {
  }

  lemma PurgeKeepsTurn(q: Queue, j: Queue, m: Waiter, stamp: int, expiry: int, cut: int, timeout: nat)
    requires TookTurn(q, j, m, stamp, expiry) && m in Purge(j, cut, timeout).waiters
    ensures TookTurn(q, Purge(j, cut, timeout), m, stamp, expiry)
  {
    var p := Purge(j, cut, timeout);
    assert forall k :: k in p.waiters ==> k in j.waiters && p.waiters[k] == j.waiters[k];
    assert m in p.seen && p.seen[m] == j.seen[m];
  }

  lemma EnterTakesTurn(q: Queue, m: Waiter, now: int, stamp: int, timeout: nat)
    requires Ordered(q)
    ensures TookTurn(q, Enter(q, m, now, stamp, timeout), m, stamp, now + timeout)
  {
    EnterKeepsCaller(q, m, now, stamp, timeout);
    JoinTakesTurn(q, m, now, stamp, timeout);
    PurgeKeepsTurn(q, Join(q, m, now, stamp, timeout), m, stamp, now + timeout, stamp, timeout);
  }

  /** An attempt that is refused leaves its caller queued. */
  lemma RefusedJoins(s: Redis, c: Command)
    requires Ordered(s.queue) && Refused(s, c)
    ensures TookTurn(s.queue, Apply(s, c).queue, Joiner(c).value, c.stamp, s.now + c.timeout)
  {
    RefusedEnters(s, c);
    EnterTakesTurn(s.queue, Joiner(c).value, s.now, c.stamp, c.timeout);
  }

  /** Nobody else loses entry or stamp by it, but for entries with only stale ones up to them, which lose both. */
  lemma RefusedSpares(s: Redis, c: Command, k: Waiter)
    requires Ordered(s.queue) && Refused(s, c) && k != Joiner(c).value
    ensures var s' := Apply(s, c);
            && (Queued(s, k) && Before(s.queue, k, Joiner(c).value) ==>
                  (Queued(s', k) <==> Shielded(s.queue, k, c.stamp, c.timeout)))
            && (k in s'.queue.seen <==> k in s.queue.seen && (Queued(s, k) ==> Queued(s', k)))
            && (k in s'.queue.seen ==> s'.queue.seen[k] == s.queue.seen[k])
  {
    RefusedEnters(s, c);
    if Before(s.queue, k, Joiner(c).value) {
      SurvivesEnter(s.queue, k, Joiner(c).value, s.now, c.stamp, c.timeout);
    }
  }

  /** A refused reader leaves the reader set alone; a refused writer takes expired readers out exactly when the key is
      free and nobody stands before it but stale entries. */
  lemma RefusedReclaims(s: Redis, c: Command)
    requires Ordered(s.queue) && Refused(s, c)
    ensures var inTurn := c.Write? && s.owner.Free? &&
                          forall k :: Before(s.queue, k, Writer(c.token)) ==> Stale(s.queue, k, c.stamp, c.timeout);
            forall p :: (p in Apply(s, c).permits <==> p in s.permits && (inTurn ==> s.permits[p] > c.stamp))
                        && (p in Apply(s, c).permits ==> Apply(s, c).permits[p] == s.permits[p])
  {
    if c.Write? {
      var m := Writer(c.token);
      EnterEntered(s.queue, m, s.now, c.stamp, c.timeout);
      HeadWhen(s.queue, Enter(s.queue, m, s.now, c.stamp, c.timeout), m, c.stamp, c.timeout);
    }
  }

  /** A writer that is admitted leaves the queue and has the key for `ttl`, under the next fencing token and with no
      reader left. */
  lemma AdmittedWriter(s: Redis, c: Command)
    requires c.Write? && Grants(s, c).Some?
    ensures var m, s' := Writer(c.token), Apply(s, c);
            && Grants(s, c) == Some(m) && !Queued(s', m) && m !in s'.queue.seen && s'.now == s.now
            && s'.owner == Owned(c.token, s.now + c.ttl) && s'.fencing == s.fencing + 1 && s'.permits == map[]
  {
    WriteShape(s, c);
  }

  /** A reader that is admitted leaves the queue and is in the set until `ttl` after its stamp; all others stay. */
  lemma AdmittedReader(s: Redis, c: Command)
    requires c.Read? && Grants(s, c).Some?
    ensures var m, s' := Reader(c.token), Apply(s, c);
            && Grants(s, c) == Some(m) && !Queued(s', m) && m !in s'.queue.seen && s'.now == s.now
            && s'.owner == s.owner && s'.fencing == s.fencing
            && s'.permits == s.permits[Permit(c.token, 0) := c.stamp + c.ttl]
  {
    ReadShape(s, c);
    assert Grant(s.permits, c.token, 0, c.stamp + c.ttl) == s.permits;
  }

  /** A replay changes nothing. */
  lemma ReplayedStays(s: Redis, c: Command)
    requires Attempts(c) && Replayed(s, c)
    ensures Apply(s, c) == s && Grants(s, c).None?
    ensures c.Write? ==> WriteLock(s, c.token, c.ttl, c.stamp, c.timeout).1 == Some(s.fencing)
    ensures c.Read? ==> ReadLock(s, c.token, c.ttl, c.stamp, c.timeout).1 == Some(1)
  {
  }

  lemma {:induction false} NotYetJoined(states: seq<Redis>, cmds: seq<Command>, j: nat, b: Waiter)
    requires IsRun(states, cmds) && Ordered(states[0].queue) && j < |states| && !Queued(states[0], b)
    requires forall k :: 0 <= k < j ==> Joiner(cmds[k]) != Some(b)
    ensures !Queued(states[j], b)
  {
    if j > 0 {
      NotYetJoined(states, cmds, j - 1, b);
      RunOrdered(states, cmds, j - 1);
      StepEvolves(states[j - 1], cmds[j - 1]);
    }
  }

  /** Being refused is taking one's turn: while the entry that a refused attempt left is present, no conflicting
      contender whose first attempt comes later is admitted. */
  lemma LatecomersWait(states: seq<Redis>, cmds: seq<Command>, i: nat, j: nat, b: Waiter)
    requires IsRun(states, cmds) && Ordered(states[0].queue) && i < j < |states| && Refused(states[i], cmds[i])
    requires !Queued(states[0], b) && forall k :: 0 <= k <= i ==> Joiner(cmds[k]) != Some(b)
    requires Conflict(Joiner(cmds[i]).value, b)
    requires forall k :: i < k <= j ==> Queued(states[k], Joiner(cmds[i]).value)
    ensures forall k :: i <= k < j ==> Grants(states[k], cmds[k]) != Some(b)
  {
    var a := Joiner(cmds[i]).value;
    RunOrdered(states, cmds, i);
    RefusedJoins(states[i], cmds[i]);
    NotYetJoined(states, cmds, i + 1, b);
    assert Before(states[i + 1].queue, a, b);
    FirstComeFirstServed(states, cmds, i + 1, j, a, b);
  }

  // ---------------------------------------------------------------- crash detection

  lemma EnterTraceable(q: Queue, m: Waiter, now: int, stamp: int, timeout: nat)
    requires Traceable(q)
    ensures Traceable(Enter(q, m, now, stamp, timeout))
    ensures Traceable(Leave(Enter(q, m, now, stamp, timeout), m))
  {
  }

  /** The stamps stay complete under every command but one: deleting the stamp of an entry still queued. */
  lemma StampsKeptExactlyWhen(s: Redis, c: Command)
    requires Traceable(s.queue)
    ensures Traceable(Apply(s, c).queue) <==> !(c.RemoveSeen? && Queued(s, c.waiter))
  {
    match c
    case Write(t, ttl, stamp, timeout) =>
      WriteShape(s, c);
      EnterTraceable(s.queue, Writer(t), s.now, stamp, timeout);
    case Read(t, ttl, stamp, timeout) =>
      ReadShape(s, c);
      EnterTraceable(s.queue, Reader(t), s.now, stamp, timeout);
    case _ =>
  }

  /** Between the two commands of a dequeue the entry stays out, as long as its owner makes no further attempt. */
  lemma {:induction false} DequeuedStaysOut(states: seq<Redis>, cmds: seq<Command>, i: nat, j: nat, m: Waiter)
    requires IsRun(states, cmds) && Ordered(states[0].queue) && i < j < |states| && cmds[i] == RemoveRank(m)
    requires forall k :: i < k < j ==> Joiner(cmds[k]) != Some(m)
    ensures !Queued(states[j], m)
  {
    assert states[i + 1] == Apply(states[i], cmds[i]);
    if i + 1 < j {
      DequeuedStaysOut(states, cmds, i, j - 1, m);
      RunOrdered(states, cmds, j - 1);
      StepEvolves(states[j - 1], cmds[j - 1]);
    }
  }

  /** Whoever deletes a stamp has removed the entry before, and made no attempt since. */
  ghost predicate DequeuesInOrder(cmds: seq<Command>) {
    forall k :: 0 <= k < |cmds| && cmds[k].RemoveSeen? ==> exists i :: DequeuedSince(cmds, i, k, cmds[k].waiter)
  }

  ghost predicate DequeuedSince(cmds: seq<Command>, i: int, k: int, m: Waiter)
    requires k <= |cmds|
  {
    0 <= i < k && cmds[i] == RemoveRank(m) && forall h :: i < h < k ==> Joiner(cmds[h]) != Some(m)
  }

  /** So a dequeue as two separate commands is safe when both execute in order: with anything in between them, stamps
      are complete in every state. */
  lemma {:induction false} RunTraceable(states: seq<Redis>, cmds: seq<Command>, j: nat)
    requires IsRun(states, cmds) && Ordered(states[0].queue) && Traceable(states[0].queue) && j < |states|
    requires DequeuesInOrder(cmds)
    ensures Traceable(states[j].queue)
  {
    if j > 0 {
      RunTraceable(states, cmds, j - 1);
      if cmds[j - 1].RemoveSeen? {
        var i :| DequeuedSince(cmds, i, j - 1, cmds[j - 1].waiter);
        DequeuedStaysOut(states, cmds, i, j - 1, cmds[j - 1].waiter);
      }
      StampsKeptExactlyWhen(states[j - 1], cmds[j - 1]);
    }
  }

  /** No stamp is ever deleted while its entry is queued. */
  ghost predicate DeletesOnlyDequeued(states: seq<Redis>, cmds: seq<Command>)
    requires |cmds| <= |states|
  {
    forall k {:trigger cmds[k]} :: 0 <= k < |cmds| && cmds[k].RemoveSeen? ==> !Queued(states[k], cmds[k].waiter)
  }

  lemma {:induction false} DeletesKeepStamps(states: seq<Redis>, cmds: seq<Command>, j: nat)
    requires IsRun(states, cmds) && Traceable(states[0].queue) && j < |states| && DeletesOnlyDequeued(states, cmds)
    ensures Traceable(states[j].queue)
  {
    if j > 0 {
      DeletesKeepStamps(states, cmds, j - 1);
      StampsKeptExactlyWhen(states[j - 1], cmds[j - 1]);
    }
  }

  /** Over every history, all stamps are there in every state if and only if none is deleted while its entry is
      queued. */
  lemma StampsCompleteExactlyWhen(states: seq<Redis>, cmds: seq<Command>)
    requires IsRun(states, cmds) && Traceable(states[0].queue)
    ensures (forall j :: 0 <= j < |states| ==> Traceable(states[j].queue)) <==> DeletesOnlyDequeued(states, cmds)
  {
    if DeletesOnlyDequeued(states, cmds) {
      forall j | 0 <= j < |states| ensures Traceable(states[j].queue) { DeletesKeepStamps(states, cmds, j); }
    } else {
      var k :| 0 <= k < |cmds| && cmds[k].RemoveSeen? && Queued(states[k], cmds[k].waiter);
      if Traceable(states[k].queue) {
        StampsKeptExactlyWhen(states[k], cmds[k]);
        assert !Traceable(states[k + 1].queue);
      }
    }
  }

  // ---------------------------------------------------------------- a dequeue that loses its first command

  /** A contender that gives up and whose removal is lost on the way, while the deletion of its stamp arrives. */
  function LostRemoval(a: Token, b: Token): seq<Command> {
    [Write(a, 10, 0, 20), Write(b, 10, 0, 20), RemoveSeen(Writer(b))]
  }

  /** Queued, but without the stamp by which its silence could be noticed. */
  ghost predicate Ghost(s: Redis, m: Waiter) { Queued(s, m) && m !in s.queue.seen }

  lemma JoinsBehind(s: Redis, b: Token)
    requires s.owner.Owned? && s.owner.token != b && s.queue.waiters == map[]
    ensures Queued(Apply(s, Write(b, 10, 0, 20)), Writer(b))
  {
    EnterKeepsCaller(s.queue, Writer(b), s.now, 0, 20);
    WriteShape(s, Write(b, 10, 0, 20));
  }

  lemma TakesFreeLock(s: Redis, a: Token)
    requires s.owner.Free? && s.permits == map[] && s.queue.waiters == map[]
    ensures var s' := Apply(s, Write(a, 10, 0, 20)); OwnedBy(s', a) && s'.queue.waiters == map[]
  {
    EnterKeepsCaller(s.queue, Writer(a), s.now, 0, 20);
  }

  lemma UnstampedNow(s: Redis, m: Waiter)
    requires Queued(s, m)
    ensures Ghost(Apply(s, RemoveSeen(m)), m) && !Traceable(Apply(s, RemoveSeen(m)).queue)
  {
    assert m in s.queue.waiters.Keys && m !in (s.queue.seen - {m}).Keys;
  }

  lemma ThreeSteps(states: seq<Redis>, c0: Command, c1: Command, c2: Command)
    requires |states| == 4 && states[1] == Apply(states[0], c0) && states[2] == Apply(states[1], c1)
    requires states[3] == Apply(states[2], c2)
    ensures IsRun(states, [c0, c1, c2])
  {
  }

  /** A dequeue discards the errors of its commands: from a free lock and an empty queue, `b` ends up as a ghost. */
  lemma LostRemovalLeavesGhost(s: Redis, a: Token, b: Token) returns (states: seq<Redis>)
    requires s.owner.Free? && s.permits == map[] && s.queue.waiters == map[] && a != b
    ensures IsRun(states, LostRemoval(a, b)) && states[0] == s
    ensures Ghost(states[3], Writer(b)) && !Traceable(states[3].queue)
  {
    var s1 := Apply(s, Write(a, 10, 0, 20));
    var s2 := Apply(s1, Write(b, 10, 0, 20));
    states := [s, s1, s2, Apply(s2, RemoveSeen(Writer(b)))];
    ThreeSteps(states, Write(a, 10, 0, 20), Write(b, 10, 0, 20), RemoveSeen(Writer(b)));
    TakesFreeLock(s, a);
    JoinsBehind(s1, b);
    UnstampedNow(s2, Writer(b));
  }

  /** A command by which the owner of `m` neither tries nor leaves, and that does not let the queue key expire. */
  predicate Ignores(s: Redis, c: Command, m: Waiter) {
    Joiner(c) != Some(m) && c != RemoveRank(m) && (c.Tick? ==> s.now + c.ms < s.queue.waitersExp)
  }

  lemma OthersSpareGhost(q: Queue, m: Waiter, other: Waiter, now: int, stamp: int, timeout: nat)
    requires m in q.waiters && m !in q.seen && other != m
    ensures var e := Enter(q, other, now, stamp, timeout);
            m in e.waiters && m !in e.seen && m in Leave(e, other).waiters && m !in Leave(e, other).seen
  {
    var j := Join(q, other, now, stamp, timeout);
    assert !Stale(j, m, stamp, timeout);
    assert Shielded(j, m, stamp, timeout);
  }

  lemma GhostStays(s: Redis, c: Command, m: Waiter)
    requires Ghost(s, m) && Ignores(s, c, m)
    ensures Ghost(Apply(s, c), m)
  {
    match c
    case Write(t, ttl, stamp, timeout) =>
      WriteShape(s, c);
      OthersSpareGhost(s.queue, m, Writer(t), s.now, stamp, timeout);
    case Read(t, ttl, stamp, timeout) =>
      ReadShape(s, c);
      OthersSpareGhost(s.queue, m, Reader(t), s.now, stamp, timeout);
    case _ =>
  }

  lemma {:induction false} GhostRemains(states: seq<Redis>, cmds: seq<Command>, i: nat, j: nat, m: Waiter)
    requires IsRun(states, cmds) && i <= j < |states| && Ghost(states[i], m)
    requires forall k :: i <= k < j ==> Ignores(states[k], cmds[k], m)
    ensures Ghost(states[j], m)
  {
    if i < j {
      GhostRemains(states, cmds, i, j - 1, m);
      GhostStays(states[j - 1], cmds[j - 1], m);
    }
  }

  /** No silence, however long, removes a ghost while the queue is in use: over every history in which its owner neither
      tries nor leaves and the queue key does not expire, no conflicting contender behind it is ever admitted. */
  lemma GhostBlocks(states: seq<Redis>, cmds: seq<Command>, i: nat, j: nat, m: Waiter, b: Waiter)
    requires IsRun(states, cmds) && Ordered(states[0].queue) && i <= j < |states| && Ghost(states[i], m)
    requires forall k :: i <= k < j ==> Ignores(states[k], cmds[k], m)
    requires Before(states[i].queue, m, b) && Conflict(m, b)
    ensures Ghost(states[j], m)
    ensures forall k :: i <= k < j ==> Grants(states[k], cmds[k]) != Some(b)
  {
    forall k | i <= k <= j ensures Queued(states[k], m) {
      GhostRemains(states, cmds, i, k, m);
    }
    GhostRemains(states, cmds, i, j, m);
    FirstComeFirstServed(states, cmds, i, j, m, b);
  }

  // ---------------------------------------------------------------- the lock itself

  /** A live writer key and a reader never coexist, and this needs no clock at all. */
  ghost predicate Exclusive(s: Redis) { s.owner.Owned? ==> s.permits == map[] }

  lemma ExclusiveStep(s: Redis, c: Command)
    requires Exclusive(s)
    ensures Exclusive(Apply(s, c))
  {
    if c.RenewReader? && s.owner.Owned? {
      assert !OwnsAll(s.permits, c.token, 1, c.stamp) by { assert Permit(c.token, 0) !in s.permits; }
    }
    if c.ReleaseReader? {
      DropRemoves(s.permits, c.token, 1);
      assert s.permits == map[] ==> Drop(s.permits, c.token, 1) == map[];
    }
  }

  lemma {:induction false} RunExclusive(states: seq<Redis>, cmds: seq<Command>, i: nat)
    requires IsRun(states, cmds) && Exclusive(states[0]) && i < |states|
    ensures Exclusive(states[i])
  {
    if i > 0 {
      RunExclusive(states, cmds, i - 1);
      ExclusiveStep(states[i - 1], cmds[i - 1]);
    }
  }
}
