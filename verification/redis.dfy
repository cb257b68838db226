/** The Lua scripts as they execute on the server: step by step, in place, with their loops.
    Each is proved to compute the script function of module Store. */
module Scripts {
  import opened Store
  import opened ArrivalQueue

  // ---------------------------------------------------------------- sorted-set commands that iterate

  /** ZRANGE waiters 0 0. */
  method Head(ranks: map<Waiter, nat>) returns (h: Waiter)
    requires ranks != map[]
    ensures h in ranks && forall k :: k in ranks ==> ranks[h] <= ranks[k]
  {
    assert ranks.Keys != {};
    LeastExists(ranks, ranks.Keys);
    h :| h in ranks && forall k :: k in ranks ==> ranks[h] <= ranks[k];
  }

  /** ZRANGEBYSCORE waiters -inf (rank: the entries below `rank`, listed once each. */
  method RangeBelow(ranks: map<Waiter, nat>, rank: nat) returns (list: seq<Waiter>)
    ensures forall m :: m in list <==> m in ranks && ranks[m] < rank
  {
    var rest := set m | m in ranks && ranks[m] < rank;
    list := [];
    while rest != {}
      invariant forall m :: m in list || m in rest <==> m in ranks && ranks[m] < rank
      decreases |rest|
    {
      LeastExists(ranks, rest);
      var h :| h in rest && forall k :: k in rest ==> ranks[h] <= ranks[k];
      list := list + [h];
      rest := rest - {h};
    }
  }

  /** `gone` is a prefix of stale entries. */
  ghost predicate StalePrefix(q: Queue, gone: set<Waiter>, stamp: int, timeout: nat) {
    && gone <= q.waiters.Keys
    && (forall m :: m in gone ==> Stale(q, m, stamp, timeout))
    && (forall m, k :: m in gone && k in q.waiters && k !in gone ==> q.waiters[m] < q.waiters[k])
  }

  lemma PrefixGrows(q: Queue, gone: set<Waiter>, h: Waiter, stamp: int, timeout: nat)
    requires Ordered(q) && StalePrefix(q, gone, stamp, timeout)
    requires h in q.waiters && h !in gone && Stale(q, h, stamp, timeout)
    requires forall k :: k in q.waiters && k !in gone ==> q.waiters[h] <= q.waiters[k]
    ensures StalePrefix(q, gone + {h}, stamp, timeout)
  {
  }

  /** A stale prefix behind which a live entry is at the head is all that the purge removes. */
  lemma PurgedExactly(q: Queue, gone: set<Waiter>, stamp: int, timeout: nat)
    requires StalePrefix(q, gone, stamp, timeout)
    requires forall m :: m in q.waiters && m !in gone ==> Shielded(q, m, stamp, timeout)
    ensures gone == q.waiters.Keys - Survivors(q, stamp, timeout)
  {
    forall m | m in gone
      ensures !Shielded(q, m, stamp, timeout)
    {
      assert forall k :: k in q.waiters && q.waiters[k] <= q.waiters[m] ==> k in gone;
    }
  }

  /** `part` is `whole` with the keys `gone` removed. */
  ghost predicate Without<V>(part: map<Waiter, V>, whole: map<Waiter, V>, gone: set<Waiter>) {
    && (forall m :: m in part <==> m in whole && m !in gone)
    && (forall m :: m in part ==> part[m] == whole[m])
  }

  lemma WithoutIsMinus<V>(part: map<Waiter, V>, whole: map<Waiter, V>, gone: set<Waiter>)
    requires Without(part, whole, gone)
    ensures part == whole - gone
  {
  }

  lemma WithoutShrinks<V>(part: map<Waiter, V>, whole: map<Waiter, V>, gone: set<Waiter>, h: Waiter)
    requires Without(part, whole, gone)
    ensures Without(part - {h}, whole, gone + {h})
    ensures h in part ==> |part - {h}| < |part|
  {
    if h in part {
      assert part.Keys == (part - {h}).Keys + {h};
      assert |part.Keys| == |part| && |(part - {h}).Keys| == |part - {h}|;
    }
  }

  lemma ShieldedByHead(q: Queue, waiters: map<Waiter, nat>, gone: set<Waiter>, h: Waiter, stamp: int, timeout: nat)
    requires Without(waiters, q.waiters, gone) && h in waiters && !Stale(q, h, stamp, timeout)
    requires forall k :: k in waiters ==> waiters[h] <= waiters[k]
    ensures forall m :: m in q.waiters && m !in gone ==> Shielded(q, m, stamp, timeout)
  {
    forall m | m in q.waiters && m !in gone
      ensures Shielded(q, m, stamp, timeout)
    {
      assert m in waiters && h in q.waiters && q.waiters[h] <= q.waiters[m];
    }
  }

  /** The purge loop shared by both lock scripts. */
  method DropStale(q: Queue, stamp: int, timeout: nat)
    returns (waiters: map<Waiter, nat>, seen: map<Waiter, int>, ghost gone: set<Waiter>)
    requires Ordered(q)
    ensures StalePrefix(q, gone, stamp, timeout)
    ensures Without(waiters, q.waiters, gone) && Without(seen, q.seen, gone)
    ensures forall m :: m in q.waiters && m !in gone ==> Shielded(q, m, stamp, timeout)
  {
    waiters, seen, gone := q.waiters, q.seen, {};
    while waiters != map[]
      invariant StalePrefix(q, gone, stamp, timeout)
      invariant Without(waiters, q.waiters, gone) && Without(seen, q.seen, gone)
      decreases |waiters|
    {
      var h := Head(waiters);
      if !(h in seen && seen[h] < stamp - timeout) {
        ShieldedByHead(q, waiters, gone, h, stamp, timeout);
        return;
      }
      PrefixGrows(q, gone, h, stamp, timeout);
      WithoutShrinks(waiters, q.waiters, gone, h);
      WithoutShrinks(seen, q.seen, gone, h);
      gone := gone + {h};
      waiters, seen := waiters - {h}, seen - {h};
    }
  }

  /** The loop removes exactly what the purge removes, entries and stamps. */
  method PurgeLoop(q: Queue, stamp: int, timeout: nat) returns (r: Queue)
    requires Ordered(q)
    ensures r == Purge(q, stamp, timeout)
  {
    var waiters, seen;
    ghost var gone;
    waiters, seen, gone := DropStale(q, stamp, timeout);
    PurgedExactly(q, gone, stamp, timeout);
    WithoutIsMinus(waiters, q.waiters, gone);
    WithoutIsMinus(seen, q.seen, gone);
    r := q.(waiters := waiters, seen := seen);
  }

  /** The scan of a reader: is there a writer among the entries ahead? */
  method ScanAhead(q: Queue, m: Waiter) returns (blocked: bool)
    requires m in q.waiters
    ensures blocked <==> WriterAhead(q, m)
  {
    var ahead := RangeBelow(q.waiters, q.waiters[m]);
    var i := 0;
    while i < |ahead|
      invariant 0 <= i <= |ahead|
      invariant forall k :: 0 <= k < i ==> !ahead[k].Writer?
    {
      if ahead[i].Writer? {
        assert ahead[i] in ahead;
        return true;
      }
      i := i + 1;
    }
    blocked := false;
  }

  /** Join on the first attempt, refresh the stamp on a retry, and give all three keys a new expiry. */
  method JoinOrRefresh(q: Queue, m: Waiter, now: int, stamp: int, timeout: nat) returns (r: Queue)
    requires Ordered(q)
    ensures r == Join(q, m, now, stamp, timeout) && Ordered(r)
  {
    r := q;
    if m !in r.waiters {
      r := r.(counter := r.counter + 1);
      r := r.(waiters := r.waiters[m := r.counter]);
    }
    r := r.(seen := r.seen[m := stamp]);
    r := r.(waitersExp := now + timeout);
    r := r.(seenExp := now + timeout);
    r := r.(counterExp := now + timeout);
  }

  // ---------------------------------------------------------------- permit arguments

  /** The member tokens of one grant, in the order a client lists them. */
  function Tokens(id: Token, n: nat): seq<Permit> { seq(n, i requires 0 <= i < n => Permit(id, i)) }

  /** The counting loop of the acquisition script: are all tokens present? */
  method CountOwned(permits: map<Permit, int>, args: seq<Permit>) returns (owned: nat)
    ensures owned <= |args|
    ensures owned == |args| <==> forall p :: p in args ==> p in permits
  {
    owned := 0;
    var i := 0;
    while i < |args|
      invariant 0 <= i <= |args| && owned <= i
      invariant owned == i <==> forall k :: 0 <= k < i ==> args[k] in permits
    {
      if args[i] in permits { owned := owned + 1; }
      i := i + 1;
    }
  }

  /** The insertion loop: one ZADD per token. */
  method AddAll(permits: map<Permit, int>, args: seq<Permit>, score: int, ghost id: Token) returns (r: map<Permit, int>)
    requires args == Tokens(id, |args|)
    ensures r == Grant(permits, id, |args|, score)
  {
    r := permits;
    var i := 0;
    while i < |args|
      invariant 0 <= i <= |args|
      invariant r == Grant(permits, id, i, score)
    {
      r := r[args[i] := score];
      i := i + 1;
    }
  }

  /** The checking loop of the renewal script: stop at the first token that is gone or expired. */
  method CheckOwned(permits: map<Permit, int>, args: seq<Permit>, stamp: int) returns (ok: bool)
    ensures ok <==> forall p :: p in args ==> p in permits && permits[p] > stamp
  {
    var i := 0;
    while i < |args|
      invariant 0 <= i <= |args|
      invariant forall k :: 0 <= k < i ==> args[k] in permits && permits[args[k]] > stamp
    {
      if args[i] !in permits || permits[args[i]] <= stamp {
        assert args[i] in args;
        return false;
      }
      i := i + 1;
    }
    ok := true;
  }

  /** The removal loop of the release script, counting what each ZREM removed. */
  method RemoveAll(permits: map<Permit, int>, args: seq<Permit>, ghost id: Token)
    returns (r: map<Permit, int>, removed: nat)
    requires args == Tokens(id, |args|)
    ensures r == Drop(permits, id, |args|) && removed == Present(permits, id, |args|)
  {
    r, removed := permits, 0;
    var i := 0;
    while i < |args|
      invariant 0 <= i <= |args|
      invariant r == Drop(permits, id, i) && removed == Present(permits, id, i)
    {
      DropRemoves(permits, id, i);
      if args[i] in r { removed := removed + 1; }
      r := r - {args[i]};
      i := i + 1;
    }
  }

  lemma OwnsAllOfTokens(permits: map<Permit, int>, stamp: int, id: Token, n: nat)
    ensures (forall p :: p in Tokens(id, n) ==> p in Reclaim(permits, stamp)) <==> OwnsAll(permits, id, n, stamp)
    ensures (forall p :: p in Tokens(id, n) ==> p in permits && permits[p] > stamp) <==> OwnsAll(permits, id, n, stamp)
  {
    assert forall i :: 0 <= i < n ==> Tokens(id, n)[i] == Permit(id, i) && Tokens(id, n)[i] in Tokens(id, n);
    assert forall p :: p in Reclaim(permits, stamp) <==> p in permits && permits[p] > stamp;
  }

  lemma OneTokenHeld(s: Redis, token: Token, stamp: int)
    ensures ReadHeld(s, token, stamp) <==> Permit(token, 0) in s.permits && s.permits[Permit(token, 0)] > stamp
  {
  }

  // ---------------------------------------------------------------- the longer scripts, step by step

  /** A retry of a grant still live finds all of its tokens. */
  method IsReplay(permits: map<Permit, int>, live: map<Permit, int>, args: seq<Permit>, ghost stamp: int,
                  ghost id: Token)
    returns (replay: bool)
    requires live == Reclaim(permits, stamp) && args == Tokens(id, |args|)
    ensures replay <==> OwnsAll(permits, id, |args|, stamp)
  {
    var owned := CountOwned(live, args);
    OwnsAllOfTokens(permits, stamp, id, |args|);
    replay := owned == |args|;
  }

  method SemAcquireScript(s: Redis, stamp: int, ttl: int, capacity: int, args: seq<Permit>, ghost id: Token)
    returns (s': Redis, reply: Option<nat>)
    requires args == Tokens(id, |args|)
    ensures (s', reply) == SemAcquire(s, stamp, ttl, capacity, id, |args|)
  {
    var live := Reclaim(s.permits, stamp);
    var used := |live|;
    var replay := IsReplay(s.permits, live, args, stamp, id);
    if replay {
      return s.(permits := live), Some(used);
    }
    if used + |args| > capacity {
      return s.(permits := live), None;
    }
    var added := AddAll(live, args, stamp + ttl, id);
    return s.(permits := added), Some(used + |args|);
  }

  /** Join or refresh, then purge. */
  method EnterQueue(q: Queue, m: Waiter, now: int, stamp: int, timeout: nat) returns (e: Queue)
    requires Ordered(q)
    ensures e == Enter(q, m, now, stamp, timeout) && Ordered(e) && m in e.waiters
  {
    e := JoinOrRefresh(q, m, now, stamp, timeout);
    e := PurgeLoop(e, stamp, timeout);
    EnterEvolves(q, m, now, stamp, timeout);
    EnterKeepsCaller(q, m, now, stamp, timeout);
  }

  method IsHead(q: Queue, m: Waiter) returns (first: bool)
    requires Ordered(q) && m in q.waiters
    ensures first <==> AtHead(q, m)
  {
    var h := Head(q.waiters);
    first := h == m;
  }

  method WriteLockScript(s: Redis, token: Token, ttl: int, stamp: int, timeout: nat)
    returns (s': Redis, reply: Option<nat>)
    requires Ordered(s.queue)
    ensures (s', reply) == WriteLock(s, token, ttl, stamp, timeout)
  {
    if s.owner.Owned? && s.owner.token == token {
      return s, Some(s.fencing);
    }
    var q := EnterQueue(s.queue, Writer(token), s.now, stamp, timeout);
    s' := s.(queue := q);
    var first := IsHead(q, Writer(token));
    if !first || s'.owner.Owned? {
      return s', None;
    }
    s' := s'.(permits := Reclaim(s'.permits, stamp));
    if s'.permits != map[] {
      return s', None;
    }
    s' := s'.(owner := Owned(token, s'.now + ttl));
    s' := s'.(queue := Leave(q, Writer(token)));
    s' := s'.(fencing := s'.fencing + 1);
    return s', Some(s'.fencing);
  }

  method ReadLockScript(s: Redis, token: Token, ttl: int, stamp: int, timeout: nat)
    returns (s': Redis, reply: Option<nat>)
    requires Ordered(s.queue)
    ensures (s', reply) == ReadLock(s, token, ttl, stamp, timeout)
  {
    OneTokenHeld(s, token, stamp);
    var p := Permit(token, 0);
    if p in s.permits && s.permits[p] > stamp {
      return s, Some(1);
    }
    var q := EnterQueue(s.queue, Reader(token), s.now, stamp, timeout);
    s' := s.(queue := q);
    var blocked := ScanAhead(q, Reader(token));
    if s'.owner.Owned? || blocked {
      return s', None;
    }
    assert Grant(s.permits, token, 0, stamp + ttl) == s.permits;
    s' := s'.(permits := s'.permits[p := stamp + ttl]);
    s' := s'.(queue := Leave(q, Reader(token)));
    return s', Some(1);
  }

  // ---------------------------------------------------------------- the server

  /** One Redis holding the keys of one primitive. Scripts run one at a time and update it in place. */
  class Server {
    var keys: Redis

    ghost predicate Valid()
      reads this
    {
      Ordered(keys.queue)
    }

    constructor (start: int)
      ensures Valid() && keys == Redis(start, Free, 0, map[], Queue(map[], start, map[], start, 0, start))
    {
      keys := Redis(start, Free, 0, map[], Queue(map[], start, map[], start, 0, start));
    }

    method Tick(ms: nat)
      requires Valid()
      modifies this
      ensures Valid() && keys == Advance(old(keys), ms)
    {
      StepEvolves(keys, Command.Tick(ms));
      keys := Advance(keys, ms);
    }

    method ReleaseSingle(token: Token) returns (ok: bool)
      requires Valid()
      modifies this
      ensures Valid() && (keys, ok) == SingleRelease(old(keys), token)
    {
      ok := keys.owner.Owned? && keys.owner.token == token;
      if ok {
        keys := keys.(owner := Free);
      }
    }

    method AcquirePermits(stamp: int, ttl: int, capacity: int, args: seq<Permit>, ghost id: Token)
      returns (reply: Option<nat>)
      requires Valid() && args == Tokens(id, |args|)
      modifies this
      ensures Valid() && (keys, reply) == SemAcquire(old(keys), stamp, ttl, capacity, id, |args|)
    {
      keys, reply := SemAcquireScript(keys, stamp, ttl, capacity, args, id);
    }

    method RenewPermits(stamp: int, ttl: int, args: seq<Permit>, ghost id: Token) returns (ok: bool)
      requires Valid() && args == Tokens(id, |args|)
      modifies this
      ensures Valid() && (keys, ok) == SemRenew(old(keys), stamp, ttl, id, |args|)
    {
      OwnsAllOfTokens(keys.permits, stamp, id, |args|);
      ok := CheckOwned(keys.permits, args, stamp);
      if ok {
        var renewed := AddAll(keys.permits, args, stamp + ttl, id);
        keys := keys.(permits := renewed);
      }
    }

    method ReleasePermits(args: seq<Permit>, ghost id: Token) returns (removed: nat)
      requires Valid() && args == Tokens(id, |args|)
      modifies this
      ensures Valid() && (keys, removed) == SemRelease(old(keys), id, |args|)
    {
      var left;
      left, removed := RemoveAll(keys.permits, args, id);
      keys := keys.(permits := left);
    }

    method LockWrite(token: Token, ttl: int, stamp: int, timeout: nat) returns (reply: Option<nat>)
      requires Valid()
      modifies this
      ensures Valid() && (keys, reply) == WriteLock(old(keys), token, ttl, stamp, timeout)
    {
      StepEvolves(keys, Write(token, ttl, stamp, timeout));
      keys, reply := WriteLockScript(keys, token, ttl, stamp, timeout);
    }

    method LockRead(token: Token, ttl: int, stamp: int, timeout: nat) returns (reply: Option<nat>)
      requires Valid()
      modifies this
      ensures Valid() && (keys, reply) == ReadLock(old(keys), token, ttl, stamp, timeout)
    {
      StepEvolves(keys, Read(token, ttl, stamp, timeout));
      keys, reply := ReadLockScript(keys, token, ttl, stamp, timeout);
    }

    /** The two commands with which a contender that gives up leaves the queue: its entry and its stamp are gone, and
        everybody else stands where they stood. */
    method Dequeue(m: Waiter)
      requires Valid()
      modifies this
      ensures Valid() && m !in keys.queue.waiters && m !in keys.queue.seen
      ensures forall k :: k != m ==> (k in keys.queue.waiters <==> k in old(keys).queue.waiters)
      ensures forall k :: k in keys.queue.waiters ==> keys.queue.waiters[k] == old(keys).queue.waiters[k]
      ensures forall k :: k != m ==> (k in keys.queue.seen <==> k in old(keys).queue.seen)
      ensures forall k :: k in keys.queue.seen ==> keys.queue.seen[k] == old(keys).queue.seen[k]
      ensures keys == old(keys).(queue := Leave(old(keys).queue, m))
    {
      keys := DequeueRank(keys, m);
      keys := DequeueSeen(keys, m);
    }
  }
}
