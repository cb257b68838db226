/** The Redis keys of one named primitive, as a value, and the atomic scripts over them.

    Time on the server is whole milliseconds. A key with an expiry is dropped when the
    server clock reaches it (`Advance`), so no script ever sees an expired key and time
    stands still while a script executes. */
module Store {
  datatype Option<+T> = None | Some(value: T)

  type Token = string

  /** How an operation on a lease ends: done, refused, failed on the way, or with the lease gone. */
  datatype Result = Ok | Denied | Transient | Lost

  /** Some key of a non-empty part of a map has the least value there. */
  lemma {:induction false} LeastExists<K>(m: map<K, int>, among: set<K>)
    requires {} < among <= m.Keys
    ensures exists h :: h in among && forall k :: k in among ==> m[h] <= m[k]
    decreases |among|
  {
    var x :| x in among;
    if among == {x} {
      assert x in among;
    } else {
      LeastExists(m, among - {x});
      var h :| h in among - {x} && forall k :: k in among - {x} ==> m[h] <= m[k];
      var least := if m[h] <= m[x] then h else x;
      assert least in among && forall k :: k in among ==> m[least] <= m[k];
    }
  }

  lemma Smaller<T>(a: set<T>, b: set<T>)
    requires a <= b
    ensures |a| <= |b| && (a != b ==> |a| < |b|)
  {
    assert b == a + (b - a);
    assert a != b ==> b - a != {};
  }

  /** An entry of the arrival queue: the source spells these `W:token` and `R:token`. */
  datatype Waiter = Writer(token: Token) | Reader(token: Token)

  /** A member of a permit set (`id#index`). A read lock is the single permit of index 0. */
  datatype Permit = Permit(id: Token, index: nat)

  lemma FewerKeys(a: map<Permit, int>, b: map<Permit, int>)
    requires a.Keys <= b.Keys
    ensures |a| <= |b| && (a.Keys != b.Keys ==> |a| < |b|)
  {
    Smaller(a.Keys, b.Keys);
    assert |a| == |a.Keys| && |b| == |b.Keys|;
  }

  /** The lock key (mutex, leader) or writer key (read-write lock). */
  datatype Slot = Free | Owned(token: Token, expireAt: int)

  /** The three expiring keys of the arrival queue. An empty `waiters` or `seen` and a zero
      `counter` stand for an absent key, whose expiry field is then meaningless. */
  datatype Queue = Queue(waiters: map<Waiter, nat>, waitersExp: int,
                         seen: map<Waiter, int>, seenExp: int,
                         counter: nat, counterExp: int)

  datatype Redis = Redis(now: int, owner: Slot, fencing: nat, permits: map<Permit, int>, queue: Queue)

  predicate OwnedBy(s: Redis, token: Token) {
    s.owner.Owned? && s.owner.token == token
  }

  // ---------------------------------------------------------------- expiry

  function Advance(s: Redis, ms: nat): Redis {
    var now := s.now + ms;
    var q := s.queue;
    Redis(now,
          if s.owner.Owned? && s.owner.expireAt <= now then Free else s.owner,
          s.fencing, s.permits,
          Queue(if q.waitersExp <= now then map[] else q.waiters, q.waitersExp,
                if q.seenExp <= now then map[] else q.seen, q.seenExp,
                if q.counterExp <= now then 0 else q.counter, q.counterExp))
  }

  // ---------------------------------------------------------------- single-owner scripts

  function SingleAcquire(s: Redis, token: Token, ttl: int, fencing: bool): (Redis, Option<nat>) {
    if OwnedBy(s, token) then
      (s, Some(if fencing then s.fencing else 0))
    else if s.owner.Free? then
      var f := if fencing then s.fencing + 1 else s.fencing;
      (s.(owner := Owned(token, s.now + ttl), fencing := f), Some(if fencing then f else 0))
    else
      (s, None)
  }

  function SingleRenew(s: Redis, token: Token, ttl: int): (Redis, bool) {
    if OwnedBy(s, token) then (s.(owner := Owned(token, s.now + ttl)), true) else (s, false)
  }

  function SingleRelease(s: Redis, token: Token): (Redis, bool) {
    if OwnedBy(s, token) then (s.(owner := Free), true) else (s, false)
  }

  // ---------------------------------------------------------------- permit-set scripts

  /** What ZREMRANGEBYSCORE -inf stamp leaves behind. */
  function Reclaim(permits: map<Permit, int>, stamp: int): map<Permit, int> {
    map p | p in permits && permits[p] > stamp :: permits[p]
  }

  /** ZADD of the members `id#0` up to `id#(n-1)`, all with one score. */
  function Grant(permits: map<Permit, int>, id: Token, n: nat, score: int): map<Permit, int> {
    if n == 0 then permits else Grant(permits, id, n - 1, score)[Permit(id, n - 1) := score]
  }

  lemma {:induction false} GrantAdds(permits: map<Permit, int>, id: Token, n: nat, score: int)
    ensures forall p :: p in Grant(permits, id, n, score) <==> p in permits || (p.id == id && p.index < n)
    ensures forall p :: p in Grant(permits, id, n, score) ==>
              Grant(permits, id, n, score)[p] == if p.id == id && p.index < n then score else permits[p]
  {
    if n > 0 { GrantAdds(permits, id, n - 1, score); }
  }

  lemma OneMore(entries: map<Permit, int>, p: Permit, v: int)
    requires p !in entries
    ensures |entries[p := v]| == |entries| + 1
  {
    assert entries[p := v].Keys == entries.Keys + {p};
    assert |entries[p := v]| == |entries[p := v].Keys| && |entries| == |entries.Keys|;
  }

  lemma {:induction false} GrantSize(entries: map<Permit, int>, id: Token, n: nat, v: int)
    requires forall p :: p in entries ==> p.id != id
    ensures |Grant(entries, id, n, v)| == |entries| + n
  {
    if n > 0 {
      GrantSize(entries, id, n - 1, v);
      assert Permit(id, n - 1) !in Grant(entries, id, n - 1, v) by { GrantAdds(entries, id, n - 1, v); }
      OneMore(Grant(entries, id, n - 1, v), Permit(id, n - 1), v);
    }
  }

  /** ZREM of those members. */
  function Drop(permits: map<Permit, int>, id: Token, n: nat): map<Permit, int> {
    if n == 0 then permits else Drop(permits, id, n - 1) - {Permit(id, n - 1)}
  }

  lemma {:induction false} DropRemoves(permits: map<Permit, int>, id: Token, n: nat)
    ensures forall p :: p in Drop(permits, id, n) <==> p in permits && !(p.id == id && p.index < n)
    ensures forall p :: p in Drop(permits, id, n) ==> Drop(permits, id, n)[p] == permits[p]
  {
    if n > 0 { DropRemoves(permits, id, n - 1); }
  }

  function Present(permits: map<Permit, int>, id: Token, n: nat): nat {
    if n == 0 then 0 else Present(permits, id, n - 1) + if Permit(id, n - 1) in permits then 1 else 0
  }

  predicate OwnsAll(permits: map<Permit, int>, id: Token, n: nat, stamp: int) {
    forall i :: 0 <= i < n ==> Permit(id, i) in permits && permits[Permit(id, i)] > stamp
  }

  function SemAcquire(s: Redis, stamp: int, ttl: int, capacity: int, id: Token, n: nat): (Redis, Option<nat>) {
    var live := Reclaim(s.permits, stamp);
    var reclaimed := s.(permits := live);
    if OwnsAll(s.permits, id, n, stamp) then
      (reclaimed, Some(|live|))
    else if |live| + n > capacity then
      (reclaimed, None)
    else
      (s.(permits := Grant(live, id, n, stamp + ttl)), Some(|live| + n))
  }

  function SemRenew(s: Redis, stamp: int, ttl: int, id: Token, n: nat): (Redis, bool) {
    if OwnsAll(s.permits, id, n, stamp)
    then (s.(permits := Grant(s.permits, id, n, stamp + ttl)), true)
    else (s, false)
  }

  function SemRelease(s: Redis, id: Token, n: nat): (Redis, nat) {
    (s.(permits := Drop(s.permits, id, n)), Present(s.permits, id, n))
  }

  // ---------------------------------------------------------------- arrival queue

  /** Join on the first attempt, refresh on a retry; all three keys get one new expiry. */
  function Join(q: Queue, m: Waiter, now: int, stamp: int, timeout: int): Queue {
    var exp := now + timeout;
    if m in q.waiters
    then Queue(q.waiters, exp, q.seen[m := stamp], exp, q.counter, exp)
    else Queue(q.waiters[m := q.counter + 1], exp, q.seen[m := stamp], exp, q.counter + 1, exp)
  }

  predicate Stale(q: Queue, m: Waiter, stamp: int, timeout: int) {
    m in q.seen && q.seen[m] < stamp - timeout
  }

  /** Some entry at or ahead of `m` is not stale, so the purge stops before removing `m`. */
  predicate Shielded(q: Queue, m: Waiter, stamp: int, timeout: int)
    requires m in q.waiters
  {
    exists k :: k in q.waiters && q.waiters[k] <= q.waiters[m] && !Stale(q, k, stamp, timeout)
  }

  function Survivors(q: Queue, stamp: int, timeout: int): set<Waiter> {
    set m | m in q.waiters && Shielded(q, m, stamp, timeout)
  }

  function Purge(q: Queue, stamp: int, timeout: int): Queue {
    var keep := Survivors(q, stamp, timeout);
    var gone := q.waiters.Keys - keep;
    q.(waiters := q.waiters - gone, seen := q.seen - gone)
  }

  function Leave(q: Queue, m: Waiter): Queue {
    q.(waiters := q.waiters - {m}, seen := q.seen - {m})
  }

  /** The queue a lock attempt decides on. */
  function Enter(q: Queue, m: Waiter, now: int, stamp: int, timeout: int): Queue {
    Purge(Join(q, m, now, stamp, timeout), stamp, timeout)
  }

  predicate AtHead(q: Queue, m: Waiter) {
    m in q.waiters && forall k :: k in q.waiters ==> q.waiters[m] <= q.waiters[k]
  }

  predicate WriterAhead(q: Queue, m: Waiter) {
    m in q.waiters && exists k :: k in q.waiters && k.Writer? && q.waiters[k] < q.waiters[m]
  }

  // ---------------------------------------------------------------- read-write lock scripts

  function WriteLock(s: Redis, token: Token, ttl: int, stamp: int, timeout: int): (Redis, Option<nat>) {
    var m := Writer(token);
    if OwnedBy(s, token) then
      (s, Some(s.fencing))
    else
      var q := Enter(s.queue, m, s.now, stamp, timeout);
      var waiting := s.(queue := q);
      if !AtHead(q, m) || s.owner.Owned? then
        (waiting, None)
      else
        var active := Reclaim(s.permits, stamp);
        if active != map[] then
          (waiting.(permits := active), None)
        else
          (Redis(s.now, Owned(token, s.now + ttl), s.fencing + 1, map[], Leave(q, m)), Some(s.fencing + 1))
  }

  /** A read lock is one permit. */
  predicate ReadHeld(s: Redis, token: Token, stamp: int) {
    OwnsAll(s.permits, token, 1, stamp)
  }

  function ReadLock(s: Redis, token: Token, ttl: int, stamp: int, timeout: int): (Redis, Option<nat>) {
    var m := Reader(token);
    if ReadHeld(s, token, stamp) then
      (s, Some(1))
    else
      var q := Enter(s.queue, m, s.now, stamp, timeout);
      if s.owner.Owned? || WriterAhead(q, m) then
        (s.(queue := q), None)
      else
        (s.(permits := Grant(s.permits, token, 1, stamp + ttl), queue := Leave(q, m)), Some(1))
  }

  /** Dequeue is two commands, so another client may run between them. */
  function DequeueRank(s: Redis, m: Waiter): Redis {
    s.(queue := s.queue.(waiters := s.queue.waiters - {m}))
  }

  function DequeueSeen(s: Redis, m: Waiter): Redis {
    s.(queue := s.queue.(seen := s.queue.seen - {m}))
  }
}
