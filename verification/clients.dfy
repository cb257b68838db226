/** Client operations that complete in one go: the permit set and the two non-blocking read-write lock attempts.
    Clock readings before and after each round trip are parameters. */
module Clients {
  import opened Store
  import opened Clock
  import opened Scripts
  import Answers

  // ---------------------------------------------------------------- what a release undoes

  ghost predicate Unrelated(permits: map<Permit, int>, id: Token) {
    forall p :: p in permits ==> p.id != id
  }

  lemma DropUndoesGrant(permits: map<Permit, int>, id: Token, n: nat, score: int)
    requires Unrelated(permits, id)
    ensures Drop(Grant(permits, id, n, score), id, n) == permits
  {
    GrantAdds(permits, id, n, score);
    DropRemoves(Grant(permits, id, n, score), id, n);
  }

  /** The release count misses exactly what was gone. */
  lemma {:induction false} PresentMisses(permits: map<Permit, int>, id: Token, n: nat)
    ensures Present(permits, id, n) <= n
    ensures Present(permits, id, n) == n <==> forall i :: 0 <= i < n ==> Permit(id, i) in permits
  {
    if n > 0 { PresentMisses(permits, id, n - 1); }
  }

  lemma GrantIsWhole(permits: map<Permit, int>, id: Token, n: nat, score: int)
    ensures Present(Grant(permits, id, n, score), id, n) == n
  {
    GrantAdds(permits, id, n, score);
    PresentMisses(Grant(permits, id, n, score), id, n);
  }

  lemma ReleaseUndoesGrant(s: Redis, live: map<Permit, int>, id: Token, n: nat, score: int)
    requires Unrelated(live, id)
    ensures SemRelease(s.(permits := Grant(live, id, n, score)), id, n) == (s.(permits := live), n)
  {
    GrantIsWhole(live, id, n, score);
    DropUndoesGrant(live, id, n, score);
  }

  lemma NotReplayed(s: Redis, stamp: int, ttl: int, capacity: int, id: Token, n: nat)
    requires n >= 1 && Unrelated(s.permits, id) && SemAcquire(s, stamp, ttl, capacity, id, n).1.Some?
    ensures SemAcquire(s, stamp, ttl, capacity, id, n).0
         == s.(permits := Grant(Reclaim(s.permits, stamp), id, n, stamp + ttl))
  {
    assert Permit(id, 0) !in s.permits;
    assert !OwnsAll(s.permits, id, n, stamp);
  }

  /** Acquire and release again: every permit comes back, and nothing of the grant is left behind. */
  lemma ReleaseUndoesAcquire(s: Redis, stamp: int, ttl: int, capacity: int, id: Token, n: nat)
    requires n >= 1 && Unrelated(s.permits, id) && SemAcquire(s, stamp, ttl, capacity, id, n).1.Some?
    ensures SemRelease(SemAcquire(s, stamp, ttl, capacity, id, n).0, id, n)
         == (s.(permits := Reclaim(s.permits, stamp)), n)
  {
    var live := Reclaim(s.permits, stamp);
    NotReplayed(s, stamp, ttl, capacity, id, n);
    assert Unrelated(live, id);
    ReleaseUndoesGrant(s, live, id, n, stamp + ttl);
  }

  // ---------------------------------------------------------------- permits

  class PermitSet {
    const id: Token
    const ttl: nat
    const capacity: nat
    var tokens: seq<Permit>
    var acquired: bool
    var expiresAt: Option<int>

    ghost predicate Valid()
      reads this
    {
      tokens == Tokens(id, |tokens|)
    }

    constructor (id: Token, ttl: nat, capacity: nat)
      ensures Valid() && tokens == [] && !acquired && expiresAt == None
      ensures this.id == id && this.ttl == ttl && this.capacity == capacity
    {
      this.id, this.ttl, this.capacity := id, ttl, capacity;
      tokens, acquired, expiresAt := [], false, None;
    }

    method TokenList(n: nat) returns (list: seq<Permit>)
      ensures list == Tokens(id, n)
    {
      list := [];
      var i := 0;
      while i < n
        invariant 0 <= i <= n && list == Tokens(id, i)
      {
        list := list + [Permit(id, i)];
        i := i + 1;
      }
    }

    /** One attempt for `n` permits. A grant that arrives after its local deadline is given back on the spot, so that
        for a fresh id the server holds exactly what it held before, less what had expired. */
    method TryAcquire(server: Server, n: int, started: int, finished: int) returns (r: Result)
      requires Valid() && server.Valid()
      modifies this, server
      ensures Valid() && server.Valid()
      ensures n < 1 ==> r == Ok && server.keys == old(server.keys) && unchanged(this)
      ensures n >= 1 ==>
        var s := SemAcquire(old(server.keys), Stamp(started), TtlMs(ttl), capacity, id, n).0;
        var deadline := RequestExpiry(started, ttl);
        var live := Answers.LiveCount(old(server.keys).permits, Stamp(started));
        && (r == Denied <==>
              !Answers.Live(old(server.keys).permits, id, n, Stamp(started)) && live + n > capacity)
        && (r != Denied ==> r == if deadline > finished then Ok else Lost)
        && (r == Ok && Unrelated(old(server.keys).permits, id) ==> |server.keys.permits| == live + n)
        && (r == Denied ==> server.keys == s && unchanged(this))
        && (r == Ok ==> server.keys == s && tokens == Tokens(id, n) && acquired && expiresAt == Some(deadline))
        && (r == Lost ==> tokens == [] && !acquired && expiresAt == None)
        && (r == Lost && Unrelated(old(server.keys).permits, id) ==>
              server.keys == old(server.keys).(permits := Reclaim(old(server.keys).permits, Stamp(started))))
    {
      var deadline := RequestExpiry(started, ttl);
      if n < 1 { return Ok; }
      var list := TokenList(n);
      ghost var before := server.keys;
      Answers.PermitsRefusedExactlyWhen(before, Stamp(started), TtlMs(ttl), capacity, id, n);
      var reply := server.AcquirePermits(Stamp(started), TtlMs(ttl), capacity, list, id);
      if reply.None? { return Denied; }
      tokens := list;
      if deadline <= finished {
        if Unrelated(before.permits, id) {
          ReleaseUndoesAcquire(before, Stamp(started), TtlMs(ttl), capacity, id, n);
        }
        var _ := Release(server);
        return Lost;
      }
      if Unrelated(before.permits, id) {
        Answers.FreshGrantCounted(before, Stamp(started), TtlMs(ttl), capacity, id, n);
      }
      acquired := true;
      expiresAt := Some(deadline);
      return Ok;
    }

    /** A renewal counts only if every permit was still owned and the reply came within the old and the new deadline;
        then the deadline never moves back. */
    method Renew(server: Server, started: int, finished: int) returns (r: Result)
      requires Valid() && server.Valid()
      modifies this`expiresAt, server
      ensures Valid() && server.Valid()
      ensures tokens == [] ==> r == Lost && server.keys == old(server.keys) && expiresAt == old(expiresAt)
      ensures tokens != [] ==>
        server.keys == SemRenew(old(server.keys), Stamp(started), TtlMs(ttl), id, |tokens|).0
      ensures r == Ok <==>
        && tokens != []
        && OwnsAll(old(server.keys).permits, id, |tokens|, Stamp(started))
        && old(expiresAt).Some? && old(expiresAt).value > finished && RequestExpiry(started, ttl) > finished
      ensures r == Ok ==> expiresAt.Some? && expiresAt.value >= old(expiresAt).value
                          && expiresAt.value >= RequestExpiry(started, ttl)
                          && expiresAt.value in {old(expiresAt).value, RequestExpiry(started, ttl)}
      ensures r != Ok ==> r == Lost && expiresAt == old(expiresAt)
    {
      var deadline := RequestExpiry(started, ttl);
      if |tokens| == 0 { return Lost; }
      var ok := server.RenewPermits(Stamp(started), TtlMs(ttl), tokens, id);
      if !ok { return Lost; }
      if expiresAt.None? || expiresAt.value <= finished || deadline <= finished { return Lost; }
      if deadline > expiresAt.value { expiresAt := Some(deadline); }
      return Ok;
    }

    /** A release removes the caller's own permits and nobody else's, and reports loss exactly when some were gone. */
    method Release(server: Server) returns (r: Result)
      requires Valid() && server.Valid()
      modifies this, server
      ensures Valid() && server.Valid()
      ensures tokens == [] && (old(tokens) == [] ==> r == Lost && server.keys == old(server.keys) && unchanged(this))
      ensures old(tokens) != [] ==>
        && !acquired && expiresAt == None
        && server.keys == SemRelease(old(server.keys), id, |old(tokens)|).0
        && (r == Ok <==> forall i :: 0 <= i < |old(tokens)| ==> Permit(id, i) in old(server.keys).permits)
        && (r != Ok ==> r == Lost)
    {
      if |tokens| == 0 { return Lost; }
      PresentMisses(server.keys.permits, id, |tokens|);
      var removed := server.ReleasePermits(tokens, id);
      var count := |tokens|;
      tokens, acquired, expiresAt := [], false, None;
      return if removed != count then Lost else Ok;
    }

    /** Held means every permit is there and unexpired at `now`. */
    method Held(server: Server, now: int) returns (held: bool)
      requires Valid()
      ensures held <==> tokens != [] && OwnsAll(server.keys.permits, id, |tokens|, Stamp(now))
    {
      if |tokens| == 0 { return false; }
      OwnsAllOfTokens(server.keys.permits, Stamp(now), id, |tokens|);
      held := CheckOwned(server.keys.permits, tokens, Stamp(now));
    }
  }

  // ---------------------------------------------------------------- non-blocking lock attempts

  /** Giving back a late write grant frees the key; the queue stays as the grant left it, and the token stays spent. */
  lemma LateWriteUndone(s: Redis, token: Token, ttl: int, stamp: int, timeout: nat)
    requires WriteLock(s, token, ttl, stamp, timeout).1.Some?
    ensures var granted := WriteLock(s, token, ttl, stamp, timeout).0;
            SingleRelease(granted, token) == (granted.(owner := Free), true)
  {
  }

  /** Giving back a late read grant of a fresh token leaves the reader set as it was. */
  lemma LateReadUndone(s: Redis, token: Token, ttl: int, stamp: int, timeout: nat)
    requires ReadLock(s, token, ttl, stamp, timeout).1.Some? && Unrelated(s.permits, token)
    ensures var granted := ReadLock(s, token, ttl, stamp, timeout).0;
            SemRelease(granted, token, 1) == (granted.(permits := s.permits), 1)
  {
    assert Permit(token, 0) !in s.permits;
    assert !ReadHeld(s, token, stamp);
    var granted := ReadLock(s, token, ttl, stamp, timeout).0;
    assert granted.permits == Grant(s.permits, token, 1, stamp + ttl);
    ReleaseUndoesGrant(granted, s.permits, token, 1, stamp + ttl);
  }

  /** One attempt on the write side. A failed one leaves no trace of the caller in the queue; a grant that arrives after
      its local deadline is given back on the spot. */
  method TryLock(server: Server, token: Token, ttl: nat, started: int, finished: int) returns (r: Result, fence: nat)
    requires server.Valid()
    modifies server
    ensures server.Valid()
    ensures var (s, reply) := WriteLock(old(server.keys), token, TtlMs(ttl), Stamp(started), WaiterTimeout(ttl));
            && (r == Denied <==> reply.None?)
            && (r == Ok <==> reply.Some? && RequestExpiry(started, ttl) > finished)
            && (r == Ok ==> server.keys == s && fence == reply.value)
            && (r == Denied ==> server.keys == s.(queue := Leave(s.queue, Writer(token))))
            && (r != Ok && r != Denied ==> r == Lost && server.keys == SingleRelease(s, token).0)
  {
    var reply := server.LockWrite(token, TtlMs(ttl), Stamp(started), WaiterTimeout(ttl));
    if reply.None? {
      server.Dequeue(Writer(token));
      return Denied, 0;
    }
    if RequestExpiry(started, ttl) <= finished {
      var _ := server.ReleaseSingle(token);
      return Lost, 0;
    }
    return Ok, reply.value;
  }

  /** The same on the read side. */
  method TryRLock(server: Server, token: Token, ttl: nat, started: int, finished: int) returns (r: Result)
    requires server.Valid()
    modifies server
    ensures server.Valid()
    ensures var (s, reply) := ReadLock(old(server.keys), token, TtlMs(ttl), Stamp(started), WaiterTimeout(ttl));
            && (r == Denied <==> reply.None?)
            && (r == Ok <==> reply.Some? && RequestExpiry(started, ttl) > finished)
            && (r == Ok ==> server.keys == s)
            && (r == Denied ==> server.keys == s.(queue := Leave(s.queue, Reader(token))))
            && (r != Ok && r != Denied ==> r == Lost && server.keys == SemRelease(s, token, 1).0)
  {
    var reply := server.LockRead(token, TtlMs(ttl), Stamp(started), WaiterTimeout(ttl));
    if reply.None? {
      server.Dequeue(Reader(token));
      return Denied;
    }
    if RequestExpiry(started, ttl) <= finished {
      var _ := server.ReleasePermits([Permit(token, 0)], token);
      return Lost;
    }
    return Ok;
  }
}
