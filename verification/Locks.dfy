/**
 The two lock services: the in-memory one, and the Redis one as a protocol of its clients,
 statement by statement.
 */
module Locks {
  import opened Values
  import opened Store

  // ---------------------------------------------------------------------------
  // In memory
  // ---------------------------------------------------------------------------

  predicate HeldAt(holders: map<string, Time>, key: string, now: Time) {
    key in holders && holders[key] > now
  }

  /** Keys with the moment they expire; nothing says who holds them. */
  class InMemoryLock {
    var holders: map<string, Time>

    constructor ()
      ensures holders == map[]
    {
      holders := map[];
    }

    method Acquire(key: string, ttl: nat, now: Time) returns (ok: bool)
      modifies this
      ensures ok <==> !HeldAt(old(holders), key, now)
      ensures holders == if ok then old(holders)[key := now + ttl] else old(holders)
    {
      if key in holders && holders[key] > now {
        return false;
      }
      holders := holders[key := now + ttl];
      return true;
    }

    method Release(key: string)
      modifies this
      ensures holders == old(holders) - {key}
    {
      holders := holders - {key};
    }

    /** Extends whatever lock is there, its caller's or not. */
    method Refresh(key: string, ttl: nat, now: Time) returns (ok: bool)
      modifies this
      ensures ok <==> HeldAt(old(holders), key, now)
      ensures holders == if ok then old(holders)[key := now + ttl] else old(holders)
    {
      if key !in holders || holders[key] <= now {
        return false;
      }
      holders := holders[key := now + ttl];
      return true;
    }

    /** Asking drops an expired entry, which changes no answer from then on. */
    method IsLocked(key: string, now: Time) returns (held: bool)
      modifies this
      ensures held <==> HeldAt(old(holders), key, now)
      ensures forall k, t | t >= now :: HeldAt(holders, k, t) == HeldAt(old(holders), k, t)
      ensures holders == if held then old(holders) else old(holders) - {key}
    {
      if key !in holders {
        assert holders == holders - {key};
        return false;
      }
      if holders[key] <= now {
        holders := holders - {key};
        return false;
      }
      return true;
    }
  }

  // ---------------------------------------------------------------------------
  // Redis: one key, any number of clients
  // ---------------------------------------------------------------------------

  type Token = nat

  /** A coroutine that uses a lock object. The token is the object's, so clients of one process share it. */
  datatype Client = Client(id: nat, token: Token)

  /** Redis keeps the token; which of the clients with that token has set it, only we know. */
  datatype Entry = Entry(holder: Client, expiry: Time)

  /** What a client is in the middle of; it has found its token in the version of the key given here. */
  datatype Pending =
    | Releasing(version: nat)  // and is about to delete the key, whatever has become of it
    | Refreshing(version: nat) // and watches that version

  /** `version` counts the writes to the key; a transaction that watches an older one is dropped. */
  datatype Server = Server(entry: Option<Entry>, version: nat, now: Time, pending: map<Client, Pending>)

  datatype Step =
    | Acquire(c: Client, ttl: nat)
    | ReadForRelease(c: Client)
    | Delete(c: Client)
    | ReadForRefresh(c: Client)
    | Extend(c: Client, ttl: nat)
    | Advance(span: nat)

  predicate Locked(s: Server) {
    s.entry.Some? && s.entry.value.expiry > s.now
  }

  predicate HeldBy(s: Server, c: Client) {
    Locked(s) && s.entry.value.holder == c
  }

  /** What a client can see of that. */
  predicate IsMine(s: Server, c: Client) {
    Locked(s) && s.entry.value.holder.token == c.token
  }

  /** The lock is held by another client with the same token. */
  predicate HeldBySibling(s: Server, c: Client) {
    IsMine(s, c) && !HeldBy(s, c)
  }

  predicate Enabled(s: Server, e: Step) {
    match e
    case Acquire(c, _) => c !in s.pending
    case ReadForRelease(c) => c !in s.pending
    case Delete(c) => c in s.pending && s.pending[c].Releasing?
    case ReadForRefresh(c) => c !in s.pending
    case Extend(c, _) => c in s.pending && s.pending[c].Refreshing?
    case Advance(_) => true
  }

  function Write(s: Server, entry: Option<Entry>): Server {
    s.(entry := entry, version := s.version + 1)
  }

  function Apply(s: Server, e: Step): Server
    requires Enabled(s, e)
  {
    match e
    case Acquire(c, ttl) => if Locked(s) then s else Write(s, Some(Entry(c, s.now + ttl)))
    case ReadForRelease(c) => if IsMine(s, c) then s.(pending := s.pending[c := Releasing(s.version)]) else s
    case Delete(c) => Write(s, None).(pending := s.pending - {c})
    case ReadForRefresh(c) => if IsMine(s, c) then s.(pending := s.pending[c := Refreshing(s.version)]) else s
    case Extend(c, ttl) =>
      var t := s.(pending := s.pending - {c});
      if s.pending[c].version == s.version && Locked(s) then Write(t, Some(s.entry.value.(expiry := s.now + ttl)))
        else t
    case Advance(span) => s.(now := s.now + span)
  }

  ghost predicate Valid(s: Server, steps: seq<Step>)
    decreases |steps|
  {
    steps == [] || (Enabled(s, steps[0]) && Valid(Apply(s, steps[0]), steps[1..]))
  }

  ghost function Exec(s: Server, steps: seq<Step>): Server
    requires Valid(s, steps)
    decreases |steps|
  {
    if steps == [] then s else Exec(Apply(s, steps[0]), steps[1..])
  }

  const EMPTY := Server(None, 0, 0, map[])

  /** While the version in which a client found its token is still the current one, the token is there. */
  ghost predicate Watched(s: Server) {
    forall c | c in s.pending ::
      && s.pending[c].version <= s.version
      && (s.pending[c].version == s.version ==> s.entry.Some? && s.entry.value.holder.token == c.token)
  }

  lemma {:induction false} WatchedRun(s: Server, steps: seq<Step>)
    requires Watched(s) && Valid(s, steps)
    ensures Watched(Exec(s, steps))
    decreases |steps|
  {
    if steps != [] {
      WatchedRun(Apply(s, steps[0]), steps[1..]);
    }
  }

  /**
   Under any interleaving a refresh that goes through extends, by the time to live that it asks for, a
   lock with the client's token: the client's own, or exactly if that holds it by now, another client's
   of the same lock object.
   */
  lemma RefreshExtendsIff(steps: seq<Step>, c: Client, ttl: nat)
    requires Valid(EMPTY, steps) && Enabled(Exec(EMPTY, steps), Extend(c, ttl))
    ensures var s := Exec(EMPTY, steps);
            var t := Apply(s, Extend(c, ttl));
            && (t.version != s.version <==> s.pending[c].version == s.version && Locked(s))
            && (t.version != s.version ==>
                  (HeldBy(s, c) || HeldBySibling(s, c)) && t.entry == Some(Entry(s.entry.value.holder, s.now + ttl)))
            && (t.version == s.version ==> t.entry == s.entry)
  {
    WatchedRun(EMPTY, steps);
  }

  /** If every client has a lock object to itself, a refresh extends nobody else's lock. */
  lemma RefreshIsOwn(steps: seq<Step>, c: Client, ttl: nat)
    requires Valid(EMPTY, steps) && Enabled(Exec(EMPTY, steps), Extend(c, ttl))
    requires forall d: Client | Acquires(steps, d) && d.token == c.token :: d == c
    ensures var s := Exec(EMPTY, steps);
            var t := Apply(s, Extend(c, ttl));
            t.entry != s.entry ==> HeldBy(s, c) && t.entry == Some(Entry(c, s.now + ttl))
  {
    RefreshExtendsIff(steps, c, ttl);
    HolderHasAcquired(EMPTY, steps);
  }

  ghost predicate Acquires(steps: seq<Step>, c: Client) {
    exists e :: e in steps && e.Acquire? && e.c == c
  }

  lemma {:induction false} HolderHasAcquired(s: Server, steps: seq<Step>)
    requires Valid(s, steps)
    ensures var t := Exec(s, steps);
            t.entry.Some? ==>
              || Acquires(steps, t.entry.value.holder)
              || (s.entry.Some? && s.entry.value.holder == t.entry.value.holder)
    decreases |steps|
  {
    if steps != [] {
      var u, t := Apply(s, steps[0]), Exec(s, steps);
      HolderHasAcquired(u, steps[1..]);
      if t.entry.Some? && Acquires(steps[1..], t.entry.value.holder) {
        var e :| e in steps[1..] && e.Acquire? && e.c == t.entry.value.holder;
        assert e in steps;
      }
      assert steps[0] in steps;
    }
  }

  /** A lock is lost exactly by a delete, by the clock passing its expiry, or by a refresh to zero with its token. */
  lemma LostOnlyByDelete(s: Server, e: Step, c: Client)
    requires Watched(s) && Enabled(s, e) && HeldBy(s, c)
    ensures !HeldBy(Apply(s, e), c) <==>
            || e.Delete?
            || (e.Advance? && s.entry.value.expiry <= s.now + e.span)
            || (e.Extend? && s.pending[e.c].version == s.version && e.ttl == 0 && e.c.token == c.token)
  {
  }

  /** Somebody else loses an unexpired lock by the step. */
  ghost predicate FreesForeign(s: Server, e: Step, c: Client)
    requires Enabled(s, e)
  {
    exists d :: d != c && HeldBy(s, d) && !HeldBy(Apply(s, e), d)
  }

  /**
   Under any interleaving a delete frees somebody else's unexpired lock exactly if the client does not
   hold the lock by now. If the key is still as the client has read it, that is a client of the same
   lock object; otherwise the lock has changed hands since.
   */
  lemma DeleteIsForeignIff(steps: seq<Step>, c: Client)
    requires Valid(EMPTY, steps) && Enabled(Exec(EMPTY, steps), Delete(c))
    ensures var s := Exec(EMPTY, steps);
            && (FreesForeign(s, Delete(c), c) <==> Locked(s) && !HeldBy(s, c))
            && (s.pending[c].version == s.version ==>
                  (FreesForeign(s, Delete(c), c) <==> HeldBySibling(s, c)))
  {
    WatchedRun(EMPTY, steps);
    var s := Exec(EMPTY, steps);
    if Locked(s) && !HeldBy(s, c) {
      assert HeldBy(s, s.entry.value.holder);
    }
  }

  /**
   A release with no step in between frees somebody else's lock exactly if a client of the same lock object
   holds it.
   */
  lemma ReleaseAtOnceIsForeignIff(s: Server, c: Client)
    requires Enabled(s, ReadForRelease(c))
    ensures var t := Apply(s, ReadForRelease(c));
            && (Enabled(t, Delete(c)) <==> IsMine(s, c))
            && (Enabled(t, Delete(c)) && FreesForeign(t, Delete(c), c) <==> HeldBySibling(s, c))
  {
    var t := Apply(s, ReadForRelease(c));
    if HeldBySibling(s, c) {
      assert HeldBy(t, t.entry.value.holder) && !HeldBy(Apply(t, Delete(c)), t.entry.value.holder);
    }
  }

  /**
   Reading the token and deleting the key are two statements: a client whose lock expires in between
   deletes the lock of whoever has taken it since, for every pair of clients and all times to live.
   */
  lemma LateDeleteFreesForeignLock(a: Client, b: Client, short: nat, long: nat)
    requires a != b && short > 0 && long > 0
    ensures var steps := [Acquire(a, short), ReadForRelease(a), Advance(short), Acquire(b, long)];
            && Valid(EMPTY, steps) && HeldBy(Exec(EMPTY, steps), b)
            && Enabled(Exec(EMPTY, steps), Delete(a)) && !Locked(Apply(Exec(EMPTY, steps), Delete(a)))
  {
    var s1 := Apply(EMPTY, Acquire(a, short));
    var s2 := Apply(s1, ReadForRelease(a));
    var s3 := Apply(s2, Advance(short));
    var s4 := Apply(s3, Acquire(b, long));
    ExecFour(EMPTY, Acquire(a, short), ReadForRelease(a), Advance(short), Acquire(b, long));
    assert s4 == Server(Some(Entry(b, short + long)), 2, short, map[a := Releasing(1)]);
  }

  /**
   Two clients of one lock object do not even need that: a client that comes back after its lock has
   expired reads its token in the other's lock, and deletes it.
   */
  lemma SiblingReleaseFreesForeignLock(a: Client, b: Client, short: nat, long: nat)
    requires a != b && a.token == b.token && short > 0 && long > 0
    ensures var steps := [Acquire(a, short), Advance(short), Acquire(b, long), ReadForRelease(a)];
            && Valid(EMPTY, steps) && HeldBy(Exec(EMPTY, steps), b)
            && Enabled(Exec(EMPTY, steps), Delete(a)) && !Locked(Apply(Exec(EMPTY, steps), Delete(a)))
  {
    var s1 := Apply(EMPTY, Acquire(a, short));
    var s2 := Apply(s1, Advance(short));
    var s3 := Apply(s2, Acquire(b, long));
    var s4 := Apply(s3, ReadForRelease(a));
    ExecFour(EMPTY, Acquire(a, short), Advance(short), Acquire(b, long), ReadForRelease(a));
    assert s4 == Server(Some(Entry(b, short + long)), 2, short, map[a := Releasing(2)]);
  }

  lemma ExecFour(s: Server, a: Step, b: Step, c: Step, d: Step)
    requires Enabled(s, a) && Enabled(Apply(s, a), b) && Enabled(Apply(Apply(s, a), b), c)
    requires Enabled(Apply(Apply(Apply(s, a), b), c), d)
    ensures Valid(s, [a, b, c, d]) && Exec(s, [a, b, c, d]) == Apply(Apply(Apply(Apply(s, a), b), c), d)
  {
    hide Enabled, Apply;
    assert [a, b, c, d][1..] == [b, c, d] && [b, c, d][1..] == [c, d] && [c, d][1..] == [d] && [d][1..] == [];
    var s1, s2 := Apply(s, a), Apply(Apply(s, a), b);
    var s3 := Apply(s2, c);
    assert Valid(s3, [d]) && Exec(s3, [d]) == Exec(Apply(s3, d), []);
    assert Valid(s2, [c, d]) && Exec(s2, [c, d]) == Exec(s3, [d]);
    assert Valid(s1, [b, c, d]) && Exec(s1, [b, c, d]) == Exec(s2, [c, d]);
  }
}
