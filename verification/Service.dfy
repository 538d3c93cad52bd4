/**
 The run service in queue mode: creating a run under the tenant's quota lock, and pausing one.
 Times are in milliseconds.
 */
module Service {
  import opened Store
  import opened Locks
  import opened Workers
  import C = ControlPlane
  import F = ForcedPauses

  datatype Message = Trigger(run: RunId) | PauseCommand(run: RunId) | ResumeCommand(run: RunId)

  datatype CreateResult = Created | OverQuota | LockTimedOut

  datatype PauseResult = Forced | Commanded | NoSuchRun

  /** No lock service, an answer, or no answer: whether the run has an executor may be unknown. */
  datatype Alive = Yes | No | Unknown

  const QUOTA := "tenant-quota:"
  const WAIT := 10000
  const POLL := 20

  function QuotaKey(tenant: C.Tenant): string {
    QUOTA + tenant
  }

  lemma QuotaKeyIsNoLease(holders: map<string, Time>, tenant: C.Tenant, until: Time)
    ensures Leases(holders[QuotaKey(tenant) := until]) == Leases(holders)
    ensures Leases(holders - {QuotaKey(tenant)}) == Leases(holders)
  {
    assert QuotaKey(tenant)[0] == 't' && LEASE[0] == 'r';
    assert !(LEASE <= QuotaKey(tenant));
  }

  /** The clock at the k-th look at the lock; between two looks the caller sleeps. */
  ghost predicate Polls(clock: nat -> Time) {
    forall k: nat :: clock(k) + POLL <= clock(k + 1)
  }

  // ---------------------------------------------------------------------------
  // The steps of a creation
  // ---------------------------------------------------------------------------

  function Room(quota: map<C.Tenant, nat>, runs: map<RunId, RunRow>, tenant: C.Tenant): bool {
    tenant in quota ==> |ActiveRuns(runs, tenant)| < quota[tenant]
  }

  /** The creator has the lock, which has expired if somebody else is inside, and has looked at the quota. */
  lemma EvolvesCheck(quota: map<C.Tenant, nat>, s: C.State, p: C.Pid, tenant: C.Tenant)
    requires p !in s.procs
    ensures C.Evolves(quota, s,
              if Room(quota, s.runs, tenant)
              then s.(procs := s.procs[p := C.Checked(tenant)], locks := s.locks[tenant := p])
              else s.(locks := s.locks - {tenant}))
  {
    hide C.Evolves, ActiveRuns;
    C.EvolvesNowhere(quota, s);
    var free := s.(locks := s.locks - {tenant});
    if tenant in s.locks {
      C.EvolvesOn(quota, s, s, C.LoseLock(tenant));
    } else {
      assert s.locks - {tenant} == s.locks;
    }
    C.EvolvesOn(quota, s, free, C.Arrive(p, tenant));
    var t := C.Apply(quota, free, C.Arrive(p, tenant));
    C.EvolvesOn(quota, s, t, C.TakeLock(p));
    var u := C.Apply(quota, t, C.TakeLock(p));
    assert u == s.(procs := s.procs[p := C.Locked(tenant)], locks := s.locks[tenant := p]) by {
      assert (s.locks - {tenant})[tenant := p] == s.locks[tenant := p];
    }
    C.EvolvesOn(quota, s, u, C.CheckQuota(p));
    assert s.procs[p := C.Locked(tenant)][p := C.Checked(tenant)] == s.procs[p := C.Checked(tenant)];
    assert s.procs[p := C.Locked(tenant)] - {p} == s.procs;
    assert s.locks[tenant := p] - {tenant} == s.locks - {tenant};
  }

  /** The creator inserts the run, lets go of the lock, and queues the run. */
  lemma EvolvesInsert(quota: map<C.Tenant, nat>, from: C.State, s: C.State, p: C.Pid, tenant: C.Tenant, run: RunId)
    requires C.Evolves(quota, from, s) && p in s.procs && s.procs[p] == C.Checked(tenant) && run !in s.runs
    ensures C.Evolves(quota, from,
              s.(runs := s.runs[run := RunRow(tenant, Queued)], procs := s.procs - {p}, locks := s.locks - {tenant}))
  {
    hide C.Evolves;
    C.EvolvesOn(quota, from, s, C.Insert(p, run));
    var t := C.Apply(quota, s, C.Insert(p, run));
    C.EvolvesOn(quota, from, t, C.Unlock(p));
    var u := C.Apply(quota, t, C.Unlock(p));
    C.EvolvesOn(quota, from, u, C.Enqueue(p));
    assert u.procs - {p} == s.procs - {p};
    assert C.SetStatus(u, run, Queued).runs == s.runs[run := RunRow(tenant, Queued)];
  }

  /** A creation as a whole, if the tenant has room; the creator leaves nothing else behind. */
  lemma EvolvesCreate(quota: map<C.Tenant, nat>, s: C.State, p: C.Pid, tenant: C.Tenant, run: RunId)
    requires p !in s.procs && run !in s.runs && Room(quota, s.runs, tenant)
    ensures C.Evolves(quota, s, s.(runs := s.runs[run := RunRow(tenant, Queued)], locks := s.locks - {tenant}))
  {
    hide C.Evolves, Room;
    EvolvesCheck(quota, s, p, tenant);
    var t := s.(procs := s.procs[p := C.Checked(tenant)], locks := s.locks[tenant := p]);
    EvolvesInsert(quota, s, t, p, tenant, run);
    assert t.procs - {p} == s.procs;
    assert t.locks - {tenant} == s.locks - {tenant};
  }

  /** Whoever is inside a tenant's critical section has its key in the lock service. */
  ghost predicate KeysHeld(locks: map<C.Tenant, C.Pid>, holders: map<string, Time>) {
    forall t | t in locks :: QuotaKey(t) in holders
  }

  lemma QuotaKeysDiffer(t: C.Tenant, u: C.Tenant, run: RunId)
    ensures QuotaKey(t) == QuotaKey(u) <==> t == u
    ensures QuotaKey(t) != LeaseKey(run)
  {
    assert QuotaKey(t)[|QUOTA|..] == t && QuotaKey(u)[|QUOTA|..] == u;
    assert QuotaKey(t)[0] == 't' && LeaseKey(run)[0] == 'r';
  }

  lemma KeysReleased(locks: map<C.Tenant, C.Pid>, holders: map<string, Time>, tenant: C.Tenant)
    requires KeysHeld(locks, holders)
    ensures KeysHeld(locks - {tenant}, holders - {QuotaKey(tenant)})
  {
    forall t | t in locks - {tenant}
      ensures QuotaKey(t) in holders - {QuotaKey(tenant)}
    {
      QuotaKeysDiffer(t, tenant, "");
    }
  }

  lemma KeysOutliveLeases(locks: map<C.Tenant, C.Pid>, holders: map<string, Time>, run: RunId)
    requires KeysHeld(locks, holders)
    ensures KeysHeld(locks, holders - {LeaseKey(run)})
  {
    forall t | t in locks
      ensures QuotaKey(t) in holders - {LeaseKey(run)}
    {
      QuotaKeysDiffer(t, t, run);
    }
  }

  lemma LeasesDoNotMatter(s: C.State, t: C.State)
    requires t == s.(leases := t.leases)
    ensures C.Exclusive(s) <==> C.Exclusive(t)
  {
  }

  // ---------------------------------------------------------------------------
  // The class
  // ---------------------------------------------------------------------------

  class RunService {
    const quotas: map<C.Tenant, nat>
    const store: MemoryStore
    const lock: InMemoryLock
    ghost const hub: Hub

    /** The messages published so far. */
    var published: seq<Message>

    ghost function Abs(): C.State
      reads this, store, lock, hub
    {
      C.State(store.runs, hub.procs, hub.locks, Leases(lock.holders))
    }

    ghost predicate Valid()
      reads this, store, lock, hub
    {
      hub.quota == quotas && C.Exclusive(Abs()) && KeysHeld(hub.locks, lock.holders)
    }

    constructor (quotas: map<C.Tenant, nat>, store: MemoryStore, lock: InMemoryLock, ghost hub: Hub)
      requires hub.quota == quotas
      requires C.Exclusive(C.State(store.runs, hub.procs, hub.locks, Leases(lock.holders)))
      requires KeysHeld(hub.locks, lock.holders)
      ensures this.quotas == quotas && this.store == store && this.lock == lock && this.hub == hub
      ensures Valid() && published == []
    {
      this.quotas, this.store, this.lock, this.hub := quotas, store, lock, hub;
      published := [];
    }

    /** Look at the lock until it is free, but give up once the deadline has passed, after a bounded number of looks. */
    method AcquireTenantLock(tenant: C.Tenant, clock: nat -> Time) returns (ok: bool, ghost looks: nat)
      requires Polls(clock)
      modifies lock
      ensures ok ==> exists k :: && !HeldAt(old(lock.holders), QuotaKey(tenant), clock(k))
                                 && lock.holders == old(lock.holders)[QuotaKey(tenant) := clock(k) + WAIT + 5000]
                                 && forall j: nat | j < k :: HeldAt(old(lock.holders), QuotaKey(tenant), clock(j))
      ensures !ok ==> && lock.holders == old(lock.holders)
                      && forall k | clock(k) <= clock(0) + WAIT :: HeldAt(old(lock.holders), QuotaKey(tenant), clock(k))
      ensures looks <= WAIT / POLL + 2
    {
      var key := QuotaKey(tenant);
      var deadline := clock(0) + WAIT;
      var k := 0;
      ok := lock.Acquire(key, WAIT + 5000, clock(k));
      while !ok
        invariant ok ==>
                    && !HeldAt(old(lock.holders), key, clock(k))
                    && lock.holders == old(lock.holders)[key := clock(k) + WAIT + 5000]
        invariant forall j: nat | j < k :: HeldAt(old(lock.holders), key, clock(j))
        invariant !ok ==> lock.holders == old(lock.holders) && HeldAt(old(lock.holders), key, clock(k))
        invariant clock(0) + k * POLL <= clock(k) && k <= WAIT / POLL + 1
        decreases !ok, deadline - clock(k)
      {
        if clock(k) > deadline {
          ghost var until := old(lock.holders)[key];
          assert forall j | clock(j) <= deadline :: until > clock(j);
          looks := k + 1;
          return;
        }
        assert clock(k) + POLL <= clock(k + 1);
        k := k + 1;
        ok := lock.Acquire(key, WAIT + 5000, clock(k));
      }
      looks := k + 1;
    }

    /** Create a run, whoever else is inside the tenant's critical section: exactly if the lock comes free
        in time, which for a key left behind means that it expires, and the tenant has room. The row and the trigger are
        there afterwards, the lock is not. */
    method Create(tenant: C.Tenant, run: RunId, p: C.Pid, clock: nat -> Time) returns (r: CreateResult)
      requires Valid() && Polls(clock) && run !in store.runs && p !in hub.procs
      modifies this, hub`locks, store`runs, lock
      ensures Valid() && C.Evolves(quotas, old(Abs()), Abs())
      ensures r.Created? ==>
                && Room(quotas, old(store.runs), tenant)
                && store.runs == old(store.runs)[run := RunRow(tenant, Queued)]
                && published == old(published) + [Trigger(run)]
      ensures r.OverQuota? ==> !Room(quotas, old(store.runs), tenant)
      ensures r.Created? ==> tenant in quotas ==> |ActiveRuns(old(store.runs), tenant)| < quotas[tenant]
      ensures r.OverQuota? ==> tenant in quotas && |ActiveRuns(old(store.runs), tenant)| >= quotas[tenant]
      ensures r.LockTimedOut? ==>
                && (forall k | clock(k) <= clock(0) + WAIT :: HeldAt(old(lock.holders), QuotaKey(tenant), clock(k)))
                && lock.holders == old(lock.holders) && hub.locks == old(hub.locks)
      ensures !r.LockTimedOut? ==>
                && (exists k :: !HeldAt(old(lock.holders), QuotaKey(tenant), clock(k)))
                && lock.holders == old(lock.holders) - {QuotaKey(tenant)} && hub.locks == old(hub.locks) - {tenant}
      ensures !r.Created? ==> store.runs == old(store.runs) && published == old(published)
    {
      hide C.Exclusive, C.Evolves, Leases, Polls, ActiveRuns, KeysHeld;
      ghost var s := Abs();
      ghost var holders := lock.holders;
      C.EvolvesNowhere(quotas, s);
      QuotaKeyIsNoLease(holders, tenant, 0);
      KeysReleased(hub.locks, holders, tenant);
      var ok, _ := AcquireTenantLock(tenant, clock);
      if !ok {
        return LockTimedOut;
      }
      var active := store.CountActiveRuns(tenant);
      hub.locks := hub.locks - {tenant};
      if tenant in quotas && active >= quotas[tenant] {
        EvolvesCheck(quotas, s, p, tenant);
        lock.Release(QuotaKey(tenant));
        assert lock.holders == holders - {QuotaKey(tenant)};
        assert Abs() == s.(locks := s.locks - {tenant});
        C.StaysExclusive(quotas, s, Abs());
        return OverQuota;
      }
      EvolvesCreate(quotas, s, p, tenant, run);
      store.CreateRun(run, tenant);
      lock.Release(QuotaKey(tenant));
      assert lock.holders == holders - {QuotaKey(tenant)};
      store.UpdateRun(run, Queued);
      published := published + [Trigger(run)];
      assert store.runs == s.runs[run := RunRow(tenant, Queued)];
      assert Abs() == s.(runs := store.runs, locks := s.locks - {tenant});
      C.StaysExclusive(quotas, s, Abs());
      return Created;
    }

    /** Whether the run has an executor, as far as the lease tells. */
    method ExecutorAlive(run: RunId, now: Time, reachable: bool) returns (alive: Alive)
      modifies lock
      ensures alive == if !reachable then Unknown
                       else if HeldAt(old(lock.holders), LeaseKey(run), now) then Yes else No
      ensures lock.holders == if alive == No then old(lock.holders) - {LeaseKey(run)} else old(lock.holders)
    {
      if !reachable {
        return Unknown;
      }
      var held := lock.IsLocked(LeaseKey(run), now);
      return if held then Yes else No;
    }

    /** Pause a run: behind the back of the workers exactly if it is running and surely has no lease,
        by command otherwise. After a forced pause two processes may come to hold the run exactly if
        somebody owned it at that moment. */
    method PauseRun(run: RunId, now: Time, reachable: bool) returns (r: PauseResult)
      requires Valid()
      modifies this, store`runs, lock
      ensures r.NoSuchRun? <==> run !in old(store.runs)
      ensures r.Forced? <==> run in old(store.runs) && old(store.runs)[run].status == RunningRun
                             && reachable && !HeldAt(old(lock.holders), LeaseKey(run), now)
      ensures store.runs == if r.Forced? then old(store.runs)[run := old(store.runs)[run].(status := PausedRun)]
              else old(store.runs)
      ensures published == if r.Commanded? then old(published) + [PauseCommand(run)] else old(published)
      ensures !(r.Forced? && F.Owned(old(Abs()), run)) ==> Valid()
      ensures r.Forced? ==> (F.CanDouble(quotas, Abs(), run) <==> F.Owned(old(Abs()), run))
    {
      hide C.Exclusive, Leases, F.CanDouble, KeysHeld;
      if run !in store.runs {
        return NoSuchRun;
      }
      if store.runs[run].status == RunningRun {
        LeaseReleased(lock.holders, run);
        KeysOutliveLeases(hub.locks, lock.holders, run);
        ghost var s := Abs();
        var alive := ExecutorAlive(run, now, reachable);
        LeasesDoNotMatter(s, Abs());
        if alive == No {
          ghost var t := Abs();
          F.ForcedPauseDoublesIff(quotas, t, run);
          if !F.Owned(t, run) {
            F.UnownedStaysExclusive(t, run);
          }
          var ok := store.CasUpdateRunStatus(run, RunningRun, PausedRun);
          assert Abs() == C.Apply(quotas, t, C.ForcePause(run));
          return Forced;
        }
      }
      published := published + [PauseCommand(run)];
      return Commanded;
    }
  }
}
