/**
 A worker and the run service as classes. Each of their methods, run without interruption,
 is a series of steps of the control plane; the interleavings are the control plane's own.
 */
module Workers {
  import opened Dags
  import opened States
  import opened Store
  import opened Stops
  import opened Locks
  import opened Series
  import C = ControlPlane

  // ---------------------------------------------------------------------------
  // Leases
  // ---------------------------------------------------------------------------

  const LEASE := "run-exec:"
  const LEASE_TTL := 60000   // milliseconds

  function LeaseKey(run: RunId): string {
    LEASE + run
  }

  /** The runs that have a lease entry. */
  function Leases(holders: map<string, Time>): set<RunId> {
    set k | k in holders && LEASE <= k :: k[|LEASE|..]
  }

  /** The lease is taken for a minute, unless one is there. */
  function Leased(holders: map<string, Time>, run: RunId, now: Time): map<string, Time> {
    if HeldAt(holders, "run-exec:" + run, now) then holders else holders["run-exec:" + run := now + 60000]
  }

  lemma LeaseTaken(holders: map<string, Time>, run: RunId, until: Time)
    ensures Leases(holders[LeaseKey(run) := until]) == Leases(holders) + {run}
  {
    var after := holders[LeaseKey(run) := until];
    assert LeaseKey(run)[|LEASE|..] == run;
    forall r
      ensures r in Leases(after) <==> r in Leases(holders) + {run}
    {
      LeaseOf(holders, r);
      LeaseOf(after, r);
    }
  }

  lemma LeaseReleased(holders: map<string, Time>, run: RunId)
    ensures Leases(holders - {LeaseKey(run)}) == Leases(holders) - {run}
  {
    var after := holders - {LeaseKey(run)};
    forall r
      ensures r in Leases(after) <==> r in Leases(holders) - {run}
    {
      LeaseOf(holders, r);
      LeaseOf(after, r);
      SameLease(r, run);
    }
  }

  lemma SameLease(r: RunId, run: RunId)
    ensures LeaseKey(r) == LeaseKey(run) <==> r == run
  {
    assert LeaseKey(r)[|LEASE|..] == r && LeaseKey(run)[|LEASE|..] == run;
  }

  lemma LeaseOf(holders: map<string, Time>, run: RunId)
    ensures run in Leases(holders) <==> LeaseKey(run) in holders
  {
    assert LeaseKey(run)[|LEASE|..] == run;
    if run in Leases(holders) {
      var k :| k in holders && LEASE <= k && k[|LEASE|..] == run;
      assert k == LeaseKey(run);
    }
  }

  // ---------------------------------------------------------------------------
  // The shared table of processes
  // ---------------------------------------------------------------------------

  /** What the store does not hold of the control plane's state: who is doing what. */
  class Hub {
    ghost const quota: map<C.Tenant, nat>
    ghost var procs: map<C.Pid, C.Proc>
    ghost var locks: map<C.Tenant, C.Pid>

    ghost constructor (quota: map<C.Tenant, nat>)
      ensures this.quota == quota && procs == map[] && locks == map[]
    {
      this.quota := quota;
      procs, locks := map[], map[];
    }
  }

  type Tasks = map<RunId, C.Pid>

  type Procs = map<C.Pid, C.Proc>

  /** The tasks are the live executors of the worker, one for each run. */
  ghost predicate TasksLive(id: C.Worker, tasks: Tasks, procs: Procs) {
    && (forall run | run in tasks :: tasks[run] in procs && procs[tasks[run]] == C.Live(id, run))
    && (forall p, run | p in procs && procs[p] == C.Live(id, run) :: run in tasks && tasks[run] == p)
  }

  lemma TaskClaimed(id: C.Worker, tasks: Tasks, procs: Procs, p: C.Pid, run: RunId)
    requires TasksLive(id, tasks, procs) && p !in procs
    ensures TasksLive(id, tasks, procs[p := C.Claimed(id, run)])
  {
  }

  lemma TaskStarted(id: C.Worker, tasks: Tasks, procs: Procs, p: C.Pid, run: RunId)
    requires TasksLive(id, tasks, procs) && run !in tasks && p in procs && !procs[p].Live?
    ensures TasksLive(id, tasks[run := p], procs[p := C.Live(id, run)])
  {
  }

  lemma TaskEnded(id: C.Worker, tasks: Tasks, procs: Procs, run: RunId)
    requires TasksLive(id, tasks, procs) && run in tasks
    ensures TasksLive(id, tasks - {run}, procs - {tasks[run]})
    ensures tasks[run] in procs && procs[tasks[run]] == C.Live(id, run)
  {
  }

  /** No executor of the worker is in the way of a run that is not among its tasks. */
  lemma MayBeDelivered(id: C.Worker, tasks: Tasks, s: C.State, run: RunId)
    requires TasksLive(id, tasks, s.procs) && run !in tasks && run in s.runs
    requires !(s.runs[run].status.DoneRunStatus? || s.runs[run].status.FailedRunStatus?
             || s.runs[run].status.CancelledRun?)
    ensures C.Deliverable(s, id, run)
  {
  }

  lemma LiveRunIsThere(s: C.State, p: C.Pid, id: C.Worker, run: RunId)
    requires C.Exclusive(s) && p in s.procs && s.procs[p] == C.Live(id, run)
    ensures run in s.runs
  {
    assert C.Owns(s.procs[p], run);
  }

  class Worker {
    const id: C.Worker
    const store: MemoryStore
    const lock: InMemoryLock
    ghost const hub: Hub

    /** The task that executes each run of this worker, and the executors asked to pause. */
    var tasks: map<RunId, C.Pid>
    var pausing: set<RunId>

    ghost function Abs(): C.State
      reads this, store, lock, hub
    {
      C.State(store.runs, hub.procs, hub.locks, Leases(lock.holders))
    }

    ghost predicate Valid()
      reads this, store, lock, hub
    {
      TasksLive(id, tasks, hub.procs) && C.Exclusive(Abs())
    }

    constructor (id: C.Worker, store: MemoryStore, lock: InMemoryLock, ghost hub: Hub)
      requires forall p, run | p in hub.procs :: hub.procs[p] != C.Live(id, run)
      requires C.Exclusive(C.State(store.runs, hub.procs, hub.locks, Leases(lock.holders)))
      ensures this.id == id && this.store == store && this.lock == lock && this.hub == hub
      ensures Valid() && tasks == map[] && pausing == {}
    {
      this.id, this.store, this.lock, this.hub := id, store, lock, hub;
      tasks, pausing := map[], {};
    }

    /** From the claim on: take the lease and start the task. */
    method Start(run: RunId, p: C.Pid, now: Time, ghost from: C.State)
      requires Valid() && run !in tasks && p in hub.procs && hub.procs[p] == C.Claimed(id, run)
      requires C.Evolves(hub.quota, from, Abs()) && C.Exclusive(from)
      modifies this`tasks, hub`procs, lock
      ensures Valid() && C.Evolves(hub.quota, from, Abs())
      ensures tasks == old(tasks)[run := p]
      ensures hub.procs == old(hub.procs)[p := C.Live(id, run)]
      ensures lock.holders == Leased(old(lock.holders), run, now)
    {
      hide C.Exclusive, C.Evolves, Leases, TasksLive, C.Deliverable;
      EvolvesStart(hub.quota, from, Abs(), p, id, run);
      TaskStarted(id, tasks, hub.procs, p, run);
      LeaseOf(lock.holders, run);
      LeaseTaken(lock.holders, run, now + LEASE_TTL);
      var got := lock.Acquire(LeaseKey(run), LEASE_TTL, now);
      assert Leases(lock.holders) == Leases(old(lock.holders)) + {run};
      tasks := tasks[run := p];
      hub.procs := hub.procs[p := C.Live(id, run)];
      C.StaysExclusive(hub.quota, from, Abs());
    }

    /** A trigger message: exactly a queued run is claimed, and it is claimed by becoming running. */
    method HandleTrigger(run: RunId, p: C.Pid, now: Time) returns (claimed: bool)
      requires Valid() && p !in hub.procs
      modifies this`tasks, hub`procs, store`runs, lock
      ensures Valid() && C.Evolves(hub.quota, old(Abs()), Abs())
      ensures claimed <==> run !in old(tasks) && run in old(store.runs) && old(store.runs)[run].status == Queued
      ensures claimed ==>
                && store.runs == old(store.runs)[run := old(store.runs)[run].(status := RunningRun)]
                && tasks == old(tasks)[run := p] && hub.procs == old(hub.procs)[p := C.Live(id, run)]
                && lock.holders == Leased(old(lock.holders), run, now)
      ensures !claimed ==> tasks == old(tasks) && Abs() == old(Abs())
    {
      hide C.Exclusive, C.Evolves, Leases, TasksLive, C.Deliverable;
      ghost var s := Abs();
      C.EvolvesNowhere(hub.quota, s);
      if run in tasks || run !in store.runs {
        return false;
      }
      var status := store.runs[run].status;
      if status.DoneRunStatus? || status.FailedRunStatus? || status.CancelledRun? {
        return false;
      }
      if status.Queued? {
        MayBeDelivered(id, tasks, s, run);
        EvolvesClaim(hub.quota, s, s, p, id, run, false);
      }
      claimed := store.CasUpdateRunStatus(run, Queued, RunningRun);
      if !claimed {
        return;
      }
      TaskClaimed(id, tasks, hub.procs, p, run);
      hub.procs := hub.procs[p := C.Claimed(id, run)];
      assert Abs() == AfterClaim(s, p, id, run);
      C.StaysExclusive(hub.quota, s, Abs());
      Start(run, p, now, s);
    }

    /** A resume message: exactly a paused run or one that waits for approval is claimed. */
    method CmdResume(run: RunId, p: C.Pid, now: Time) returns (claimed: bool)
      requires Valid() && p !in hub.procs
      modifies this`tasks, hub`procs, store`runs, lock
      ensures Valid() && C.Evolves(hub.quota, old(Abs()), Abs())
      ensures claimed <==> run !in old(tasks) && run in old(store.runs)
                           && (old(store.runs)[run].status == PausedRun || old(store.runs)[run].status == WaitingRun)
      ensures claimed ==>
                && store.runs == old(store.runs)[run := old(store.runs)[run].(status := RunningRun)]
                && tasks == old(tasks)[run := p] && hub.procs == old(hub.procs)[p := C.Live(id, run)]
                && lock.holders == Leased(old(lock.holders), run, now)
      ensures !claimed ==> tasks == old(tasks) && Abs() == old(Abs())
    {
      hide C.Exclusive, C.Evolves, Leases, TasksLive, C.Deliverable;
      ghost var s := Abs();
      C.EvolvesNowhere(hub.quota, s);
      if run in tasks || run !in store.runs {
        return false;
      }
      var status := store.runs[run].status;
      if status.DoneRunStatus? || status.FailedRunStatus? || status.CancelledRun? {
        return false;
      }
      if status.PausedRun? || status.WaitingRun? {
        MayBeDelivered(id, tasks, s, run);
        EvolvesClaim(hub.quota, s, s, p, id, run, true);
      }
      claimed := store.CasUpdateRunStatus(run, PausedRun, RunningRun);
      if !claimed {
        claimed := store.CasUpdateRunStatus(run, WaitingRun, RunningRun);
      }
      if !claimed {
        return;
      }
      TaskClaimed(id, tasks, hub.procs, p, run);
      hub.procs := hub.procs[p := C.Claimed(id, run)];
      assert Abs() == AfterClaim(s, p, id, run);
      C.StaysExclusive(hub.quota, s, Abs());
      Start(run, p, now, s);
    }

    /** A pause message reaches the executor of a run of this worker, and is dropped otherwise. */
    method CmdPause(run: RunId)
      requires Valid()
      modifies this`pausing
      ensures Valid() && Abs() == old(Abs())
      ensures pausing == if run in tasks then old(pausing) + {run} else old(pausing)
    {
      if run in tasks {
        pausing := pausing + {run};
      }
    }

    /** The end of a task: forget the run, release its lease, then write its status. */
    method Finish(run: RunId, outcome: RunStatus)
      requires Valid() && run in tasks && C.Releasable(outcome)
      modifies this`tasks, this`pausing, hub`procs, store`runs, lock
      ensures Valid() && C.Evolves(hub.quota, old(Abs()), Abs())
      ensures tasks == old(tasks) - {run} && pausing == old(pausing) - {run}
      ensures hub.procs == old(hub.procs) - {old(tasks)[run]}
      ensures run in old(store.runs) && store.runs == old(store.runs)[run := old(store.runs)[run].(status := outcome)]
      ensures lock.holders == old(lock.holders) - {LeaseKey(run)}
    {
      hide C.Exclusive, C.Evolves, Leases, TasksLive;
      ghost var s := Abs();
      ghost var p := tasks[run];
      TaskEnded(id, tasks, hub.procs, run);
      LiveRunIsThere(s, p, id, run);
      EvolvesEnd(hub.quota, s, p, id, run, outcome);
      tasks, pausing := tasks - {run}, pausing - {run};
      LeaseReleased(lock.holders, run);
      lock.Release(LeaseKey(run));
      store.UpdateRun(run, outcome);
      hub.procs := hub.procs - {p};
      assert Abs() == Ended(s, p, run, outcome);
      C.StaysExclusive(hub.quota, s, Abs());
    }

    /** Cancel every node that the checkpoint does not keep as terminal, and then the run. */
    method MarkCancelled(d: Dag, run: RunId)
      requires (set n | n in d.order) == d.nodes.Keys
      modifies store`nodes, store`runs
      ensures run !in old(store.runs) ==> store.runs == old(store.runs) && store.nodes == old(store.nodes)
      ensures run in old(store.runs) ==>
                && store.runs == old(store.runs)[run := old(store.runs)[run].(status := CancelledRun)]
                && store.Rows(run) == WorkerStopped(d, old(store.Rows(run)))
                && forall r | r != run :: store.Rows(r) == old(store.Rows(r))
    {
      if run !in store.runs {
        return;
      }
      hide WorkerStopped, Restored;
      ghost var rows := store.Rows(run);
      CancelScanStops(d, rows);
      var states := Restored(d, store.Rows(run));
      for i := 0 to |d.order|
        invariant store.runs == old(store.runs)
        invariant store.Rows(run) == CancelScan(d.order, states, rows, i)
        invariant forall r | r != run :: store.Rows(r) == old(store.Rows(r))
      {
        var nid := d.order[i];
        assert nid in (set n | n in d.order);
        if !Terminal(states[nid].status) {
          store.PutNode(run, nid, CANCELLED);
        }
      }
      store.UpdateRun(run, CancelledRun);
    }

    /** A stop message: whoever executes the run here is cancelled, and the run is, whatever its status was. */
    method CmdStop(d: Dag, run: RunId, p: C.Pid)
      requires Valid() && p !in hub.procs && (set n | n in d.order) == d.nodes.Keys
      modifies this`tasks, this`pausing, hub`procs, store`runs, store`nodes, lock
      ensures Valid() && C.Evolves(hub.quota, old(Abs()), Abs())
      ensures run !in tasks && tasks == old(tasks) - {run}
      ensures hub.procs == if run in old(tasks) then old(hub.procs) - {old(tasks)[run]} else old(hub.procs)
      ensures run in old(store.runs) ==>
                && store.runs == old(store.runs)[run := old(store.runs)[run].(status := CancelledRun)]
                && store.Rows(run) == WorkerStopped(d, old(store.Rows(run)))
                && forall r | r != run :: store.Rows(r) == old(store.Rows(r))
      ensures run !in old(store.runs) ==> store.runs == old(store.runs) && store.nodes == old(store.nodes)
      ensures lock.holders == if run in old(tasks) then old(lock.holders) - {LeaseKey(run)} else old(lock.holders)
    {
      hide C.Exclusive, C.Evolves, Leases, TasksLive, C.Deliverable;
      ghost var s := Abs();
      C.EvolvesNowhere(hub.quota, s);
      if run in tasks {
        Cancel(run);
      }
      ghost var t := Abs();
      MarkCancelled(d, run);
      if run in t.runs {
        EvolvesStopped(hub.quota, s, t, p, run);
      }
      C.StaysExclusive(hub.quota, s, Abs());
    }

    /** Cancel the task of a run. */
    method Cancel(run: RunId)
      requires Valid() && run in tasks
      modifies this`tasks, this`pausing, hub`procs, lock
      ensures Valid() && C.Evolves(hub.quota, old(Abs()), Abs())
      ensures tasks == old(tasks) - {run} && pausing == old(pausing) - {run}
      ensures hub.procs == old(hub.procs) - {old(tasks)[run]}
      ensures lock.holders == old(lock.holders) - {LeaseKey(run)}
    {
      hide C.Exclusive, C.Evolves, Leases, TasksLive, C.Deliverable;
      ghost var s := Abs();
      ghost var p := tasks[run];
      TaskEnded(id, tasks, hub.procs, run);
      EvolvesCancel(hub.quota, s, p, run);
      tasks, pausing := tasks - {run}, pausing - {run};
      LeaseReleased(lock.holders, run);
      lock.Release(LeaseKey(run));
      hub.procs := hub.procs - {p};
      assert Abs() == C.Leave(s, p).(leases := s.leases - {run});
      C.StaysExclusive(hub.quota, s, Abs());
    }
  }
}
