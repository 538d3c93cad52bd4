/**
 The processes that share the run rows: API creators under the quota lock, worker handlers
 that claim runs by compare-and-set, the tasks that execute them, and stop commands. Messages
 may be duplicated, lost or reordered: a handler may start at any time, on any worker.
 */
module ControlPlane {
  import opened Store

  type Pid = nat
  type Worker = nat
  type Tenant = string

  datatype Proc =
    // creating a run
    | AwaitingLock(tenant: Tenant)
    | Locked(tenant: Tenant)
    | Checked(tenant: Tenant)                     // the quota check has passed
    | Inserted(tenant: Tenant, run: RunId)        // the row is in, the lock still held
    | Preparing(run: RunId)                       // lock released, workspace being prepared
    // claiming a run
    | OnTrigger(worker: Worker, run: RunId)       // before its compare-and-set
    | OnResume(worker: Worker, run: RunId, second: bool)
    | Claimed(worker: Worker, run: RunId)         // status is running, no lease yet
    | Leased(worker: Worker, run: RunId)
    // executing a run
    | Live(worker: Worker, run: RunId)
    | Exiting(worker: Worker, run: RunId, outcome: RunStatus)  // executor gone, lease released
    // stopping a run
    | Stopping(run: RunId)

  datatype State = State(
    runs: map<RunId, RunRow>,
    procs: map<Pid, Proc>,
    locks: map<Tenant, Pid>,
    leases: set<RunId>)

  datatype Step =
    | Arrive(p: Pid, tenant: Tenant)
    | TakeLock(p: Pid)
    | CheckQuota(p: Pid)
    | Insert(p: Pid, run: RunId)
    | Unlock(p: Pid)
    | Enqueue(p: Pid)
    | Deliver(p: Pid, worker: Worker, run: RunId, resume: bool)
    | Claim(p: Pid)
    | TakeLease(p: Pid, got: bool)                 // the lock service may be unreachable
    | ExpireLease(run: RunId)                      // its time to live is over
    | Spawn(p: Pid)
    | Exit(p: Pid, outcome: RunStatus)
    | WriteStatus(p: Pid)
    | Die(p: Pid)                                  // crash, raised exception or cancelled task
    | LoseLock(tenant: Tenant)                     // its time to live is over, or it is released by key
    | StopCommand(p: Pid, run: RunId)
    | WriteCancelled(p: Pid)
    | ForcePause(run: RunId)                       // API: saw no lease, so pauses without the worker

  const EMPTY := State(map[], map[], map[], {})

  /** The workers refuse a message for a run that they execute themselves, or that is over. */
  predicate Deliverable(s: State, worker: Worker, run: RunId) {
    && run in s.runs
    && !(s.runs[run].status.DoneRunStatus? || s.runs[run].status.FailedRunStatus? || s.runs[run].status.CancelledRun?)
    && !exists p | p in s.procs :: s.procs[p] == Live(worker, run)
  }

  predicate Releasable(outcome: RunStatus) {
    outcome.DoneRunStatus? || outcome.FailedRunStatus? || outcome.WaitingRun? || outcome.PausedRun?
  }

  predicate Enabled(s: State, e: Step) {
    match e
    case Arrive(p, _) => p !in s.procs
    case TakeLock(p) => p in s.procs && s.procs[p].AwaitingLock? && s.procs[p].tenant !in s.locks
    case CheckQuota(p) => p in s.procs && s.procs[p].Locked?
    case Insert(p, run) => p in s.procs && s.procs[p].Checked? && run !in s.runs
    case Unlock(p) => p in s.procs && s.procs[p].Inserted?
    case Enqueue(p) => p in s.procs && s.procs[p].Preparing? && s.procs[p].run in s.runs
    case Deliver(p, worker, run, _) => p !in s.procs && Deliverable(s, worker, run)
    case Claim(p) => p in s.procs && (s.procs[p].OnTrigger? || s.procs[p].OnResume?)
    case TakeLease(p, _) => p in s.procs && s.procs[p].Claimed?
    case ExpireLease(run) => run in s.leases
    case Spawn(p) => p in s.procs && s.procs[p].Leased?
    case Exit(p, outcome) => p in s.procs && s.procs[p].Live? && Releasable(outcome)
    case WriteStatus(p) => p in s.procs && s.procs[p].Exiting? && s.procs[p].run in s.runs
    case Die(p) => p in s.procs
    case LoseLock(tenant) => tenant in s.locks
    case StopCommand(p, run) => p !in s.procs && run in s.runs
    case WriteCancelled(p) => p in s.procs && s.procs[p].Stopping? && s.procs[p].run in s.runs
    case ForcePause(run) => run in s.runs && s.runs[run].status.RunningRun?
  }

  function SetStatus(s: State, run: RunId, status: RunStatus): State
    requires run in s.runs
  {
    s.(runs := s.runs[run := s.runs[run].(status := status)])
  }

  function Become(s: State, p: Pid, proc: Proc): State {
    s.(procs := s.procs[p := proc])
  }

  function Leave(s: State, p: Pid): State {
    s.(procs := s.procs - {p})
  }

  /** A release goes by the key, whoever holds it. */
  function Release(s: State, tenant: Tenant): State {
    s.(locks := s.locks - {tenant})
  }

  /** One compare-and-set: from the given status to running, or no claim. */
  function Cas(s: State, p: Pid, from: RunStatus, otherwise: State): State
    requires p in s.procs && (s.procs[p].OnTrigger? || s.procs[p].OnResume?)
  {
    var h := s.procs[p];
    if h.run in s.runs && s.runs[h.run].status == from
    then Become(SetStatus(s, h.run, RunningRun), p, Claimed(h.worker, h.run))
    else otherwise
  }

  function Apply(quota: map<Tenant, nat>, s: State, e: Step): State
    requires Enabled(s, e)
  {
    match e
    case Arrive(p, tenant) => Become(s, p, AwaitingLock(tenant))
    case TakeLock(p) =>
      Become(s.(locks := s.locks[s.procs[p].tenant := p]), p, Locked(s.procs[p].tenant))
    case CheckQuota(p) =>
      var tenant := s.procs[p].tenant;
      if tenant in quota && |ActiveRuns(s.runs, tenant)| >= quota[tenant]
      then Release(Leave(s, p), tenant) else Become(s, p, Checked(tenant))
    case Insert(p, run) =>
      var tenant := s.procs[p].tenant;
      Become(s.(runs := s.runs[run := RunRow(tenant, RunningRun)]), p, Inserted(tenant, run))
    case Unlock(p) => Release(Become(s, p, Preparing(s.procs[p].run)), s.procs[p].tenant)
    case Enqueue(p) => Leave(SetStatus(s, s.procs[p].run, Queued), p)
    case Deliver(p, worker, run, resume) =>
      Become(s, p, if resume then OnResume(worker, run, false) else OnTrigger(worker, run))
    case Claim(p) =>
      var h := s.procs[p];
      if h.OnTrigger? then Cas(s, p, Queued, Leave(s, p))
      else if !h.second then Cas(s, p, PausedRun, Become(s, p, h.(second := true)))
      else Cas(s, p, WaitingRun, Leave(s, p))
    case TakeLease(p, got) =>
      var h := s.procs[p];
      Become(s, p, Leased(h.worker, h.run)).(leases := if got then s.leases + {h.run} else s.leases)
    case ExpireLease(run) => s.(leases := s.leases - {run})
    case Spawn(p) => Become(s, p, Live(s.procs[p].worker, s.procs[p].run))
    case Exit(p, outcome) =>
      Become(s, p, Exiting(s.procs[p].worker, s.procs[p].run, outcome)).(leases := s.leases - {s.procs[p].run})
    case WriteStatus(p) => Leave(SetStatus(s, s.procs[p].run, s.procs[p].outcome), p)
    case Die(p) => Leave(s, p)
    case LoseLock(tenant) => Release(s, tenant)
    case StopCommand(p, run) => Become(s, p, Stopping(run))
    case WriteCancelled(p) => Leave(SetStatus(s, s.procs[p].run, CancelledRun), p)
    case ForcePause(run) => SetStatus(s, run, PausedRun)
  }

  // ---------------------------------------------------------------------------
  // One executor at a time
  // ---------------------------------------------------------------------------

  /** The process holds the claim on the run: from its compare-and-set to its last write. */
  predicate Holds(proc: Proc, run: RunId) {
    (proc.Claimed? || proc.Leased? || proc.Live? || proc.Exiting?) && proc.run == run
  }

  /** The run has been inserted by the process and not been queued yet. */
  predicate Unqueued(proc: Proc, run: RunId) {
    (proc.Inserted? || proc.Preparing?) && proc.run == run
  }

  predicate Busy(status: RunStatus) {
    status.RunningRun? || status.CancelledRun?
  }

  predicate Owns(proc: Proc, run: RunId) {
    Holds(proc, run) || Unqueued(proc, run)
  }

  /** A run has at most one owner, and while it has one its status keeps every other claim out. */
  ghost predicate Exclusive(s: State) {
    && (forall p, run | p in s.procs && Owns(s.procs[p], run) :: run in s.runs && Busy(s.runs[run].status))
    && (forall p, q, run | p in s.procs && q in s.procs && Owns(s.procs[p], run) && Owns(s.procs[q], run) :: p == q)
  }

  /** Who owns a run after a step: who owned it before, or who has just inserted or claimed it. */
  lemma OwnerAfter(quota: map<Tenant, nat>, s: State, e: Step, p: Pid, run: RunId)
    requires Enabled(s, e) && p in Apply(quota, s, e).procs && Owns(Apply(quota, s, e).procs[p], run)
    ensures || (p in s.procs && Owns(s.procs[p], run))
            || (e == Insert(p, run) && run !in s.runs)
            || (e == Claim(p) && run in s.runs && !Busy(s.runs[run].status))
  {
    hide ActiveRuns, Deliverable;
  }

  /** How the status of a run changes: only its owner's last write, a claim or a cancellation moves it. */
  lemma RowAfter(quota: map<Tenant, nat>, s: State, e: Step, run: RunId)
    requires Enabled(s, e) && run in s.runs && !e.ForcePause?
    ensures run in Apply(quota, s, e).runs
    ensures Apply(quota, s, e).runs[run].tenant == s.runs[run].tenant
    ensures var status := Apply(quota, s, e).runs[run].status;
            || status == s.runs[run].status
            || (e.WriteCancelled? && status == CancelledRun)
            || ((e.WriteStatus? || e.Enqueue?) && e.p in s.procs && Owns(s.procs[e.p], run)
              && e.p !in Apply(quota, s, e).procs)
            || (e.Claim? && !Busy(s.runs[run].status) && status == RunningRun)
  {
    hide ActiveRuns, Deliverable;
  }

  lemma NewRowIsBusy(quota: map<Tenant, nat>, s: State, e: Step, p: Pid, run: RunId)
    requires Enabled(s, e) && p in Apply(quota, s, e).procs && Owns(Apply(quota, s, e).procs[p], run)
    requires e == Insert(p, run) || (e == Claim(p) && run in s.runs && !Busy(s.runs[run].status))
    requires !(p in s.procs && Owns(s.procs[p], run))
    ensures run in Apply(quota, s, e).runs && Apply(quota, s, e).runs[run].status == RunningRun
  {
    hide ActiveRuns, Deliverable;
  }

  lemma ExclusiveStep(quota: map<Tenant, nat>, s: State, e: Step)
    requires Exclusive(s) && Enabled(s, e) && !e.ForcePause?
    ensures Exclusive(Apply(quota, s, e))
  {
    var t := Apply(quota, s, e);
    hide Apply, Enabled, Owns;
    forall p, run | p in t.procs && Owns(t.procs[p], run)
      ensures run in t.runs && Busy(t.runs[run].status)
    {
      OwnerAfter(quota, s, e, p, run);
      if p in s.procs && Owns(s.procs[p], run) {
        RowAfter(quota, s, e, run);
      } else {
        NewRowIsBusy(quota, s, e, p, run);
      }
    }
    forall p, q, run | p in t.procs && q in t.procs && Owns(t.procs[p], run) && Owns(t.procs[q], run)
      ensures p == q
    {
      OwnerAfter(quota, s, e, p, run);
      OwnerAfter(quota, s, e, q, run);
    }
  }

  // ---------------------------------------------------------------------------
  // Every interleaving
  // ---------------------------------------------------------------------------

  /** No pause forced from outside. */
  predicate Plain(e: Step) {
    !e.ForcePause?
  }

  ghost predicate Valid(quota: map<Tenant, nat>, s: State, steps: seq<Step>)
    decreases |steps|
  {
    steps == [] || (Enabled(s, steps[0]) && Valid(quota, Apply(quota, s, steps[0]), steps[1..]))
  }

  ghost function Exec(quota: map<Tenant, nat>, s: State, steps: seq<Step>): State
    requires Valid(quota, s, steps)
    decreases |steps|
  {
    if steps == [] then s else Exec(quota, Apply(quota, s, steps[0]), steps[1..])
  }

  lemma {:induction false} ExclusiveRun(quota: map<Tenant, nat>, s: State, steps: seq<Step>)
    requires Exclusive(s) && Valid(quota, s, steps) && forall e | e in steps :: Plain(e)
    ensures Exclusive(Exec(quota, s, steps))
    decreases |steps|
  {
    hide Exclusive, Enabled, Apply;
    if steps != [] {
      assert Plain(steps[0]);
      ExclusiveStep(quota, s, steps[0]);
      ExclusiveRun(quota, Apply(quota, s, steps[0]), steps[1..]);
    }
  }

  /**
   At most one live executor for each run, for any number of creators, workers and messages,
   with crashes, stops, pauses by command and releases in any order, as long as no pause is forced.
   */
  lemma AtMostOneExecutor(quota: map<Tenant, nat>, steps: seq<Step>, run: RunId, p: Pid, q: Pid)
    requires Valid(quota, EMPTY, steps) && forall e | e in steps :: Plain(e)
    requires p in Exec(quota, EMPTY, steps).procs && q in Exec(quota, EMPTY, steps).procs
    requires Holds(Exec(quota, EMPTY, steps).procs[p], run) && Holds(Exec(quota, EMPTY, steps).procs[q], run)
    ensures p == q
    ensures run in Exec(quota, EMPTY, steps).runs && Busy(Exec(quota, EMPTY, steps).runs[run].status)
  {
    assert Exclusive(EMPTY);
    ExclusiveRun(quota, EMPTY, steps);
    var s := Exec(quota, EMPTY, steps);
    assert Owns(s.procs[p], run) && Owns(s.procs[q], run);
  }

  // ---------------------------------------------------------------------------
  // What one state may lead to
  // ---------------------------------------------------------------------------

  ghost predicate Leads(quota: map<Tenant, nat>, s: State, t: State) {
    exists steps :: Valid(quota, s, steps) && Exec(quota, s, steps) == t
  }

  lemma {:induction false} ExecSnoc(quota: map<Tenant, nat>, s: State, steps: seq<Step>, e: Step)
    requires Valid(quota, s, steps) && Enabled(Exec(quota, s, steps), e)
    ensures Valid(quota, s, steps + [e])
    ensures Exec(quota, s, steps + [e]) == Apply(quota, Exec(quota, s, steps), e)
    decreases |steps|
  {
    hide Enabled, Apply;
    if steps == [] {
      assert ([] + [e])[0] == e && ([] + [e])[1..] == [];
    } else {
      assert (steps + [e])[0] == steps[0] && (steps + [e])[1..] == steps[1..] + [e];
      ExecSnoc(quota, Apply(quota, s, steps[0]), steps[1..], e);
    }
  }

  lemma LeadsFurther(quota: map<Tenant, nat>, s: State, t: State, e: Step)
    requires Leads(quota, s, t) && Enabled(t, e)
    ensures Leads(quota, s, Apply(quota, t, e))
  {
    hide Enabled, Apply;
    var steps :| Valid(quota, s, steps) && Exec(quota, s, steps) == t;
    ExecSnoc(quota, s, steps, e);
  }

  ghost predicate AllPlain(steps: seq<Step>) {
    forall e | e in steps :: Plain(e)
  }

  /** Reachable without forced pauses. */
  ghost predicate Evolves(quota: map<Tenant, nat>, s: State, t: State) {
    exists steps :: Valid(quota, s, steps) && AllPlain(steps) && Exec(quota, s, steps) == t
  }

  lemma EvolvesLeads(quota: map<Tenant, nat>, s: State, t: State)
    requires Evolves(quota, s, t)
    ensures Leads(quota, s, t)
  {
    var steps :| Valid(quota, s, steps) && AllPlain(steps) && Exec(quota, s, steps) == t;
  }

  lemma EvolvesNowhere(quota: map<Tenant, nat>, s: State)
    ensures Evolves(quota, s, s)
  {
    assert Valid(quota, s, []) && AllPlain([]) && Exec(quota, s, []) == s;
  }

  lemma EvolvesOn(quota: map<Tenant, nat>, s: State, t: State, e: Step)
    requires Evolves(quota, s, t) && Enabled(t, e) && Plain(e)
    ensures Evolves(quota, s, Apply(quota, t, e))
  {
    hide Enabled, Apply;
    var steps :| Valid(quota, s, steps) && AllPlain(steps) && Exec(quota, s, steps) == t;
    ExecSnoc(quota, s, steps, e);
    assert AllPlain(steps + [e]);
  }

  lemma StaysExclusive(quota: map<Tenant, nat>, s: State, t: State)
    requires Exclusive(s) && Evolves(quota, s, t)
    ensures Exclusive(t)
  {
    hide Exclusive;
    var steps :| Valid(quota, s, steps) && AllPlain(steps) && Exec(quota, s, steps) == t;
    ExclusiveRun(quota, s, steps);
  }
}
