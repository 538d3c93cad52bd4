/** Frequent series of control plane steps, none of them a forced pause. */
module Series {
  import opened Store
  import opened ControlPlane

  /** A claimed run gets its lease and its task. */
  lemma EvolvesStart(quota: map<Tenant, nat>, from: State, s: State, p: Pid, id: Worker, run: RunId)
    requires Evolves(quota, from, s) && p in s.procs && s.procs[p] == Claimed(id, run)
    ensures Evolves(quota, from, s.(procs := s.procs[p := Live(id, run)], leases := s.leases + {run}))
  {
    hide Evolves;
    EvolvesOn(quota, from, s, TakeLease(p, true));
    var t := Apply(quota, s, TakeLease(p, true));
    assert t == s.(procs := s.procs[p := Leased(id, run)], leases := s.leases + {run});
    EvolvesOn(quota, from, t, Spawn(p));
    assert s.procs[p := Leased(id, run)][p := Live(id, run)] == s.procs[p := Live(id, run)];
  }

  lemma DeliverFirst(quota: map<Tenant, nat>, from: State, s: State, p: Pid, id: Worker, run: RunId, resume: bool)
    requires Evolves(quota, from, s) && p !in s.procs && Deliverable(s, id, run)
    ensures var h := if resume then OnResume(id, run, false) else OnTrigger(id, run);
            Evolves(quota, from, s.(procs := s.procs[p := h]))
  {
    hide Evolves, Deliverable;
    EvolvesOn(quota, from, s, Deliver(p, id, run, resume));
  }

  function AfterClaim(s: State, p: Pid, id: Worker, run: RunId): State
    requires run in s.runs
  {
    s.(runs := s.runs[run := s.runs[run].(status := RunningRun)], procs := s.procs[p := Claimed(id, run)])
  }

  lemma ClaimNow(quota: map<Tenant, nat>, from: State, s: State, p: Pid, id: Worker, run: RunId)
    requires p in s.procs && run in s.runs && Evolves(quota, from, s)
    requires || (s.procs[p] == OnTrigger(id, run) && s.runs[run].status == Queued)
             || (s.procs[p] == OnResume(id, run, false) && s.runs[run].status == PausedRun)
             || (s.procs[p] == OnResume(id, run, true) && s.runs[run].status == WaitingRun)
    ensures Evolves(quota, from, AfterClaim(s, p, id, run))
  {
    hide Evolves;
    EvolvesOn(quota, from, s, Claim(p));
  }

  lemma SecondTry(quota: map<Tenant, nat>, from: State, s: State, p: Pid, id: Worker, run: RunId)
    requires p in s.procs && s.procs[p] == OnResume(id, run, false) && Evolves(quota, from, s)
    requires run in s.runs && s.runs[run].status == WaitingRun
    ensures Evolves(quota, from, s.(procs := s.procs[p := OnResume(id, run, true)]))
  {
    hide Evolves;
    EvolvesOn(quota, from, s, Claim(p));
  }

  /** A message for a run that may be claimed, taken to its claim. */
  lemma EvolvesClaim(quota: map<Tenant, nat>, from: State, s: State, p: Pid, id: Worker, run: RunId, resume: bool)
    requires Evolves(quota, from, s) && p !in s.procs && Deliverable(s, id, run)
    requires if resume then s.runs[run].status.PausedRun? || s.runs[run].status.WaitingRun?
             else s.runs[run].status.Queued?
    ensures Evolves(quota, from, AfterClaim(s, p, id, run))
  {
    DeliverFirst(quota, from, s, p, id, run, resume);
    hide Evolves, Deliverable;
    var h := if resume then OnResume(id, run, false) else OnTrigger(id, run);
    var t := s.(procs := s.procs[p := h]);
    if resume && s.runs[run].status.WaitingRun? {
      SecondTry(quota, from, t, p, id, run);
      t := t.(procs := t.procs[p := OnResume(id, run, true)]);
    }
    ClaimNow(quota, from, t, p, id, run);
    assert AfterClaim(t, p, id, run) == AfterClaim(s, p, id, run);
  }

  function Ended(s: State, p: Pid, run: RunId, outcome: RunStatus): State
    requires run in s.runs
  {
    s.(runs := s.runs[run := s.runs[run].(status := outcome)], procs := s.procs - {p}, leases := s.leases - {run})
  }

  /** The executor is done: the lease goes first, then the status is written. */
  lemma EvolvesEnd(quota: map<Tenant, nat>, s: State, p: Pid, id: Worker, run: RunId, outcome: RunStatus)
    requires p in s.procs && s.procs[p] == Live(id, run) && run in s.runs && Releasable(outcome)
    ensures Evolves(quota, s, Ended(s, p, run, outcome))
  {
    hide Evolves;
    EvolvesNowhere(quota, s);
    EvolvesOn(quota, s, s, Exit(p, outcome));
    var t := Apply(quota, s, Exit(p, outcome));
    EvolvesOn(quota, s, t, WriteStatus(p));
    assert t.procs - {p} == s.procs - {p};
  }

  /** A task that is cancelled: it is gone, and its lease is released on the way out. */
  lemma EvolvesCancel(quota: map<Tenant, nat>, s: State, p: Pid, run: RunId)
    requires p in s.procs
    ensures Evolves(quota, s, Leave(s, p).(leases := s.leases - {run}))
  {
    hide Evolves;
    EvolvesNowhere(quota, s);
    EvolvesOn(quota, s, s, Die(p));
    var t := Apply(quota, s, Die(p));
    if run in t.leases {
      EvolvesOn(quota, s, t, ExpireLease(run));
    } else {
      assert s.leases - {run} == s.leases;
    }
  }

  lemma EvolvesStopped(quota: map<Tenant, nat>, from: State, s: State, p: Pid, run: RunId)
    requires Evolves(quota, from, s) && p !in s.procs && run in s.runs
    ensures Evolves(quota, from, s.(runs := s.runs[run := s.runs[run].(status := CancelledRun)]))
  {
    hide Evolves;
    EvolvesOn(quota, from, s, StopCommand(p, run));
    var t := Apply(quota, s, StopCommand(p, run));
    EvolvesOn(quota, from, t, WriteCancelled(p));
    assert t.procs - {p} == s.procs;
  }
}
