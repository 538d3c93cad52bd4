/** Pausing a run behind the back of the workers: when it lets two processes hold the run. */
module ForcedPauses {
  import opened Store
  import opened ControlPlane
  import opened Series
  import opened Traces

  ghost predicate TwoHolders(s: State, run: RunId) {
    exists p, q :: p in s.procs && q in s.procs && p != q && Holds(s.procs[p], run) && Holds(s.procs[q], run)
  }

  /** Without any further forced pause two processes may come to hold the run. */
  ghost predicate CanDouble(quota: map<Tenant, nat>, s: State, run: RunId) {
    exists t :: Evolves(quota, s, t) && TwoHolders(t, run)
  }

  ghost predicate Owned(s: State, run: RunId) {
    exists p :: p in s.procs && Owns(s.procs[p], run)
  }

  lemma {:induction false} BoundOf(pids: set<Pid>) returns (q: Pid)
    ensures forall p | p in pids :: p < q
  {
    if pids == {} {
      q := 0;
    } else {
      var p :| p in pids;
      var r := BoundOf(pids - {p});
      q := if p < r then r else p + 1;
      assert forall x | x in pids :: x == p || x in pids - {p};
    }
  }

  lemma FreshPid(procs: map<Pid, Proc>) returns (q: Pid)
    ensures q !in procs
  {
    q := BoundOf(procs.Keys);
  }

  function Forced(s: State, run: RunId): State
    requires run in s.runs
  {
    SetStatus(s, run, PausedRun)
  }

  /** Nobody but `p` executes the run, so any other worker takes its messages. */
  lemma OthersAreOpen(s: State, run: RunId, p: Pid, worker: Worker)
    requires Exclusive(s) && run in s.runs && p in s.procs && Owns(s.procs[p], run)
    requires s.procs[p] != Live(worker, run)
    ensures Deliverable(Forced(s, run), worker, run)
  {
    forall q | q in s.procs
      ensures s.procs[q] != Live(worker, run)
    {
      if s.procs[q] == Live(worker, run) {
        assert Owns(s.procs[q], run);
      }
    }
  }

  /** If a process holds the run, then every other worker that gets a resume message claims it as well. */
  lemma HolderIsDoubled(quota: map<Tenant, nat>, s: State, run: RunId, p: Pid, q: Pid, worker: Worker)
    requires Exclusive(s) && run in s.runs && p in s.procs && Holds(s.procs[p], run)
    requires q !in s.procs && s.procs[p] != Live(worker, run)
    ensures var t := Forced(s, run);
            && Evolves(quota, t, AfterClaim(t, q, worker, run))
            && TwoHolders(AfterClaim(t, q, worker, run), run)
  {
    var t := Forced(s, run);
    OthersAreOpen(s, run, p, worker);
    EvolvesNowhere(quota, t);
    EvolvesClaim(quota, t, t, q, worker, run, true);
    var u := AfterClaim(t, q, worker, run);
    assert u.procs[p] == s.procs[p] && Holds(u.procs[p], run) && Holds(u.procs[q], run);
  }

  /** The creator of a run, whatever the pause has done, goes on to queue it. */
  lemma CreatorQueuesIt(quota: map<Tenant, nat>, from: State, s: State, p: Pid, run: RunId) returns (t: State)
    requires Evolves(quota, from, s) && run in s.runs && p in s.procs && Unqueued(s.procs[p], run)
    ensures Evolves(quota, from, t)
    ensures t.procs == s.procs - {p} && t.runs == s.runs[run := s.runs[run].(status := Queued)]
  {
    hide Evolves;
    t := s;
    if s.procs[p].Inserted? {
      EvolvesOn(quota, from, s, Unlock(p));
      t := Apply(quota, s, Unlock(p));
      assert t.procs - {p} == s.procs - {p};
    }
    EvolvesOn(quota, from, t, Enqueue(p));
    t := Apply(quota, t, Enqueue(p));
  }

  /**
   If the creator has not queued the run yet, a resume claims it, the creator queues it, and a trigger claims
   it again.
   */
  lemma CreatedIsDoubled(quota: map<Tenant, nat>, s: State, run: RunId, p: Pid, q: Pid, r: Pid)
    requires Exclusive(s) && run in s.runs && p in s.procs && Unqueued(s.procs[p], run)
    requires q !in s.procs && r !in s.procs && q != r
    ensures CanDouble(quota, Forced(s, run), run)
  {
    var t := Forced(s, run);
    OthersAreOpen(s, run, p, 0);
    EvolvesNowhere(quota, t);
    EvolvesClaim(quota, t, t, q, 0, run, true);
    var u := AfterClaim(t, q, 0, run);
    assert u.procs[p] == s.procs[p];
    var v := CreatorQueuesIt(quota, t, u, p, run);
    NobodyExecutes(s, run, p, q, v);
    EvolvesClaim(quota, t, v, r, 0, run, false);
    var w := AfterClaim(v, r, 0, run);
    assert w.procs[q] == Claimed(0, run) && w.procs[r] == Claimed(0, run);
    assert Holds(w.procs[q], run) && Holds(w.procs[r], run);
  }

  lemma NobodyExecutes(s: State, run: RunId, p: Pid, q: Pid, v: State)
    requires Exclusive(s) && p in s.procs && Unqueued(s.procs[p], run) && p != q
    requires v.procs == s.procs[q := Claimed(0, run)] - {p}
    requires run in v.runs && v.runs[run].status == Queued
    ensures Deliverable(v, 0, run)
  {
    assert Owns(s.procs[p], run);
    forall x | x in v.procs
      ensures v.procs[x] != Live(0, run)
    {
      if x != q && s.procs[x] == Live(0, run) {
        assert Owns(s.procs[x], run);
      }
    }
  }

  lemma OwnedIsDoubled(quota: map<Tenant, nat>, s: State, run: RunId, p: Pid)
    requires Exclusive(s) && run in s.runs && p in s.procs && Owns(s.procs[p], run)
    ensures CanDouble(quota, Forced(s, run), run)
  {
    var q := FreshPid(s.procs);
    if Holds(s.procs[p], run) {
      var worker := if s.procs[p].Live? then s.procs[p].worker + 1 else 0;
      HolderIsDoubled(quota, s, run, p, q, worker);
    } else {
      var r := FreshPid(s.procs[q := s.procs[p]]);
      CreatedIsDoubled(quota, s, run, p, q, r);
    }
  }

  lemma UnownedStaysExclusive(s: State, run: RunId)
    requires Exclusive(s) && run in s.runs && !Owned(s, run)
    ensures Exclusive(Forced(s, run))
  {
    var t := Forced(s, run);
    forall p, r | p in t.procs && Owns(t.procs[p], r)
      ensures r in t.runs && Busy(t.runs[r].status)
    {
      assert r != run;
    }
  }

  /**
   Forcing a pause is safe exactly if nobody owns the run at that moment: if somebody does, two
   processes may come to hold it, through ordinary messages alone; if nobody does, then never.
   */
  lemma ForcedPauseDoublesIff(quota: map<Tenant, nat>, s: State, run: RunId)
    requires Exclusive(s) && Enabled(s, ForcePause(run))
    ensures CanDouble(quota, Apply(quota, s, ForcePause(run)), run) <==> Owned(s, run)
  {
    var t := Apply(quota, s, ForcePause(run));
    assert t == Forced(s, run);
    if Owned(s, run) {
      var p :| p in s.procs && Owns(s.procs[p], run);
      OwnedIsDoubled(quota, s, run, p);
    } else {
      UnownedStaysExclusive(s, run);
      forall u | Evolves(quota, t, u)
        ensures !TwoHolders(u, run)
      {
        StaysExclusive(quota, t, u);
        HoldersAreOne(u, run);
      }
    }
  }

  lemma HoldersAreOne(s: State, run: RunId)
    requires Exclusive(s)
    ensures !TwoHolders(s, run)
  {
    forall p, q | p in s.procs && q in s.procs && Holds(s.procs[p], run) && Holds(s.procs[q], run)
      ensures p == q
    {
      assert Owns(s.procs[p], run) && Owns(s.procs[q], run);
    }
  }

  /** The same run when the pause is forced, when a resume arrives at worker 1, and when that has claimed it. */
  const FORCED := State(map["r" := PAUSED_ROW], map[1 := Claimed(0, "r")], map[], {})
  const RESUMING := State(map["r" := PAUSED_ROW], map[1 := Claimed(0, "r"), 2 := OnResume(1, "r", false)], map[], {})
  const BOTH_CLAIMED := State(map["r" := ROW], map[1 := Claimed(0, "r"), 2 := Claimed(1, "r")], map[], {})

  /** Both workers go on: a lease each, and an executor each. */
  const ONE_LEASED := State(map["r" := ROW], map[1 := Leased(0, "r"), 2 := Claimed(1, "r")], map[], {"r"})
  const BOTH_LEASED := State(map["r" := ROW], map[1 := Leased(0, "r"), 2 := Leased(1, "r")], map[], {"r"})
  const ONE_LIVE := State(map["r" := ROW], map[1 := Live(0, "r"), 2 := Leased(1, "r")], map[], {"r"})
  const BOTH_LIVE := State(map["r" := ROW], map[1 := Live(0, "r"), 2 := Live(1, "r")], map[], {"r"})

  lemma PauseBeforeLease(quota: map<Tenant, nat>)
    ensures StepsTo(quota, JUST_CLAIMED, ForcePause("r"), FORCED)
  {
  }

  lemma ResumeArrives(quota: map<Tenant, nat>)
    ensures StepsTo(quota, FORCED, Deliver(2, 1, "r", true), RESUMING)
  {
  }

  lemma SecondClaim(quota: map<Tenant, nat>)
    ensures StepsTo(quota, RESUMING, Claim(2), BOTH_CLAIMED)
  {
  }

  lemma LeaseBoth(quota: map<Tenant, nat>)
    ensures StepsTo(quota, BOTH_CLAIMED, TakeLease(1, true), ONE_LEASED)
            && StepsTo(quota, ONE_LEASED, TakeLease(2, true), BOTH_LEASED)
  {
  }

  lemma SpawnBoth(quota: map<Tenant, nat>)
    ensures StepsTo(quota, BOTH_LEASED, Spawn(1), ONE_LIVE) && StepsTo(quota, ONE_LIVE, Spawn(2), BOTH_LIVE)
  {
  }

  /** With forced pauses the exclusion fails: between claim and lease a pause lets a second worker in. */
  lemma ForcedPauseLetsTwoRun(quota: map<Tenant, nat>)
    requires "t" in quota ==> quota["t"] > 0
    ensures Leads(quota, EMPTY, BOTH_LIVE)
    ensures BOTH_LIVE.procs[1] == Live(0, "r") && BOTH_LIVE.procs[2] == Live(1, "r")
  {
    ClaimIsReachable(quota);
    EvolvesLeads(quota, EMPTY, JUST_CLAIMED);
    PauseBeforeLease(quota);
    ResumeArrives(quota);
    SecondClaim(quota);
    LeaseBoth(quota);
    SpawnBoth(quota);
    hide Leads, Evolves, Enabled, Apply;
    LeadsFurther(quota, EMPTY, JUST_CLAIMED, ForcePause("r"));
    LeadsFurther(quota, EMPTY, FORCED, Deliver(2, 1, "r", true));
    LeadsFurther(quota, EMPTY, RESUMING, Claim(2));
    LeadsFurther(quota, EMPTY, BOTH_CLAIMED, TakeLease(1, true));
    LeadsFurther(quota, EMPTY, ONE_LEASED, TakeLease(2, true));
    LeadsFurther(quota, EMPTY, BOTH_LEASED, Spawn(1));
    LeadsFurther(quota, EMPTY, ONE_LIVE, Spawn(2));
  }
}
