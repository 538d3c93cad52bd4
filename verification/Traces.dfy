/** The common beginning of the runs that show what can go wrong: one run created, queued and claimed. */
module Traces {
  import opened Store
  import opened ControlPlane

  const ROW := RunRow("t", RunningRun)
  const QUEUED_ROW := RunRow("t", Queued)
  const PAUSED_ROW := RunRow("t", PausedRun)

  /** A run "r" of tenant "t" is created, queued, delivered to worker 0 and claimed there, before the lease is taken. */
  const ARRIVED := State(map[], map[0 := AwaitingLock("t")], map[], {})
  const LOCKED := State(map[], map[0 := Locked("t")], map["t" := 0], {})
  const CHECKED := State(map[], map[0 := Checked("t")], map["t" := 0], {})
  const INSERTED := State(map["r" := ROW], map[0 := Inserted("t", "r")], map["t" := 0], {})
  const PREPARING := State(map["r" := ROW], map[0 := Preparing("r")], map[], {})
  const QUEUED := State(map["r" := QUEUED_ROW], map[], map[], {})
  const DELIVERED := State(map["r" := QUEUED_ROW], map[1 := OnTrigger(0, "r")], map[], {})
  const JUST_CLAIMED := State(map["r" := ROW], map[1 := Claimed(0, "r")], map[], {})

  predicate StepsTo(quota: map<Tenant, nat>, s: State, e: Step, t: State) {
    Enabled(s, e) && Apply(quota, s, e) == t
  }

  lemma CreatorChecks(quota: map<Tenant, nat>)
    requires "t" in quota ==> quota["t"] > 0
    ensures StepsTo(quota, EMPTY, Arrive(0, "t"), ARRIVED) && StepsTo(quota, ARRIVED, TakeLock(0), LOCKED)
    ensures StepsTo(quota, LOCKED, CheckQuota(0), CHECKED)
  {
    assert ActiveRuns(LOCKED.runs, "t") == {};
  }

  lemma CreatorQueues(quota: map<Tenant, nat>)
    ensures StepsTo(quota, CHECKED, Insert(0, "r"), INSERTED) && StepsTo(quota, INSERTED, Unlock(0), PREPARING)
    ensures StepsTo(quota, PREPARING, Enqueue(0), QUEUED)
  {
  }

  lemma WorkerClaims(quota: map<Tenant, nat>)
    ensures StepsTo(quota, QUEUED, Deliver(1, 0, "r", false), DELIVERED)
            && StepsTo(quota, DELIVERED, Claim(1), JUST_CLAIMED)
  {
  }

  lemma ClaimIsReachable(quota: map<Tenant, nat>)
    requires "t" in quota ==> quota["t"] > 0
    ensures Evolves(quota, EMPTY, JUST_CLAIMED)
  {
    EvolvesNowhere(quota, EMPTY);
    CreatorChecks(quota);
    CreatorQueues(quota);
    WorkerClaims(quota);
    hide Evolves, Enabled, Apply;
    EvolvesOn(quota, EMPTY, EMPTY, Arrive(0, "t"));
    EvolvesOn(quota, EMPTY, ARRIVED, TakeLock(0));
    EvolvesOn(quota, EMPTY, LOCKED, CheckQuota(0));
    EvolvesOn(quota, EMPTY, CHECKED, Insert(0, "r"));
    EvolvesOn(quota, EMPTY, INSERTED, Unlock(0));
    EvolvesOn(quota, EMPTY, PREPARING, Enqueue(0));
    EvolvesOn(quota, EMPTY, QUEUED, Deliver(1, 0, "r", false));
    EvolvesOn(quota, EMPTY, DELIVERED, Claim(1));
  }
}
