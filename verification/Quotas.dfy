/** How many runs of a tenant may be active at once, and the two ways in which there can be more. */
module Quotas {
  import opened Sets
  import opened Store
  import opened ControlPlane
  import opened Traces

  // ---------------------------------------------------------------------------
  // What goes wrong
  // ---------------------------------------------------------------------------

  /** The status that the last write of a claim or of a creation puts into the row. */
  function LastWrite(proc: Proc): RunStatus {
    if proc.Exiting? then proc.outcome else Queued
  }

  /** A last write that makes a run active again which has been stopped, or is over, in the meantime. */
  predicate Revives(s: State, e: Step) {
    && (e.WriteStatus? || e.Enqueue?) && e.p in s.procs && (s.procs[e.p].Exiting? || s.procs[e.p].Preparing?)
    && s.procs[e.p].run in s.runs
    && !ActiveStatus(s.runs[s.procs[e.p].run].status) && ActiveStatus(LastWrite(s.procs[e.p]))
  }

  /** The process is inside the critical section of its tenant's quota lock. */
  predicate Inside(proc: Proc, tenant: Tenant) {
    (proc.Locked? || proc.Checked? || proc.Inserted?) && proc.tenant == tenant
  }

  /** A quota lock is lost while its holder is still inside the critical section. */
  predicate LosesHeldLock(s: State, e: Step) {
    && e.LoseLock? && e.tenant in s.locks
    && s.locks[e.tenant] in s.procs && Inside(s.procs[s.locks[e.tenant]], e.tenant)
  }

  /** A run in which neither happens. */
  ghost predicate Sound(quota: map<Tenant, nat>, s: State, steps: seq<Step>)
    requires Valid(quota, s, steps)
    decreases |steps|
  {
    steps == [] ||
    (!Revives(s, steps[0]) && !LosesHeldLock(s, steps[0]) && Sound(quota, Apply(quota, s, steps[0]), steps[1..]))
  }

  // ---------------------------------------------------------------------------
  // The invariant
  // ---------------------------------------------------------------------------

  ghost predicate LocksHeld(s: State) {
    forall p, tenant | p in s.procs && Inside(s.procs[p], tenant) :: tenant in s.locks && s.locks[tenant] == p
  }

  /** The creators of the tenant that have passed the check and not inserted their run yet. */
  function Admitted(s: State, tenant: Tenant): set<Pid> {
    set p | p in s.procs && s.procs[p] == Checked(tenant)
  }

  /** The room that is left when every admitted creator has inserted its run. */
  function Slack(quota: map<Tenant, nat>, s: State, tenant: Tenant): int
    requires tenant in quota
  {
    quota[tenant] - |ActiveRuns(s.runs, tenant)| - |Admitted(s, tenant)|
  }

  /** Who is inside a critical section after a step was there before, or has just taken the lock. */
  lemma InsideAfter(quota: map<Tenant, nat>, s: State, e: Step, p: Pid, tenant: Tenant)
    requires Enabled(s, e) && p in Apply(quota, s, e).procs && Inside(Apply(quota, s, e).procs[p], tenant)
    ensures (p in s.procs && Inside(s.procs[p], tenant))
            || (e == TakeLock(p) && Apply(quota, s, e).locks == s.locks[tenant := p])
    ensures e != Unlock(p)
  {
    hide ActiveRuns, Deliverable;
  }

  /** A lock is released by somebody inside it, or lost. */
  lemma LocksAfter(quota: map<Tenant, nat>, s: State, e: Step, tenant: Tenant)
    requires Enabled(s, e) && tenant in s.locks
    ensures var t := Apply(quota, s, e);
            || (tenant in t.locks && t.locks[tenant] == s.locks[tenant])
            || ((e.CheckQuota? || e.Unlock?) && e.p in s.procs && Inside(s.procs[e.p], tenant)
              && (e.Unlock? || e.p !in t.procs))
            || e == LoseLock(tenant)
  {
    hide ActiveRuns, Deliverable;
  }

  lemma LocksHeldStep(quota: map<Tenant, nat>, s: State, e: Step)
    requires LocksHeld(s) && Enabled(s, e) && !LosesHeldLock(s, e)
    ensures LocksHeld(Apply(quota, s, e))
  {
    var t := Apply(quota, s, e);
    hide Apply, Enabled, Inside;
    forall p, tenant | p in t.procs && Inside(t.procs[p], tenant)
      ensures tenant in t.locks && t.locks[tenant] == p
    {
      InsideAfter(quota, s, e, p, tenant);
      if p in s.procs && Inside(s.procs[p], tenant) {
        LocksAfter(quota, s, e, tenant);
      }
    }
  }

  lemma OneInside(s: State, p: Pid, q: Pid, tenant: Tenant)
    requires LocksHeld(s) && p in s.procs && q in s.procs
    requires Inside(s.procs[p], tenant) && Inside(s.procs[q], tenant)
    ensures p == q
  {
    hide Inside;
    assert s.locks[tenant] == p && s.locks[tenant] == q;
  }

  /** Which runs are active after a step: a revival and an insertion add the one run, nothing else adds any. */
  lemma ActiveAfter(quota: map<Tenant, nat>, s: State, e: Step, run: RunId, tenant: Tenant)
    requires Enabled(s, e)
    requires run in ActiveRuns(Apply(quota, s, e).runs, tenant) && run !in ActiveRuns(s.runs, tenant)
    ensures (e.Insert? && e.run == run && e.p in s.procs && s.procs[e.p] == Checked(tenant))
            || (Revives(s, e) && s.procs[e.p].run == run && s.runs[run].tenant == tenant)
  {
    hide Deliverable;
  }

  lemma RevivedIsNew(quota: map<Tenant, nat>, s: State, e: Step, tenant: Tenant)
    requires Enabled(s, e) && Revives(s, e) && s.runs[s.procs[e.p].run].tenant == tenant
    ensures ActiveRuns(Apply(quota, s, e).runs, tenant) == ActiveRuns(s.runs, tenant) + {s.procs[e.p].run}
    ensures s.procs[e.p].run !in ActiveRuns(s.runs, tenant)
    ensures Admitted(Apply(quota, s, e), tenant) == Admitted(s, tenant)
  {
    hide Deliverable;
  }

  /** Who is admitted after a step was admitted before, or has just passed the check. */
  lemma AdmittedAfter(quota: map<Tenant, nat>, s: State, e: Step, p: Pid, tenant: Tenant)
    requires Enabled(s, e) && p in Admitted(Apply(quota, s, e), tenant)
    ensures p in Admitted(s, tenant)
            || (e == CheckQuota(p) && p in s.procs && s.procs[p] == Locked(tenant)
                && Apply(quota, s, e).runs == s.runs
                && (tenant in quota ==> |ActiveRuns(s.runs, tenant)| < quota[tenant]))
  {
    hide ActiveRuns, Deliverable;
  }

  lemma InsertedOne(quota: map<Tenant, nat>, s: State, e: Step, tenant: Tenant)
    requires Enabled(s, e) && e.Insert? && s.procs[e.p] == Checked(tenant)
    ensures ActiveRuns(Apply(quota, s, e).runs, tenant) == ActiveRuns(s.runs, tenant) + {e.run}
    ensures Admitted(Apply(quota, s, e), tenant) == Admitted(s, tenant) - {e.p} && e.p in Admitted(s, tenant)
  {
    hide Deliverable;
  }

  /** The step takes up room of the tenant: it revives a run of it, or admits a creator. */
  predicate TakesRoom(quota: map<Tenant, nat>, s: State, e: Step, tenant: Tenant)
    requires tenant in quota
  {
    || (Revives(s, e) && s.runs[s.procs[e.p].run].tenant == tenant)
    || (e.CheckQuota? && e.p in s.procs && s.procs[e.p] == Locked(tenant)
      && |ActiveRuns(s.runs, tenant)| < quota[tenant])
  }

  lemma AdmitsOne(quota: map<Tenant, nat>, s: State, e: Step, tenant: Tenant)
    requires Enabled(s, e) && tenant in quota
    requires e.CheckQuota? && s.procs[e.p] == Locked(tenant) && |ActiveRuns(s.runs, tenant)| < quota[tenant]
    ensures ActiveRuns(Apply(quota, s, e).runs, tenant) == ActiveRuns(s.runs, tenant)
    ensures Admitted(Apply(quota, s, e), tenant) == Admitted(s, tenant) + {e.p} && e.p !in Admitted(s, tenant)
  {
  }

  /** A step that takes up no room leaves as much as there was. */
  lemma SlackKept(quota: map<Tenant, nat>, s: State, e: Step, tenant: Tenant)
    requires Enabled(s, e) && tenant in quota && !TakesRoom(quota, s, e, tenant)
    ensures Slack(quota, Apply(quota, s, e), tenant) >= Slack(quota, s, tenant)
  {
    var t := Apply(quota, s, e);
    if e.Insert? && s.procs[e.p] == Checked(tenant) {
      InsertedOne(quota, s, e, tenant);
    } else {
      forall run | run in ActiveRuns(t.runs, tenant)
        ensures run in ActiveRuns(s.runs, tenant)
      {
        if run !in ActiveRuns(s.runs, tenant) {
          ActiveAfter(quota, s, e, run, tenant);
        }
      }
      forall p | p in Admitted(t, tenant)
        ensures p in Admitted(s, tenant)
      {
        AdmittedAfter(quota, s, e, p, tenant);
      }
      hide *;
      SubsetSize(ActiveRuns(t.runs, tenant), ActiveRuns(s.runs, tenant));
      SubsetSize(Admitted(t, tenant), Admitted(s, tenant));
      SlackIs(quota, s, tenant);
      SlackIs(quota, t, tenant);
    }
  }

  lemma SlackIs(quota: map<Tenant, nat>, s: State, tenant: Tenant)
    requires tenant in quota
    ensures Slack(quota, s, tenant) == quota[tenant] - |ActiveRuns(s.runs, tenant)| - |Admitted(s, tenant)|
  {
  }

  lemma RoomIsTaken(quota: map<Tenant, nat>, s: State, e: Step, tenant: Tenant)
    requires Enabled(s, e) && tenant in quota && TakesRoom(quota, s, e, tenant)
    ensures Slack(quota, Apply(quota, s, e), tenant) == Slack(quota, s, tenant) - 1
  {
    if e.CheckQuota? {
      AdmitsOne(quota, s, e, tenant);
    } else {
      RevivedIsNew(quota, s, e, tenant);
    }
    hide ActiveRuns, Admitted, Apply, Enabled;
  }

  /** The last step too many, in any state: exactly a step that takes up room when no room is left breaks the count. */
  lemma CountBreaksIff(quota: map<Tenant, nat>, s: State, e: Step, tenant: Tenant)
    requires Enabled(s, e) && tenant in quota && Slack(quota, s, tenant) >= 0
    ensures Slack(quota, Apply(quota, s, e), tenant) < 0 <==>
            Slack(quota, s, tenant) == 0 && TakesRoom(quota, s, e, tenant)
  {
    hide Slack, TakesRoom, Apply, Enabled;
    if TakesRoom(quota, s, e, tenant) {
      RoomIsTaken(quota, s, e, tenant);
    } else {
      SlackKept(quota, s, e, tenant);
    }
  }

  ghost predicate NeverShort(quota: map<Tenant, nat>, s: State, steps: seq<Step>, tenant: Tenant)
    requires Valid(quota, s, steps) && tenant in quota
    decreases |steps|
  {
    Slack(quota, s, tenant) >= 0 && (steps == [] || NeverShort(quota, Apply(quota, s, steps[0]), steps[1..], tenant))
  }

  /** No step takes up room when none is left. */
  ghost predicate Roomy(quota: map<Tenant, nat>, s: State, steps: seq<Step>, tenant: Tenant)
    requires Valid(quota, s, steps) && tenant in quota
    decreases |steps|
  {
    steps == [] ||
    (!(Slack(quota, s, tenant) == 0 && TakesRoom(quota, s, steps[0], tenant)) &&
     Roomy(quota, Apply(quota, s, steps[0]), steps[1..], tenant))
  }

  /**
   Over whole runs, lost locks and revivals included: the count is kept exactly if no step takes room that is
   not there.
   */
  lemma {:induction false} CountIsKeptIff(quota: map<Tenant, nat>, s: State, steps: seq<Step>, tenant: Tenant)
    requires Valid(quota, s, steps) && tenant in quota && Slack(quota, s, tenant) >= 0
    ensures NeverShort(quota, s, steps, tenant) <==> Roomy(quota, s, steps, tenant)
    decreases |steps|
  {
    hide Slack, TakesRoom, Apply, Enabled;
    if steps != [] {
      CountBreaksIff(quota, s, steps[0], tenant);
      if Slack(quota, Apply(quota, s, steps[0]), tenant) >= 0 {
        CountIsKeptIff(quota, Apply(quota, s, steps[0]), steps[1..], tenant);
      }
    }
  }

  // ---------------------------------------------------------------------------
  // A broken count is an exceeded quota
  // ---------------------------------------------------------------------------

  /** Only creators that have passed the check go on. */
  ghost predicate Inserts(steps: seq<Step>) {
    forall e | e in steps :: e.Insert?
  }

  lemma {:induction false} LongerThanAll(runs: set<RunId>) returns (run: RunId)
    ensures forall r | r in runs :: |r| < |run|
  {
    if runs == {} {
      run := "x";
    } else {
      var r :| r in runs;
      var other := LongerThanAll(runs - {r});
      run := if |r| < |other| then other else r + "x";
      assert forall x | x in runs :: x == r || x in runs - {r};
    }
  }

  lemma NextInsert(quota: map<Tenant, nat>, s: State, tenant: Tenant) returns (e: Step)
    requires tenant in quota && Admitted(s, tenant) != {}
    ensures e.Insert? && Enabled(s, e)
    ensures Slack(quota, Apply(quota, s, e), tenant) == Slack(quota, s, tenant)
    ensures |Admitted(Apply(quota, s, e), tenant)| < |Admitted(s, tenant)|
  {
    var p :| p in Admitted(s, tenant);
    var run := LongerThanAll(s.runs.Keys);
    e := Insert(p, run);
    assert run !in s.runs;
    InsertedOne(quota, s, e, tenant);
    assert run !in ActiveRuns(s.runs, tenant);
    hide ActiveRuns, Admitted, Apply;
  }

  lemma {:induction false} AdmittedGoOn(quota: map<Tenant, nat>, s: State, tenant: Tenant) returns (steps: seq<Step>)
    requires tenant in quota && Slack(quota, s, tenant) < 0
    ensures Valid(quota, s, steps) && Inserts(steps)
    ensures |ActiveRuns(Exec(quota, s, steps).runs, tenant)| > quota[tenant]
    decreases |Admitted(s, tenant)|
  {
    hide ActiveRuns, Admitted, Apply, Enabled;
    if |ActiveRuns(s.runs, tenant)| > quota[tenant] {
      steps := [];
    } else {
      var e := NextInsert(quota, s, tenant);
      var rest := AdmittedGoOn(quota, Apply(quota, s, e), tenant);
      steps := [e] + rest;
      assert steps[1..] == rest;
    }
  }

  lemma {:induction false} InsertsAreRoomy(quota: map<Tenant, nat>, s: State, steps: seq<Step>, tenant: Tenant)
    requires Valid(quota, s, steps) && tenant in quota && Inserts(steps) && Slack(quota, s, tenant) >= 0
    ensures Slack(quota, Exec(quota, s, steps), tenant) >= 0
    decreases |steps|
  {
    hide Slack, Apply, Enabled;
    if steps != [] {
      assert steps[0] in steps && !TakesRoom(quota, s, steps[0], tenant);
      SlackKept(quota, s, steps[0], tenant);
      InsertsAreRoomy(quota, Apply(quota, s, steps[0]), steps[1..], tenant);
    }
  }

  /**
   In any state: the creators that have passed the check can exceed the quota by going on exactly if the
   count is broken.
   */
  lemma BrokenCountShowsIff(quota: map<Tenant, nat>, s: State, tenant: Tenant)
    requires tenant in quota
    ensures Slack(quota, s, tenant) < 0 <==>
            exists steps :: && Valid(quota, s, steps) && Inserts(steps)
                            && |ActiveRuns(Exec(quota, s, steps).runs, tenant)| > quota[tenant]
  {
    hide ActiveRuns, Admitted, Apply, Enabled, Inserts;
    if Slack(quota, s, tenant) < 0 {
      var steps := AdmittedGoOn(quota, s, tenant);
    } else {
      forall steps | Valid(quota, s, steps) && Inserts(steps)
        ensures |ActiveRuns(Exec(quota, s, steps).runs, tenant)| <= quota[tenant]
      {
        InsertsAreRoomy(quota, s, steps, tenant);
      }
    }
  }

  // ---------------------------------------------------------------------------
  // Sound runs
  // ---------------------------------------------------------------------------

  /** Where locks are held, a creator that passes the check is alone inside, so it finds the room that it takes. */
  lemma SoundIsRoomyStep(quota: map<Tenant, nat>, s: State, e: Step, tenant: Tenant)
    requires LocksHeld(s) && Enabled(s, e) && tenant in quota && !Revives(s, e)
    ensures !(Slack(quota, s, tenant) == 0 && TakesRoom(quota, s, e, tenant))
  {
    if TakesRoom(quota, s, e, tenant) {
      forall q
        ensures q !in Admitted(s, tenant)
      {
        if q in Admitted(s, tenant) {
          OneInside(s, e.p, q, tenant);
        }
      }
      assert Admitted(s, tenant) == {};
    }
  }

  lemma {:induction false} SoundIsRoomy(quota: map<Tenant, nat>, s: State, steps: seq<Step>, tenant: Tenant)
    requires LocksHeld(s) && Valid(quota, s, steps) && Sound(quota, s, steps) && tenant in quota
    ensures Roomy(quota, s, steps, tenant)
    decreases |steps|
  {
    hide LocksHeld, Enabled, Apply, Slack, Revives, LosesHeldLock, TakesRoom;
    if steps != [] {
      LocksHeldStep(quota, s, steps[0]);
      SoundIsRoomyStep(quota, s, steps[0], tenant);
      SoundIsRoomy(quota, Apply(quota, s, steps[0]), steps[1..], tenant);
    }
  }

  lemma {:induction false} NeverShortAtTheEnd(quota: map<Tenant, nat>, s: State, steps: seq<Step>, tenant: Tenant)
    requires Valid(quota, s, steps) && tenant in quota && NeverShort(quota, s, steps, tenant)
    ensures Slack(quota, Exec(quota, s, steps), tenant) >= 0
    decreases |steps|
  {
    hide Slack, Apply, Enabled;
    if steps != [] {
      NeverShortAtTheEnd(quota, Apply(quota, s, steps[0]), steps[1..], tenant);
    }
  }

  /**
   Conservation of quota, stops, deaths and forced pauses included: no tenant ever has more active
   runs than it may, as long as no last write revives a run and no lock is lost by who is inside it.
   */
  lemma QuotaIsKept(quota: map<Tenant, nat>, steps: seq<Step>, tenant: Tenant)
    requires Valid(quota, EMPTY, steps) && Sound(quota, EMPTY, steps) && tenant in quota
    ensures |ActiveRuns(Exec(quota, EMPTY, steps).runs, tenant)| <= quota[tenant]
  {
    assert ActiveRuns(EMPTY.runs, tenant) == {} && Admitted(EMPTY, tenant) == {};
    SoundIsRoomy(quota, EMPTY, steps, tenant);
    CountIsKeptIff(quota, EMPTY, steps, tenant);
    NeverShortAtTheEnd(quota, EMPTY, steps, tenant);
  }

  /** Without forced pauses only a stopped run can be revived. */
  lemma RevivedWasStopped(s: State, e: Step)
    requires Exclusive(s) && Enabled(s, e) && Revives(s, e)
    ensures s.runs[s.procs[e.p].run].status == CancelledRun
  {
    assert Owns(s.procs[e.p], s.procs[e.p].run);
  }

  // ---------------------------------------------------------------------------
  // Too many runs
  // ---------------------------------------------------------------------------

  const CANCELLED_ROW := RunRow("t", CancelledRun)

  /** The run "r" is executed by worker 0 and stopped; then a second run "s" is created. */
  const LIVE := State(map["r" := ROW], map[1 := Live(0, "r")], map[], {"r"})
  const STOPPING := State(map["r" := ROW], map[1 := Live(0, "r"), 2 := Stopping("r")], map[], {"r"})
  const STOPPED := State(map["r" := CANCELLED_ROW], map[1 := Live(0, "r")], map[], {"r"})
  const SECOND := State(map["r" := CANCELLED_ROW], map[1 := Live(0, "r"), 3 := AwaitingLock("t")], map[], {"r"})
  const SECOND_LOCKED :=
    State(map["r" := CANCELLED_ROW], map[1 := Live(0, "r"), 3 := Locked("t")], map["t" := 3], {"r"})
  const SECOND_CHECKED :=
    State(map["r" := CANCELLED_ROW], map[1 := Live(0, "r"), 3 := Checked("t")], map["t" := 3], {"r"})
  const SECOND_INSERTED :=
    State(map["r" := CANCELLED_ROW, "s" := ROW], map[1 := Live(0, "r"), 3 := Inserted("t", "s")], map["t" := 3], {"r"})

  /** The executor of the first run comes to its pause, and writes it. */
  const EXITING :=
    State(map["r" := CANCELLED_ROW, "s" := ROW], map[1 := Exiting(0, "r", PausedRun), 3 := Inserted("t", "s")],
      map["t" := 3], {})
  const REVIVED := State(map["r" := PAUSED_ROW, "s" := ROW], map[3 := Inserted("t", "s")], map["t" := 3], {})

  lemma RunStarts(quota: map<Tenant, nat>)
    ensures StepsTo(quota, JUST_CLAIMED, TakeLease(1, true),
            State(map["r" := ROW], map[1 := Leased(0, "r")], map[], {"r"}))
    ensures StepsTo(quota, State(map["r" := ROW], map[1 := Leased(0, "r")], map[], {"r"}), Spawn(1), LIVE)
  {
  }

  lemma RunIsStopped(quota: map<Tenant, nat>)
    ensures StepsTo(quota, LIVE, StopCommand(2, "r"), STOPPING) && StepsTo(quota, STOPPING, WriteCancelled(2), STOPPED)
  {
  }

  lemma SecondRunIsAdmitted(quota: map<Tenant, nat>)
    requires "t" in quota && quota["t"] == 1
    ensures StepsTo(quota, STOPPED, Arrive(3, "t"), SECOND) && StepsTo(quota, SECOND, TakeLock(3), SECOND_LOCKED)
    ensures StepsTo(quota, SECOND_LOCKED, CheckQuota(3), SECOND_CHECKED)
    ensures StepsTo(quota, SECOND_CHECKED, Insert(3, "s"), SECOND_INSERTED)
  {
    assert ActiveRuns(SECOND_LOCKED.runs, "t") == {};
  }

  lemma FirstRunExits(quota: map<Tenant, nat>)
    ensures StepsTo(quota, SECOND_INSERTED, Exit(1, PausedRun), EXITING)
  {
  }

  lemma FirstRunIsRevived(quota: map<Tenant, nat>)
    ensures StepsTo(quota, EXITING, WriteStatus(1), REVIVED)
  {
  }

  lemma TwoAreActive(runs: map<RunId, RunRow>)
    requires runs == map["r" := PAUSED_ROW, "s" := ROW] || runs == map["r" := ROW, "s" := ROW]
    ensures |ActiveRuns(runs, "t")| == 2
  {
    assert ActiveRuns(runs, "t") == {"r", "s"};
  }

  /** It happens without any forced pause: a run is stopped, a second one is created, and the first one pauses. */
  lemma StopLetsQuotaBeExceeded(quota: map<Tenant, nat>)
    requires "t" in quota && quota["t"] == 1
    ensures Evolves(quota, EMPTY, REVIVED) && |ActiveRuns(REVIVED.runs, "t")| > quota["t"]
  {
    TwoAreActive(REVIVED.runs);
    ClaimIsReachable(quota);
    RunStarts(quota);
    RunIsStopped(quota);
    SecondRunIsAdmitted(quota);
    FirstRunExits(quota);
    FirstRunIsRevived(quota);
    hide Evolves, Enabled, Apply, ActiveRuns;
    EvolvesOn(quota, EMPTY, JUST_CLAIMED, TakeLease(1, true));
    EvolvesOn(quota, EMPTY, State(map["r" := ROW], map[1 := Leased(0, "r")], map[], {"r"}), Spawn(1));
    EvolvesOn(quota, EMPTY, LIVE, StopCommand(2, "r"));
    EvolvesOn(quota, EMPTY, STOPPING, WriteCancelled(2));
    EvolvesOn(quota, EMPTY, STOPPED, Arrive(3, "t"));
    EvolvesOn(quota, EMPTY, SECOND, TakeLock(3));
    EvolvesOn(quota, EMPTY, SECOND_LOCKED, CheckQuota(3));
    EvolvesOn(quota, EMPTY, SECOND_CHECKED, Insert(3, "s"));
    EvolvesOn(quota, EMPTY, SECOND_INSERTED, Exit(1, PausedRun));
    EvolvesOn(quota, EMPTY, EXITING, WriteStatus(1));
  }

  /** Two creators at once: the lock of the first is lost after its check, and both insert their runs. */
  const LOST := State(map[], map[0 := Checked("t")], map[], {})
  const LATER := State(map[], map[0 := Checked("t"), 1 := AwaitingLock("t")], map[], {})
  const LATER_LOCKED := State(map[], map[0 := Checked("t"), 1 := Locked("t")], map["t" := 1], {})
  const BOTH_CHECKED := State(map[], map[0 := Checked("t"), 1 := Checked("t")], map["t" := 1], {})
  const ONE_INSERTED := State(map["r" := ROW], map[0 := Inserted("t", "r"), 1 := Checked("t")], map["t" := 1], {})
  const BOTH_INSERTED :=
    State(map["r" := ROW, "s" := ROW], map[0 := Inserted("t", "r"), 1 := Inserted("t", "s")], map["t" := 1], {})

  lemma BothPassTheCheck(quota: map<Tenant, nat>)
    requires "t" in quota && quota["t"] == 1
    ensures StepsTo(quota, CHECKED, LoseLock("t"), LOST) && StepsTo(quota, LOST, Arrive(1, "t"), LATER)
    ensures StepsTo(quota, LATER, TakeLock(1), LATER_LOCKED)
            && StepsTo(quota, LATER_LOCKED, CheckQuota(1), BOTH_CHECKED)
  {
    assert ActiveRuns(LATER_LOCKED.runs, "t") == {};
  }

  lemma BothInsert(quota: map<Tenant, nat>)
    ensures StepsTo(quota, BOTH_CHECKED, Insert(0, "r"), ONE_INSERTED)
            && StepsTo(quota, ONE_INSERTED, Insert(1, "s"), BOTH_INSERTED)
  {
  }

  lemma LostLockLetsQuotaBeExceeded(quota: map<Tenant, nat>)
    requires "t" in quota && quota["t"] == 1
    ensures Evolves(quota, EMPTY, BOTH_INSERTED) && |ActiveRuns(BOTH_INSERTED.runs, "t")| > quota["t"]
  {
    TwoAreActive(BOTH_INSERTED.runs);
    CreatorChecks(quota);
    BothPassTheCheck(quota);
    BothInsert(quota);
    hide Evolves, Enabled, Apply, ActiveRuns;
    EvolvesNowhere(quota, EMPTY);
    EvolvesOn(quota, EMPTY, EMPTY, Arrive(0, "t"));
    EvolvesOn(quota, EMPTY, ARRIVED, TakeLock(0));
    EvolvesOn(quota, EMPTY, LOCKED, CheckQuota(0));
    EvolvesOn(quota, EMPTY, CHECKED, LoseLock("t"));
    EvolvesOn(quota, EMPTY, LOST, Arrive(1, "t"));
    EvolvesOn(quota, EMPTY, LATER, TakeLock(1));
    EvolvesOn(quota, EMPTY, LATER_LOCKED, CheckQuota(1));
    EvolvesOn(quota, EMPTY, BOTH_CHECKED, Insert(0, "r"));
    EvolvesOn(quota, EMPTY, ONE_INSERTED, Insert(1, "s"));
  }
}
