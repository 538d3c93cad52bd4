/** What every action of a run keeps, and what therefore holds of every reachable state. */
module RunSafety {
  import opened Values
  import opened Dags
  import opened States
  import opened Runs

  // ---------------------------------------------------------------------------
  // One node at a time
  // ---------------------------------------------------------------------------

  /** All that the state says about one node. */
  datatype View = View(
    mem: NodeState,
    row: Option<NodeState>,
    live: bool,
    dirty: bool,
    failed: bool,
    verdict: Option<Verdict>)

  function ViewOf(s: Engine, n: NodeId): View
    requires n in s.mem
  {
    View(
      s.mem[n],
      if n in s.rows then Some(s.rows[n]) else None,
      n in s.live, n in s.dirty, n in s.failed,
      if n in s.verdicts then Some(s.verdicts[n]) else None)
  }

  predicate FromPending(node: Node, v: View, w: View) {
    && v.mem.status == Pending
    && (|| w == v.(mem := SKIP, dirty := true)
        || (w == v.(mem := OPEN, dirty := true) && node.kind == Approval)
        || (w == v.(mem := NodeState(Running, v.mem.output), dirty := true, live := true) && node.kind != Approval))
  }

  predicate FromLive(node: Node, v: View, w: View) {
    && v.live
    && (|| (w == v.(mem := NodeState(Done, w.mem.output), dirty := true, live := false)
            && !Refused(node, w.mem.output))
        || w == v.(mem := NodeState(Failed, w.mem.output), dirty := true, live := false, failed := true))
  }

  /** The state an approval takes by a verdict, whatever upstream outputs it records. */
  predicate Carries(ns: NodeState, verdict: Verdict) {
    ns == Outcome(verdict,
      if ns.output.Obj? && "upstream_output" in ns.output.fields then ns.output.fields["upstream_output"] else Null)
  }

  predicate ByVerdict(node: Node, v: View, w: View) {
    || (v.row.Some? && v.row.value.status == Waiting && v.verdict.None?
        && w == v.(verdict := w.verdict) && w.verdict.Some?)
    || (v.verdict.Some? && v.row.Some? && v.row.value.status == Waiting
        && w == v.(row := w.row) && w.row.Some? && Carries(w.row.value, v.verdict.value))
    || (v.verdict.Some? && v.mem.status == Waiting
        && w == v.(mem := w.mem, dirty := true) && Carries(w.mem, v.verdict.value))
  }

  predicate ByRestart(from: Stage, to: Stage, v: View, w: View) {
    || (to == Down && w == v.(live := false, dirty := false, failed := false))
    || (to == Boundary
        && w == View(if v.row.Some? && Kept(v.row.value) then v.row.value else FRESH,
                     v.row, false, false, false, v.verdict))
  }

  /** How one action may change the view of one node. */
  predicate Local(node: Node, from: Stage, to: Stage, v: View, w: View) {
    || ByRestart(from, to, v, w)
    || ((from == Down <==> to == Down)
        && (|| w == v
            || ByVerdict(node, v, w)
            || (from != Down && (FromPending(node, v, w) || FromLive(node, v, w)))
            || (from != Down && v.dirty && w == v.(row := Some(v.mem), dirty := false))))
  }

  /** The bookkeeping about one node: who runs, who has failed, who may be waiting. */
  predicate Tidy(node: Node, stage: Stage, v: View) {
    && (v.live ==> node.kind != Approval)
    && (stage != Down ==>
          && (v.mem.status == Running <==> v.live)
          && (v.mem.status == Failed ==> v.failed)
          && v.mem.status != Cancelled
          && (v.mem.status == Pending ==> v.mem == FRESH))
    && (v.mem.status == Waiting ==> v.mem == OPEN && node.kind == Approval)
    && (v.row.Some? && v.row.value.status == Waiting ==> v.row.value == OPEN && node.kind == Approval)
    && (v.verdict.Some? ==> node.kind == Approval && v.row.Some? && OpenOrJudged(v.row.value, v.verdict.value))
    && (stage != Down && v.mem.status == Pending ==> v.verdict.None? && (v.row.None? || !Kept(v.row.value)))
  }

  /** Open, or closed by the verdict on record. */
  predicate OpenOrJudged(ns: NodeState, v: Verdict) {
    ns.status == Waiting || Carries(ns, v)
  }

  /** How far the row of a node may lag behind the executor's memory, or run ahead of it. */
  predicate RowTracks(stage: Stage, v: View) {
    stage != Down ==>
      || v.row == Some(v.mem)
      || ((v.row.None? || !Kept(v.row.value)) && (v.mem == FRESH || v.dirty))
      || (&& v.row.Some? && v.verdict.Some?
          && OpenOrJudged(v.row.value, v.verdict.value) && OpenOrJudged(v.mem, v.verdict.value)
          && (v.dirty || v.mem.status == Waiting))
  }

  /** A node never stands as done on an output that its own verdict or delivery record denies. */
  predicate Honest(node: Node, v: View) {
    && (v.mem.status == Done && node.kind != Approval ==> !Refused(node, v.mem.output))
    && (v.row.Some? && v.row.value.status == Done && node.kind != Approval ==> !Refused(node, v.row.value.output))
  }

  predicate NodeSafe(node: Node, stage: Stage, v: View) {
    Tidy(node, stage, v) && RowTracks(stage, v) && Honest(node, v)
  }

  lemma TasksKeepTidy(node: Node, stage: Stage, v: View, w: View)
    requires Tidy(node, stage, v) && RowTracks(stage, v) && stage != Down
    requires FromPending(node, v, w) || FromLive(node, v, w)
    ensures Tidy(node, stage, w)
  {
    hide Refused;
  }

  lemma VerdictsKeepTidy(node: Node, stage: Stage, v: View, w: View)
    requires Tidy(node, stage, v) && ByVerdict(node, v, w)
    ensures Tidy(node, stage, w)
  {
  }

  lemma LocalKeepsTidy(node: Node, from: Stage, to: Stage, v: View, w: View)
    requires Tidy(node, from, v) && RowTracks(from, v) && Local(node, from, to, v, w)
    ensures Tidy(node, to, w)
  {
    hide FromPending, FromLive, ByVerdict;
    if from != Down && to != Down && (FromPending(node, v, w) || FromLive(node, v, w)) {
      TasksKeepTidy(node, from, v, w);
    } else if ByVerdict(node, v, w) {
      VerdictsKeepTidy(node, from, v, w);
    }
  }

  lemma LocalKeepsTracking(node: Node, from: Stage, to: Stage, v: View, w: View)
    requires Tidy(node, from, v) && RowTracks(from, v) && Local(node, from, to, v, w)
    ensures RowTracks(to, w)
  {
    hide Refused;
  }

  lemma LocalKeepsHonest(node: Node, from: Stage, to: Stage, v: View, w: View)
    requires Tidy(node, from, v) && Honest(node, v) && Local(node, from, to, v, w)
    ensures Honest(node, w)
  {
    hide Refused;
  }

  lemma LocalKeepsSafe(node: Node, from: Stage, to: Stage, v: View, w: View)
    requires NodeSafe(node, from, v) && Local(node, from, to, v, w)
    ensures NodeSafe(node, to, w)
  {
    hide Tidy, RowTracks, Honest, Local;
    LocalKeepsTidy(node, from, to, v, w);
    LocalKeepsTracking(node, from, to, v, w);
    LocalKeepsHonest(node, from, to, v, w);
  }

  // ---------------------------------------------------------------------------
  // The whole state
  // ---------------------------------------------------------------------------

  /** Every node has a state, and no row, verdict or task belongs to anything else. */
  ghost predicate Scoped(d: Dag, s: Engine) {
    && s.mem.Keys == d.nodes.Keys
    && s.rows.Keys <= d.nodes.Keys && s.verdicts.Keys <= d.nodes.Keys && s.live <= d.nodes.Keys && s.owes <= s.dirty
  }

  /**
   What each call of `run` is like: tasks in waves only and of nodes that are no approvals, and none after a
   failure goes unnoticed.
   */
  ghost predicate LoopOk(d: Dag, l: Loop, failed: set<NodeId>) {
    && (forall n | n in l.todo :: n in d.nodes && d.nodes[n].kind != Approval)
    && (!Busy(l.stage) ==> l.todo == {} && l.mine == {})
    && (l.stage == Broken || (l.stage.Stopped? && !Finished(l)) ==> failed != {})
  }

  ghost predicate LoopsOk(d: Dag, s: Engine) {
    && LoopOk(d, Current(s), s.failed)
    && forall l | l in s.aside :: LoopOk(d, l, s.failed) && !Finished(l) && l.stage != Down
  }

  /** Every node that is being executed is being executed by some call. */
  predicate ByCall(s: Engine, n: NodeId) {
    n in s.mine || exists l | l in s.aside :: n in l.mine
  }

  ghost predicate Manned(s: Engine) {
    forall n | n in s.live :: ByCall(s, n)
  }

  ghost predicate Frame(d: Dag, s: Engine) {
    Scoped(d, s) && LoopsOk(d, s) && Manned(s)
  }

  lemma ScopedStep(d: Dag, s: Engine, a: Action)
    requires Scoped(d, s) && Enabled(d, s, a)
    ensures Scoped(d, Apply(d, s, a))
  {
    hide Refused, Decide, Settled, InNextWave, HaltTriggered;
    hide RejectionAborts, AllTerminal, SomeWaiting, Restored, Outcome;
  }

  /** The actions by which a call of `run` goes on, gives way or ends, and those that do away with all calls. */
  predicate OnCalls(a: Action) {
    a == Launch || a == EndWave || a.Stop? || a == Crash || a == Restore || a == Rerun || a.Switch?
  }

  /** What an action on a node does to the call it belongs to. */
  lemma NodeActionStep(d: Dag, s: Engine, a: Action)
    requires LoopOk(d, Current(s), s.failed) && Enabled(d, s, a) && !OnCalls(a)
    ensures LoopOk(d, Current(Apply(d, s, a)), Apply(d, s, a).failed)
    ensures s.failed <= Apply(d, s, a).failed && Apply(d, s, a).aside == s.aside
  {
    hide Refused, Decide, HaltTriggered, Outcome;
  }

  lemma CallActionStep(d: Dag, s: Engine, a: Action)
    requires LoopOk(d, Current(s), s.failed) && Enabled(d, s, a) && OnCalls(a) && !a.Switch?
    ensures LoopOk(d, Current(Apply(d, s, a)), Apply(d, s, a).failed)
    ensures s.failed == Apply(d, s, a).failed || a.Crash? || a.Restore?
    ensures a.Crash? || a.Restore? ==> Apply(d, s, a).aside == multiset{}
    ensures !(a.Crash? || a.Restore? || a.Rerun?) ==> Apply(d, s, a).aside == s.aside
  {
    WaveIsEligible(d, s.mem);
    hide Settled, InNextWave, HaltTriggered, RejectionAborts, AllTerminal, SomeWaiting, Restored, Parked;
  }

  lemma WaveIsEligible(d: Dag, st: States)
    ensures forall n | InNextWave(d, st, n) :: n in d.nodes && d.nodes[n].kind != Approval
  {
    hide Decide;
  }

  lemma ParkedLoops(s: Engine, l: Loop)
    ensures l in Parked(s) <==> l in s.aside || (l == Current(s) && !Finished(l))
  {
  }

  lemma LoopsStep(d: Dag, s: Engine, a: Action)
    requires LoopsOk(d, s) && Enabled(d, s, a)
    ensures LoopsOk(d, Apply(d, s, a))
  {
    var t := Apply(d, s, a);
    if a.Switch? || a.Rerun? {
      hide LoopOk, Parked, Finished;
      forall l | l in t.aside
        ensures LoopOk(d, l, s.failed) && !Finished(l) && l.stage != Down
      {
        ParkedLoops(s, l);
      }
      if a.Rerun? {
        FreshLoopOk(d, s.failed);
      }
    } else {
      if OnCalls(a) {
        CallActionStep(d, s, a);
      } else {
        NodeActionStep(d, s, a);
      }
      hide Apply, Enabled, Finished;
      forall l | l in t.aside
        ensures LoopOk(d, l, t.failed)
      {
        assert LoopOk(d, l, s.failed);
      }
    }
  }

  lemma FreshLoopOk(d: Dag, failed: set<NodeId>)
    ensures LoopOk(d, Loop(Boundary, {}, {}), failed)
  {
  }

  lemma MannedStep(d: Dag, s: Engine, a: Action)
    requires Manned(s) && Enabled(d, s, a)
    ensures Manned(Apply(d, s, a))
  {
    var t := Apply(d, s, a);
    forall n | n in t.live
      ensures ByCall(t, n)
    {
      MannedNode(d, s, a, n);
    }
  }

  /** A call that gives way still mans its nodes. */
  lemma MannedBeside(d: Dag, s: Engine, a: Action, n: NodeId)
    requires ByCall(s, n) && Enabled(d, s, a) && (a.Rerun? || a.Switch?)
    ensures ByCall(Apply(d, s, a), n)
  {
    hide Parked;
    var t := Apply(d, s, a);
    var l := Current(s);
    if n !in s.mine {
      l :| l in s.aside && n in l.mine;
    }
    ParkedLoops(s, l);
    assert (a.Switch? && a.other == l) || l in t.aside;
  }

  lemma MannedWithin(d: Dag, s: Engine, a: Action, n: NodeId)
    requires Enabled(d, s, a) && !(a.Rerun? || a.Switch?) && n in Apply(d, s, a).live
    requires n in s.live ==> ByCall(s, n)
    ensures ByCall(Apply(d, s, a), n)
  {
    hide Refused, Decide, Settled, HaltTriggered, RejectionAborts;
    hide AllTerminal, SomeWaiting, Restored, Outcome, InNextWave;
    hide Proceeds, Quiet, NothingReady, AllReturned, ApprovalOpen, Skippable;
    if n in s.live && n !in s.mine {
      var l :| l in s.aside && n in l.mine;
      assert l in Apply(d, s, a).aside;
    }
  }

  lemma MannedNode(d: Dag, s: Engine, a: Action, n: NodeId)
    requires Manned(s) && Enabled(d, s, a) && n in Apply(d, s, a).live
    ensures ByCall(Apply(d, s, a), n)
  {
    if a.Rerun? || a.Switch? {
      MannedBeside(d, s, a, n);
    } else {
      MannedWithin(d, s, a, n);
    }
  }

  lemma FrameStep(d: Dag, s: Engine, a: Action)
    requires Frame(d, s) && Enabled(d, s, a)
    ensures Frame(d, Apply(d, s, a))
  {
    hide Scoped, LoopsOk, Manned, Enabled, Apply;
    ScopedStep(d, s, a);
    LoopsStep(d, s, a);
    MannedStep(d, s, a);
  }

  lemma CarriesOutcome(s: Engine, m: NodeId, upstream: Value)
    requires m in s.verdicts
    ensures Carries(Outcome(s.verdicts[m], upstream), s.verdicts[m])
  {
  }

  lemma BegunIsLocal(node: Node, s: Engine, n: NodeId, m: NodeId, decision: Decision)
    requires n in s.mem && m in s.mem && s.stage != Down && (n == m ==> node.kind != Approval)
    ensures n in Begun(s, m, decision).mem
    ensures Local(node, s.stage, s.stage, ViewOf(s, n), ViewOf(Begun(s, m, decision), n))
  {
    hide FromLive, ByVerdict, ByRestart;
  }

  lemma LocalStepBegin(d: Dag, s: Engine, a: Action, n: NodeId)
    requires Frame(d, s) && Enabled(d, s, a) && n in d.nodes && a.Begin?
    ensures n in Apply(d, s, a).mem
    ensures Local(d.nodes[n], s.stage, Apply(d, s, a).stage, ViewOf(s, n), ViewOf(Apply(d, s, a), n))
  {
    hide Decide, Local, ViewOf, Manned;
    BegunIsLocal(d.nodes[n], s, n, a.n, Decide(d.nodes[a.n], s.mem));
  }

  lemma LocalStepFromPending(d: Dag, s: Engine, a: Action, n: NodeId)
    requires Frame(d, s) && Enabled(d, s, a) && n in d.nodes
    requires a.OpenApproval? || a.SkipNode?
    ensures n in Apply(d, s, a).mem
    ensures Local(d.nodes[n], s.stage, Apply(d, s, a).stage, ViewOf(s, n), ViewOf(Apply(d, s, a), n))
  {
    hide Refused, Decide, Settled, HaltTriggered, FromLive, ByVerdict, ByRestart, Terminal, Produced;
  }

  lemma EndedIsLocal(node: Node, s: Engine, n: NodeId, m: NodeId, ns: NodeState)
    requires n in s.mem && m in s.mem && m in s.live && s.stage != Down
    requires ns.status == Done || ns.status == Failed
    requires n == m && ns.status == Done ==> !Refused(node, ns.output)
    ensures n in Ended(s, m, ns).mem
    ensures Local(node, s.stage, Ended(s, m, ns).stage, ViewOf(s, n), ViewOf(Ended(s, m, ns), n))
  {
    hide Refused, FromPending, ByVerdict, ByRestart;
  }

  lemma LocalStepEnd(d: Dag, s: Engine, a: Action, n: NodeId)
    requires Frame(d, s) && Enabled(d, s, a) && n in d.nodes && (a.Finish? || a.Break?)
    ensures n in Apply(d, s, a).mem
    ensures Local(d.nodes[n], s.stage, Apply(d, s, a).stage, ViewOf(s, n), ViewOf(Apply(d, s, a), n))
  {
    hide Refused, Local, ViewOf, LoopsOk, Manned, Ended;
    var ns := if a.Break? then NodeState(Failed, Null)
              else NodeState(if Refused(d.nodes[a.n], a.output) then Failed else Done, a.output);
    EndedIsLocal(d.nodes[n], s, n, a.n, ns);
  }

  lemma LocalStepByVerdict(d: Dag, s: Engine, a: Action, n: NodeId)
    requires Frame(d, s) && Enabled(d, s, a) && n in d.nodes
    requires a.Judge? || a.WriteVerdict? || a.TakeVerdict?
    ensures n in Apply(d, s, a).mem
    ensures Local(d.nodes[n], s.stage, Apply(d, s, a).stage, ViewOf(s, n), ViewOf(Apply(d, s, a), n))
  {
    hide Refused, FromPending, FromLive, ByRestart, Carries, Outcome;
    if a.TakeVerdict? {
      CarriesOutcome(s, a.n, a.upstream);
    } else if a.WriteVerdict? {
      CarriesOutcome(s, a.n, a.upstream);
    }
  }

  lemma LocalStepRestart(d: Dag, s: Engine, a: Action, n: NodeId)
    requires Scoped(d, s) && Enabled(d, s, a) && n in d.nodes && (a == Crash || a == Restore)
    ensures n in Apply(d, s, a).mem
    ensures Local(d.nodes[n], s.stage, Apply(d, s, a).stage, ViewOf(s, n), ViewOf(Apply(d, s, a), n))
  {
    hide FromPending, FromLive, ByVerdict, AllReturned;
  }

  lemma LocalStepPersist(d: Dag, s: Engine, a: Action, n: NodeId)
    requires Scoped(d, s) && Enabled(d, s, a) && n in d.nodes && (a.Persist? || a == RequestPause)
    ensures n in Apply(d, s, a).mem
    ensures Local(d.nodes[n], s.stage, Apply(d, s, a).stage, ViewOf(s, n), ViewOf(Apply(d, s, a), n))
  {
    hide FromPending, FromLive, ByVerdict, ByRestart;
  }

  lemma SameViewIsLocal(node: Node, from: Stage, to: Stage, v: View)
    requires from == Down <==> to == Down
    ensures Local(node, from, to, v, v)
  {
  }

  lemma StageBeforeAndAfter(d: Dag, s: Engine, a: Action)
    requires LoopsOk(d, s) && Enabled(d, s, a) && OnCalls(a) && a != Crash && a != Restore
    ensures s.stage != Down && Apply(d, s, a).stage != Down
  {
    if a.Switch? {
      assert a.other.stage != Down;
    }
    hide LoopsOk, Settled, RejectionAborts, SomeWaiting, AllTerminal, InNextWave, Parked;
  }

  /** How a call goes on, gives way or ends is nothing to any node. */
  lemma LocalStepCalls(d: Dag, s: Engine, a: Action, n: NodeId)
    requires Frame(d, s) && Enabled(d, s, a) && n in d.nodes && OnCalls(a) && a != Crash && a != Restore
    ensures n in Apply(d, s, a).mem
    ensures Local(d.nodes[n], s.stage, Apply(d, s, a).stage, ViewOf(s, n), ViewOf(Apply(d, s, a), n))
  {
    StageBeforeAndAfter(d, s, a);
    hide Enabled, Parked, LoopsOk, Manned, Local, InNextWave;
    SameViewIsLocal(d.nodes[n], s.stage, Apply(d, s, a).stage, ViewOf(s, n));
  }

  lemma LocalStep(d: Dag, s: Engine, a: Action, n: NodeId)
    requires Frame(d, s) && Enabled(d, s, a) && n in d.nodes
    ensures n in Apply(d, s, a).mem
    ensures Local(d.nodes[n], s.stage, Apply(d, s, a).stage, ViewOf(s, n), ViewOf(Apply(d, s, a), n))
  {
    assert Scoped(d, s);
    assert OnCalls(a) <==> (a == Launch || a == EndWave || a.Stop? || a == Crash || a == Restore || a == Rerun
      || a.Switch?);
    hide *;
    if a.Begin? {
      LocalStepBegin(d, s, a, n);
    } else if a.OpenApproval? || a.SkipNode? {
      LocalStepFromPending(d, s, a, n);
    } else if a.Finish? || a.Break? {
      LocalStepEnd(d, s, a, n);
    } else if a.Judge? || a.WriteVerdict? || a.TakeVerdict? {
      LocalStepByVerdict(d, s, a, n);
    } else if a == Crash || a == Restore {
      LocalStepRestart(d, s, a, n);
    } else if a.Persist? || a == RequestPause {
      LocalStepPersist(d, s, a, n);
    } else {
      LocalStepCalls(d, s, a, n);
    }
  }

  predicate IsHalt(d: Dag, n: NodeId) {
    n in d.nodes && d.nodes[n].kind == Halt
  }

  /** A node other than an approval becomes done in memory only by finishing or by a restart. */
  lemma DoneByFinish(d: Dag, s: Engine, a: Action, n: NodeId)
    requires Frame(d, s) && Enabled(d, s, a) && a != Restore && n in d.nodes
    requires Tidy(d.nodes[n], s.stage, ViewOf(s, n)) && d.nodes[n].kind != Approval
    requires s.mem[n].status != Done && n in Apply(d, s, a).mem && Apply(d, s, a).mem[n].status == Done
    ensures a.Finish? && a.n == n && n in s.live
  {
    hide Refused, Decide, Settled, HaltTriggered, RejectionAborts, InNextWave, LoopsOk, Manned, Parked;
  }
}
