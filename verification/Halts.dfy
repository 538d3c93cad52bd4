/**
 Halt containment: halt nodes run apart from all others, and nothing else starts after them, exactly as
 long as no wave is launched beside a task of the other kind; callers that do not overlap launch none.
 */
module Halts {
  import opened Dags
  import opened States
  import opened Runs
  import opened RunSafety
  import opened RunTheorems

  // ---------------------------------------------------------------------------
  // Careful runs
  // ---------------------------------------------------------------------------

  /** `run` is called again only when no earlier call is still under way; the caller can tell. */
  ghost predicate Careful(d: Dag, s: Engine, acts: seq<Action>)
    requires Valid(d, s, acts)
    decreases |acts|
  {
    acts == [] || ((acts[0] == Rerun ==> AllReturned(s)) && Careful(d, Apply(d, s, acts[0]), acts[1..]))
  }

  /** Calls overlap only after a failure, and then no wave is started any more. */
  ghost predicate Sequential(s: Engine) {
    s.aside != multiset{} ==>
      && s.failed != {} && s.stage != Wave && s.stage != Broken
      && forall l | l in s.aside :: l.stage != Wave && l.stage != Broken
  }

  lemma SequentialRerun(d: Dag, s: Engine)
    requires LoopsOk(d, s) && Sequential(s) && Enabled(d, s, Rerun) && AllReturned(s)
    ensures Sequential(Apply(d, s, Rerun))
  {
    hide Parked;
    var t := Apply(d, s, Rerun);
    forall l | l in t.aside
      ensures l.stage.Stopped? && s.failed != {}
    {
      ParkedLoops(s, l);
    }
  }

  lemma SequentialSwitch(d: Dag, s: Engine, a: Action)
    requires Sequential(s) && Enabled(d, s, a) && a.Switch?
    ensures Sequential(Apply(d, s, a))
  {
    hide Parked, LoopsOk;
    var t := Apply(d, s, a);
    forall l | l in t.aside
      ensures l.stage != Wave && l.stage != Broken
    {
      ParkedLoops(s, l);
    }
  }

  lemma BrokenFromWave(d: Dag, s: Engine, a: Action)
    requires Enabled(d, s, a) && !OnCalls(a) && Apply(d, s, a).stage == Broken
    ensures s.stage == Wave || s.stage == Broken
  {
    hide Settled, RejectionAborts, SomeWaiting, HaltTriggered, InNextWave, Decide, Outcome, Refused, AllTerminal;
  }

  lemma SequentialStep(d: Dag, s: Engine, a: Action)
    requires Frame(d, s) && Sequential(s) && Enabled(d, s, a) && (a == Rerun ==> AllReturned(s))
    ensures Sequential(Apply(d, s, a))
  {
    if a.Switch? {
      SequentialSwitch(d, s, a);
    } else if a.Rerun? {
      SequentialRerun(d, s);
    } else if OnCalls(a) {
      CallActionStep(d, s, a);
      hide Frame, LoopOk, Settled, InNextWave, HaltTriggered;
      hide RejectionAborts, AllTerminal, SomeWaiting, Restored, Parked;
    } else {
      NodeActionStep(d, s, a);
      StageKept(d, s, a);
      if Apply(d, s, a).stage == Broken {
        BrokenFromWave(d, s, a);
      }
      hide Frame, Apply, Enabled;
    }
  }

  // ---------------------------------------------------------------------------
  // Halts alone
  // ---------------------------------------------------------------------------

  /** A node that some call has launched and that has not come to its end. */
  predicate Task(s: Engine, n: NodeId) {
    n in s.todo || n in s.live || exists l | l in s.aside :: n in l.todo
  }

  /** All tasks are halt nodes; or none is, and no halt is done. */
  ghost predicate HaltAlone(d: Dag, s: Engine) {
    || (forall n | Task(s, n) :: IsHalt(d, n))
    || ((forall n | Task(s, n) :: !IsHalt(d, n)) && !HaltTriggered(d, s.mem))
  }

  /** A wave is launched beside a task of the other kind: halts beside other nodes, or other nodes beside halts. */
  ghost predicate Mixes(d: Dag, s: Engine, a: Action) {
    a == Launch && exists m, n :: Task(s, m) && n in d.nodes && InNextWave(d, s.mem, n) && IsHalt(d, m) != IsHalt(d, n)
  }

  /** A wave is all halt nodes or has none, and is launched only while no halt is done. */
  lemma WaveIsUniform(d: Dag, s: Engine) returns (halts: bool)
    requires Enabled(d, s, Launch)
    ensures !HaltTriggered(d, s.mem)
    ensures exists n :: n in d.nodes && InNextWave(d, s.mem, n)
    ensures forall n | n in d.nodes && InNextWave(d, s.mem, n) :: IsHalt(d, n) == halts
  {
    hide Decide, RejectionAborts, ApprovalOpen;
    var n :| n in d.nodes && InNextWave(d, s.mem, n);
    assert !Skippable(d, s.mem, n);
    if h :| h in d.nodes && IsReady(d, s.mem, h) && d.nodes[h].kind == Halt {
      halts := true;
    } else {
      halts := false;
    }
  }

  /** A launch adds the next wave to the tasks. */
  lemma LaunchAddsWave(d: Dag, s: Engine, n: NodeId)
    requires Frame(d, s) && Enabled(d, s, Launch)
    ensures Task(Apply(d, s, Launch), n) <==> Task(s, n) || (n in d.nodes && InNextWave(d, s.mem, n))
  {
    BoundaryHasNoTasksToBegin(d, s);
    hide Frame, InNextWave, Proceeds;
  }

  lemma BoundaryHasNoTasksToBegin(d: Dag, s: Engine)
    requires Frame(d, s) && Enabled(d, s, Launch)
    ensures s.todo == {}
  {
  }

  lemma LaunchMixesIff(d: Dag, s: Engine)
    requires Frame(d, s) && HaltAlone(d, s) && Enabled(d, s, Launch)
    ensures !HaltAlone(d, Apply(d, s, Launch)) <==> Mixes(d, s, Launch)
  {
    var t := Apply(d, s, Launch);
    assert t.mem == s.mem;
    var halts := WaveIsUniform(d, s);
    hide Enabled, Apply, HaltTriggered, Task, Frame, IsHalt, InNextWave;
    forall n
      ensures Task(t, n) <==> Task(s, n) || (n in d.nodes && InNextWave(d, s.mem, n))
    {
      LaunchAddsWave(d, s, n);
    }
    if Mixes(d, s, Launch) {
      var m, n :| Task(s, m) && n in d.nodes && InNextWave(d, s.mem, n) && IsHalt(d, m) != IsHalt(d, n);
      assert Task(t, m) && Task(t, n);
    } else {
      var n :| n in d.nodes && InNextWave(d, s.mem, n);
      assert forall m | Task(s, m) :: IsHalt(d, m) == halts;
    }
  }

  lemma TasksBeside(d: Dag, s: Engine, a: Action, n: NodeId)
    requires Enabled(d, s, a) && (a.Rerun? || a.Switch?) && Task(Apply(d, s, a), n)
    ensures Task(s, n)
  {
    hide Parked;
    var t := Apply(d, s, a);
    if n !in t.todo && n !in t.live {
      var l :| l in t.aside && n in l.todo;
      ParkedLoops(s, l);
    }
  }

  /** Nothing but the start of a wave makes new tasks. */
  lemma TasksShrink(d: Dag, s: Engine, a: Action, n: NodeId)
    requires Enabled(d, s, a) && a != Launch && Task(Apply(d, s, a), n)
    ensures Task(s, n)
  {
    if a.Rerun? || a.Switch? {
      TasksBeside(d, s, a, n);
    } else {
      hide Refused, Decide, Settled, RejectionAborts, InNextWave, HaltTriggered, Restored, Outcome, Parked;
      hide Proceeds, NothingReady, AllTerminal, SomeWaiting, AllReturned, ApprovalOpen, Skippable;
    }
  }

  lemma HaltTriggeredStep(d: Dag, s: Engine, a: Action)
    requires Frame(d, s) && NodesSafe(d, s) && Enabled(d, s, a) && a != Restore
    requires HaltTriggered(d, Apply(d, s, a).mem) && !HaltTriggered(d, s.mem)
    ensures exists h :: IsHalt(d, h) && Task(s, h)
  {
    hide Apply, Enabled, Refused, Tidy, LoopsOk, Manned;
    var h :| h in d.nodes && d.nodes[h].kind == Halt && h in Apply(d, s, a).mem && Apply(d, s, a).mem[h].status == Done;
    assert NodeSafe(d.nodes[h], s.stage, ViewOf(s, h));
    DoneByFinish(d, s, a, h);
    assert IsHalt(d, h) && Task(s, h);
  }

  lemma RestoreHasNoTasks(d: Dag, s: Engine, n: NodeId)
    requires Enabled(d, s, Restore)
    ensures !Task(Apply(d, s, Restore), n)
  {
  }

  /** Nothing but such a launch ends the separation of halts from other nodes, overlapping calls included. */
  lemma HaltAloneBreaksIff(d: Dag, s: Engine, a: Action)
    requires Frame(d, s) && NodesSafe(d, s) && HaltAlone(d, s) && Enabled(d, s, a)
    ensures !HaltAlone(d, Apply(d, s, a)) <==> Mixes(d, s, a)
  {
    if a == Launch {
      LaunchMixesIff(d, s);
    } else if a == Restore {
      forall n
        ensures !Task(Apply(d, s, a), n)
      {
        RestoreHasNoTasks(d, s, n);
      }
    } else {
      HaltAloneKept(d, s, a);
    }
  }

  lemma HaltAloneKept(d: Dag, s: Engine, a: Action)
    requires Frame(d, s) && NodesSafe(d, s) && HaltAlone(d, s) && Enabled(d, s, a) && a != Launch && a != Restore
    ensures HaltAlone(d, Apply(d, s, a))
  {
    var t := Apply(d, s, a);
    hide Apply, Enabled, HaltTriggered, Task, Frame, NodesSafe, IsHalt;
    forall n | Task(t, n)
      ensures Task(s, n)
    {
      TasksShrink(d, s, a, n);
    }
    if HaltTriggered(d, t.mem) && !HaltTriggered(d, s.mem) {
      HaltTriggeredStep(d, s, a);
    }
  }

  // ---------------------------------------------------------------------------
  // Runs in which no wave mixes
  // ---------------------------------------------------------------------------

  ghost predicate Unmixed(d: Dag, s: Engine, acts: seq<Action>)
    requires Valid(d, s, acts)
    decreases |acts|
  {
    acts == [] || (!Mixes(d, s, acts[0]) && Unmixed(d, Apply(d, s, acts[0]), acts[1..]))
  }

  ghost predicate AlwaysAlone(d: Dag, s: Engine, acts: seq<Action>)
    requires Valid(d, s, acts)
    decreases |acts|
  {
    HaltAlone(d, s) && (acts == [] || AlwaysAlone(d, Apply(d, s, acts[0]), acts[1..]))
  }

  ghost predicate HaltSafe(d: Dag, s: Engine) {
    Safe(d, s) && HaltAlone(d, s)
  }

  lemma StartIsHaltSafe(d: Dag)
    ensures HaltSafe(d, Init(d))
  {
  }

  lemma HaltSafeStepIff(d: Dag, s: Engine, a: Action)
    requires HaltSafe(d, s) && Enabled(d, s, a)
    ensures Safe(d, Apply(d, s, a)) && (HaltAlone(d, Apply(d, s, a)) <==> !Mixes(d, s, a))
  {
    hide Apply, Enabled, HaltAlone, Frame, NodesSafe, DoneIsFinal, Mixes;
    SafeStep(d, s, a);
    HaltAloneBreaksIff(d, s, a);
  }

  /** Over whole runs, overlapping calls included: halts stay alone throughout exactly if no wave mixes. */
  lemma {:induction false} HaltsStayAloneIff(d: Dag, s: Engine, acts: seq<Action>)
    requires HaltSafe(d, s) && Valid(d, s, acts)
    ensures AlwaysAlone(d, s, acts) <==> Unmixed(d, s, acts)
    ensures Unmixed(d, s, acts) ==> HaltSafe(d, Exec(d, s, acts))
    decreases |acts|
  {
    hide Safe, HaltAlone, Apply, Enabled, Mixes;
    if acts != [] {
      HaltSafeStepIff(d, s, acts[0]);
      if !Mixes(d, s, acts[0]) {
        HaltsStayAloneIff(d, Apply(d, s, acts[0]), acts[1..]);
      } else {
        NotAlone(d, Apply(d, s, acts[0]), acts[1..]);
      }
    }
  }

  lemma NotAlone(d: Dag, s: Engine, acts: seq<Action>)
    requires Valid(d, s, acts) && !HaltAlone(d, s)
    ensures !AlwaysAlone(d, s, acts)
  {
    hide HaltAlone;
  }

  ghost predicate ReachableUnmixed(d: Dag, s: Engine) {
    exists acts :: Valid(d, Init(d), acts) && Unmixed(d, Init(d), acts) && Exec(d, Init(d), acts) == s
  }

  lemma UnmixedIsHaltSafe(d: Dag, s: Engine)
    requires ReachableUnmixed(d, s)
    ensures HaltSafe(d, s)
  {
    hide HaltSafe;
    var acts :| Valid(d, Init(d), acts) && Unmixed(d, Init(d), acts) && Exec(d, Init(d), acts) == s;
    StartIsHaltSafe(d);
    HaltsStayAloneIff(d, Init(d), acts);
  }

  /** A run that goes on without a mixed wave after one without. */
  lemma UnmixedStep(d: Dag, s: Engine, a: Action)
    requires ReachableUnmixed(d, s) && Enabled(d, s, a) && !Mixes(d, s, a)
    ensures ReachableUnmixed(d, Apply(d, s, a))
  {
    hide Enabled, Apply, Mixes;
    var acts :| Valid(d, Init(d), acts) && Unmixed(d, Init(d), acts) && Exec(d, Init(d), acts) == s;
    ExecSnoc(d, Init(d), acts, a);
    UnmixedSnoc(d, Init(d), acts, a);
  }

  lemma {:induction false} UnmixedSnoc(d: Dag, s: Engine, acts: seq<Action>, a: Action)
    requires Valid(d, s, acts) && Unmixed(d, s, acts) && Valid(d, s, acts + [a])
    requires !Mixes(d, Exec(d, s, acts), a)
    ensures Unmixed(d, s, acts + [a])
    decreases |acts|
  {
    hide Enabled, Apply, Mixes;
    if acts == [] {
      assert ([] + [a])[0] == a && ([] + [a])[1..] == [];
    } else {
      assert (acts + [a])[0] == acts[0] && (acts + [a])[1..] == acts[1..] + [a];
      UnmixedSnoc(d, Apply(d, s, acts[0]), acts[1..], a);
    }
  }

  // ---------------------------------------------------------------------------
  // The theorems
  // ---------------------------------------------------------------------------

  /** A halt that is recorded as done in the store is done in memory. */
  lemma HaltRowIsTrue(d: Dag, s: Engine, h: NodeId)
    requires Safe(d, s) && s.stage != Down && IsHalt(d, h) && h in s.rows && s.rows[h].status == Done
    ensures h in s.mem && s.mem[h].status == Done
  {
    hide Honest, LoopsOk, Manned;
    assert NodeSafe(d.nodes[h], s.stage, ViewOf(s, h));
  }

  /**
   In every run, overlapping calls included, in which no wave is launched beside a task of the other kind:
   what starts beside a halt node is a halt node, what a halt node starts beside are halt nodes, and
   nothing but a halt node starts once a halt node is done, in memory or in the store.
   */
  lemma HaltContainment(d: Dag, s: Engine, n: NodeId)
    requires ReachableUnmixed(d, s) && Enabled(d, s, Begin(n))
    ensures forall m | Task(s, m) :: IsHalt(d, m) == IsHalt(d, n)
    ensures !IsHalt(d, n) ==> !HaltTriggered(d, s.mem) && !HaltTriggered(d, s.rows)
  {
    UnmixedIsHaltSafe(d, s);
    assert Waves(s) && Task(s, n);
    hide Enabled, Safe, Task;
    if !IsHalt(d, n) {
      assert !HaltTriggered(d, s.mem);
      forall h | IsHalt(d, h)
        ensures !(h in s.rows && s.rows[h].status == Done)
      {
        if h in s.rows && s.rows[h].status == Done {
          HaltRowIsTrue(d, s, h);
          assert false;
        }
      }
    }
  }

  /** A halt node recorded as done in the store stays recorded. */
  lemma HaltRowStays(d: Dag, s: Engine, a: Action, h: NodeId)
    requires Safe(d, s) && Enabled(d, s, a) && IsHalt(d, h)
    requires h in s.rows && s.rows[h].status == Done
    ensures h in Apply(d, s, a).rows && Apply(d, s, a).rows[h].status == Done
  {
    hide Apply, Enabled, Honest, DoneIsFinal, Refused, LoopsOk, Manned;
    assert NodeSafe(d.nodes[h], s.stage, ViewOf(s, h));
    LocalStep(d, s, a, h);
    assert Local(d.nodes[h], s.stage, Apply(d, s, a).stage, ViewOf(s, h), ViewOf(Apply(d, s, a), h));
  }

  /** After a halt is recorded, no later part of such a run, over any restarts, starts another kind of node. */
  lemma {:induction false} HaltIsForever(d: Dag, s: Engine, h: NodeId, acts: seq<Action>, n: NodeId)
    requires ReachableUnmixed(d, s) && IsHalt(d, h) && h in s.rows && s.rows[h].status == Done
    requires Valid(d, s, acts) && Unmixed(d, s, acts) && Enabled(d, Exec(d, s, acts), Begin(n))
    ensures IsHalt(d, n)
    decreases |acts|
  {
    hide ReachableUnmixed, Apply, Mixes;
    if acts == [] {
      if !IsHalt(d, n) {
        HaltContainment(d, s, n);
      }
    } else {
      UnmixedIsHaltSafe(d, s);
      HaltRowStays(d, s, acts[0], h);
      UnmixedStep(d, s, acts[0]);
      HaltIsForever(d, Apply(d, s, acts[0]), h, acts[1..], n);
    }
  }

  // ---------------------------------------------------------------------------
  // Careful runs do not mix
  // ---------------------------------------------------------------------------

  lemma SequentialDoesNotMix(d: Dag, s: Engine, a: Action)
    requires Frame(d, s) && Sequential(s) && Enabled(d, s, a)
    ensures !Mixes(d, s, a)
  {
    if a == Launch {
      assert s.aside == multiset{};
      assert forall n :: !ByCall(s, n);
      assert forall n :: !Task(s, n);
    }
  }

  /**
   What a caller can see to: if `run` is called again only when every earlier call has returned, no
   wave mixes, whatever else happens.
   */
  lemma {:induction false} CarefulIsUnmixed(d: Dag, s: Engine, acts: seq<Action>)
    requires Safe(d, s) && Sequential(s) && Valid(d, s, acts) && Careful(d, s, acts)
    ensures Unmixed(d, s, acts)
    decreases |acts|
  {
    hide Frame, NodesSafe, DoneIsFinal, Sequential, Apply, Enabled, AllReturned, Mixes;
    if acts != [] {
      SequentialDoesNotMix(d, s, acts[0]);
      SafeStep(d, s, acts[0]);
      SequentialStep(d, s, acts[0]);
      CarefulIsUnmixed(d, Apply(d, s, acts[0]), acts[1..]);
    }
  }

  /** So halts are contained in every run of a careful caller. */
  lemma CarefulHaltContainment(d: Dag, acts: seq<Action>, n: NodeId)
    requires Valid(d, Init(d), acts) && Careful(d, Init(d), acts) && Enabled(d, Exec(d, Init(d), acts), Begin(n))
    ensures var s := Exec(d, Init(d), acts);
            && (forall m | Task(s, m) :: IsHalt(d, m) == IsHalt(d, n))
            && (!IsHalt(d, n) ==> !HaltTriggered(d, s.mem) && !HaltTriggered(d, s.rows))
  {
    StartIsHaltSafe(d);
    hide Safe, Enabled, Apply, Task, HaltTriggered, Mixes;
    CarefulIsUnmixed(d, Init(d), acts);
    HaltContainment(d, Exec(d, Init(d), acts), n);
  }
}
