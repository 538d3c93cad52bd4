/** Safety theorems about every run of a workflow, with crashes, resumes, pauses and approvals. */
module RunTheorems {
  import opened Dags
  import opened States
  import opened Runs
  import opened RunSafety

  // ---------------------------------------------------------------------------
  // The invariant of every reachable state
  // ---------------------------------------------------------------------------

  ghost predicate NodesSafe(d: Dag, s: Engine)
    requires Frame(d, s)
  {
    forall n | n in d.nodes :: NodeSafe(d.nodes[n], s.stage, ViewOf(s, n))
  }

  /** A run reported as done stays what it was. */
  ghost predicate DoneIsFinal(d: Dag, s: Engine) {
    s.stage == Stopped(DoneRun) ==>
      AllTerminal(s.mem) && s.failed == {} && forall n | n in d.nodes :: !RejectionAborts(d, s.mem, n)
  }

  ghost predicate Safe(d: Dag, s: Engine) {
    Frame(d, s) && NodesSafe(d, s) && DoneIsFinal(d, s)
  }

  /** After a done run nothing in memory changes any more. */
  lemma DoneStays(d: Dag, s: Engine, a: Action)
    requires s.stage == Stopped(DoneRun) && AllTerminal(s.mem) && Enabled(d, s, a) && !OnCalls(a)
    ensures Apply(d, s, a).mem == s.mem && Apply(d, s, a).failed == s.failed
  {
    hide Settled, RejectionAborts, SomeWaiting, HaltTriggered, InNextWave, Decide, Outcome;
  }

  lemma ReturnsDone(d: Dag, s: Engine, a: Action)
    requires Frame(d, s) && Enabled(d, s, a) && OnCalls(a) && Apply(d, s, a).stage == Stopped(DoneRun)
    ensures a == Stop(DoneRun)
  {
    if a.Switch? {
      AsideIsAtWork(d, s, a.other);
    }
    hide Settled, RejectionAborts, SomeWaiting, HaltTriggered, InNextWave, AllTerminal, Parked, Restored, Frame;
  }

  lemma StageKept(d: Dag, s: Engine, a: Action)
    requires Enabled(d, s, a) && !OnCalls(a)
    ensures Apply(d, s, a).stage == s.stage || Apply(d, s, a).stage == Broken
  {
    hide Settled, RejectionAborts, SomeWaiting, HaltTriggered, InNextWave, Decide, Outcome, Refused, AllTerminal;
  }

  lemma DoneIsFinalStep(d: Dag, s: Engine, a: Action)
    requires Frame(d, s) && DoneIsFinal(d, s) && Enabled(d, s, a)
    ensures DoneIsFinal(d, Apply(d, s, a))
  {
    hide RejectionAborts, AllTerminal, Frame, SomeWaiting, Settled, NothingReady;
    if Apply(d, s, a).stage == Stopped(DoneRun) {
      if OnCalls(a) {
        ReturnsDone(d, s, a);
      } else {
        StageKept(d, s, a);
        DoneStays(d, s, a);
      }
    }
  }

  /** A call that waits for its turn has something left to do. */
  lemma AsideIsAtWork(d: Dag, s: Engine, l: Loop)
    requires Frame(d, s) && l in s.aside
    ensures l.stage == Boundary || Busy(l.stage)
    ensures l.stage.Stopped? ==> s.failed != {}
  {
    assert LoopOk(d, l, s.failed);
  }

  lemma SafeStep(d: Dag, s: Engine, a: Action)
    requires Safe(d, s) && Enabled(d, s, a)
    ensures Safe(d, Apply(d, s, a))
  {
    var t := Apply(d, s, a);
    hide Apply, Enabled, Local, Tidy, RowTracks, Honest, Frame, DoneIsFinal;
    FrameStep(d, s, a);
    forall n | n in d.nodes
      ensures n in t.mem && NodeSafe(d.nodes[n], t.stage, ViewOf(t, n))
    {
      FrameKeys(d, s);
      assert NodeSafe(d.nodes[n], s.stage, ViewOf(s, n));
      LocalStep(d, s, a, n);
      LocalKeepsSafe(d.nodes[n], s.stage, t.stage, ViewOf(s, n), ViewOf(t, n));
    }
    FrameKeys(d, s);
    assert forall n | n in d.nodes :: NodeSafe(d.nodes[n], s.stage, ViewOf(s, n));
    DoneIsFinalStep(d, s, a);
  }

  lemma FrameKeys(d: Dag, s: Engine)
    requires Frame(d, s)
    ensures s.mem.Keys == d.nodes.Keys
  {
  }

  /** Safety over whole runs: no sequence of actions leaves the invariant. */
  lemma {:induction false} SafeRun(d: Dag, s: Engine, acts: seq<Action>)
    requires Safe(d, s) && Valid(d, s, acts)
    ensures Safe(d, Exec(d, s, acts))
    decreases |acts|
  {
    if acts != [] {
      SafeStep(d, s, acts[0]);
      SafeRun(d, Apply(d, s, acts[0]), acts[1..]);
    }
  }

  lemma ReachableIsSafe(d: Dag, s: Engine)
    requires Reachable(d, s)
    ensures Safe(d, s)
  {
    var acts :| Valid(d, Init(d), acts) && Exec(d, Init(d), acts) == s;
    SafeRun(d, Init(d), acts);
  }

  lemma MemoryCoversGraph(d: Dag, s: Engine)
    requires Reachable(d, s)
    ensures s.mem.Keys == d.nodes.Keys
  {
    ReachableIsSafe(d, s);
  }

  /** A node that is pending in the executor has never had an approval opened. */
  lemma PendingWasNeverOpened(d: Dag, s: Engine, n: NodeId)
    requires Reachable(d, s) && s.stage != Down && n in s.mem && s.mem[n].status == Pending
    ensures n in d.nodes && n !in s.verdicts && (n !in s.rows || !Kept(s.rows[n]))
  {
    ReachableIsSafe(d, s);
    hide Honest, RowTracks;
    assert n in d.nodes;
    assert NodeSafe(d.nodes[n], s.stage, ViewOf(s, n));
  }

  lemma RowsInGraph(d: Dag, s: Engine)
    requires Reachable(d, s)
    ensures s.rows.Keys <= d.nodes.Keys
  {
    ReachableIsSafe(d, s);
  }

  /** While nobody has judged it, a waiting node waits in memory and in the store alike. */
  lemma WaitingRowIsOpen(d: Dag, s: Engine, n: NodeId)
    requires Reachable(d, s) && s.stage != Down && s.dirty == {} && n in s.mem && s.mem[n].status == Waiting
    requires n in s.rows && Kept(s.rows[n]) && n !in s.verdicts
    ensures s.mem[n] == OPEN && s.rows[n] == OPEN
  {
    ReachableIsSafe(d, s);
    hide Honest;
    assert n in d.nodes;
    assert NodeSafe(d.nodes[n], s.stage, ViewOf(s, n));
  }

  /** With no other call at work, no task is left at a boundary. */
  lemma BoundaryIsIdle(d: Dag, s: Engine)
    requires Reachable(d, s) && s.stage == Boundary && s.aside == multiset{}
    ensures s.todo == {} && s.mine == {} && s.live == {}
  {
    ReachableIsSafe(d, s);
    assert forall n :: !ByCall(s, n);
  }

  /** Without a failure, calls that have returned leave nothing behind. */
  lemma ReturnedIsGone(d: Dag, s: Engine)
    requires Frame(d, s) && s.failed == {} && forall l | l in s.aside :: l.stage.Stopped?
    ensures s.aside == multiset{}
  {
    forall l
      ensures l !in s.aside
    {
      if l in s.aside {
        AsideIsAtWork(d, s, l);
        assert false;
      }
    }
  }

  /** A node that is being executed has no open or judged row. */
  lemma LiveWasNeverOpened(d: Dag, s: Engine, n: NodeId)
    requires Reachable(d, s) && s.stage != Down && n in s.live && s.dirty == {}
    ensures n in d.nodes && n in s.rows && !Kept(s.rows[n])
    ensures d.nodes[n].kind != Approval && n in s.mem && s.mem[n].status == Running
  {
    ReachableIsSafe(d, s);
    hide Honest;
    assert n in d.nodes;
    assert NodeSafe(d.nodes[n], s.stage, ViewOf(s, n));
  }

  lemma ReachableStep(d: Dag, s: Engine, a: Action)
    requires Reachable(d, s) && Enabled(d, s, a)
    ensures Reachable(d, Apply(d, s, a))
  {
    var acts :| Valid(d, Init(d), acts) && Exec(d, Init(d), acts) == s;
    ExecSnoc(d, Init(d), acts, a);
  }

  // ---------------------------------------------------------------------------
  // Stall freedom
  // ---------------------------------------------------------------------------

  /** Some node that is not terminal has only terminal sources. */
  lemma MinimalOpenNode(d: Dag, st: States, order: seq<NodeId>) returns (n: NodeId)
    requires Coherent(d) && Topological(d.edges, order) && st.Keys == d.nodes.Keys
    requires forall m :: m in order <==> m in d.nodes
    requires !AllTerminal(st)
    ensures n in d.nodes && !Terminal(st[n].status) && SourcesTerminal(d.nodes[n], st)
  {
    var open :| open in st && !Terminal(st[open].status);
    var last :| 0 <= last < |order| && order[last] == open;
    var k := 0;
    while Terminal(st[order[k]].status)
      invariant 0 <= k <= last
      invariant forall i | 0 <= i < k :: Terminal(st[order[i]].status)
      decreases |order| - k
    {
      k := k + 1;
    }
    n := order[k];
    forall e | e in d.nodes[n].inEdges
      ensures e.source in st && Terminal(st[e.source].status)
    {
      InEdgesOf(d, n, e);
      assert e.source in order[..k];
    }
  }

  lemma SomethingIsReady(d: Dag, st: States, n: NodeId)
    requires IsReady(d, st, n)
    ensures exists m :: m in d.nodes && InNextWave(d, st, m)
  {
    if h :| h in d.nodes && IsReady(d, st, h) && d.nodes[h].kind == Halt {
      assert InNextWave(d, st, h);
    } else {
      assert InNextWave(d, st, n);
    }
  }

  /** Neither terminal, nor pending, nor waiting: being executed, failed, or cancelled. */
  predicate Adrift(s: Status) {
    s.Running? || s.Failed? || s.Cancelled?
  }

  /**
   When there is nothing left to do: on any node states whatever, once the boundary passes are
   settled and no node is left to schedule, a run with no approval waiting stalls exactly if
   some node is being executed, failed or cancelled. (A second `run` on an executor whose first
   one is still inside a wave finds such a node.)
   */
  lemma StallsIff(d: Dag, st: States)
    requires WellFormed(d) && st.Keys == d.nodes.Keys
    requires Settled(d, st) && (forall n | n in d.nodes :: !InNextWave(d, st, n)) && !SomeWaiting(st)
    ensures !AllTerminal(st) <==> exists n :: n in st && Adrift(st[n].status)
  {
    if !AllTerminal(st) {
      assert ClosedEdges(d.nodes.Keys, d.edges);
      var order := AcyclicHasOrder(d.nodes.Keys, d.edges);
      var n := MinimalOpenNode(d, st, order);
      MinimalIsNotPending(d, st, n);
      assert n in st && Adrift(st[n].status);
    }
  }

  lemma MinimalIsNotPending(d: Dag, st: States, n: NodeId)
    requires n in d.nodes && n in st && SourcesTerminal(d.nodes[n], st)
    requires Settled(d, st) && forall m | m in d.nodes :: !InNextWave(d, st, m)
    ensures st[n].status != Pending
  {
    hide HaltTriggered, SourcesTerminal, InNextWave;
    NeverBlocked(d.nodes[n], st);
    assert !ApprovalOpen(d, st, n) && !Skippable(d, st, n);
    if IsReady(d, st, n) {
      SomethingIsReady(d, st, n);
    }
  }

  /**
   A call that has come to a point where nothing is left to do raises the stall error exactly if some other
   call is executing a node.
   */
  lemma StallsExactlyBesideOthers(d: Dag, s: Engine)
    requires WellFormed(d) && Reachable(d, s)
    requires Proceeds(d, s) && NothingReady(d, s) && !SomeWaiting(s.mem)
    ensures Stalls(d, s) <==> s.live != {}
  {
    ReachableIsSafe(d, s);
    StallsIff(d, s.mem);
    forall n | n in s.mem
      ensures Adrift(s.mem[n].status) <==> n in s.live
    {
      OnlyLiveAreAdrift(d, s, n);
    }
    if s.live != {} {
      var n :| n in s.live;
      assert n in s.mem && Adrift(s.mem[n].status);
    }
  }

  lemma OnlyLiveAreAdrift(d: Dag, s: Engine, n: NodeId)
    requires Frame(d, s) && NodesSafe(d, s) && s.stage == Boundary && s.failed == {} && n in s.mem
    ensures Adrift(s.mem[n].status) <==> n in s.live
  {
    hide Honest, RowTracks, LoopsOk, Manned;
    assert NodeSafe(d.nodes[n], s.stage, ViewOf(s, n));
  }

  /**
   The stall error is never raised by a call that runs alone: if every other call of `run` has
   returned, then in any reachable state, after any crashes, resumes and overlaps in the past, a
   graph with no node to schedule either waits for an approval or has come to its end.
   */
  lemma NeverStalls(d: Dag, s: Engine)
    requires WellFormed(d) && Reachable(d, s)
    requires forall l | l in s.aside :: l.stage.Stopped?
    ensures !Stalls(d, s)
  {
    ReachableIsSafe(d, s);
    if s.stage == Boundary && s.failed == {} {
      ReturnedIsGone(d, s);
      BoundaryIsIdle(d, s);
      if Proceeds(d, s) && NothingReady(d, s) && !SomeWaiting(s.mem) {
        StallsExactlyBesideOthers(d, s);
      }
    }
  }

  lemma NeverBlocked(node: Node, st: States)
    requires SourcesTerminal(node, st)
    ensures Decide(node, st) != Blocked
  {
  }

  // ---------------------------------------------------------------------------
  // Honest results
  // ---------------------------------------------------------------------------

  /** No node stands as done, in memory or in the store, on an output the guards refuse. */
  lemma NoRefusedOutputIsDone(d: Dag, s: Engine, n: NodeId)
    requires Reachable(d, s) && n in d.nodes
    ensures n in s.mem && (s.mem[n].status == Done ==> !Refused(d.nodes[n], s.mem[n].output))
    ensures n in s.rows && s.rows[n].status == Done ==> !Refused(d.nodes[n], s.rows[n].output)
  {
    ReachableIsSafe(d, s);
    assert NodeSafe(d.nodes[n], s.stage, ViewOf(s, n));
  }

  /** A run that reports done has no failed node, no pending node and no aborting rejection. */
  lemma DoneMeansDone(d: Dag, s: Engine, n: NodeId)
    requires Reachable(d, s) && s.stage == Stopped(DoneRun) && n in d.nodes
    ensures n in s.mem && Terminal(s.mem[n].status) && s.mem[n].status != Failed
    ensures !RejectionAborts(d, s.mem, n)
    ensures s.mem[n].status == Done ==> !Refused(d.nodes[n], s.mem[n].output)
  {
    ReachableIsSafe(d, s);
    NoRefusedOutputIsDone(d, s, n);
  }

  // ---------------------------------------------------------------------------
  // Memory and store at a boundary
  // ---------------------------------------------------------------------------

  /** An approval that the store has already closed, by the verdict on record, while the executor still waits for it. */
  predicate JudgedElsewhere(s: Engine, n: NodeId) {
    && n in s.mem && s.mem[n].status == Waiting
    && n in s.rows && n in s.verdicts && s.rows[n].status != Waiting && Carries(s.rows[n], s.verdicts[n])
  }

  /**
   Rebuilding the executor from the store gives back the memory state of every node whose row has
   been written, in any reachable state, overlapping calls included, with two exceptions: nodes that
   are running or have failed start over, and approvals may have been judged in the meantime.
   */
  lemma CheckpointIsFaithful(d: Dag, s: Engine, n: NodeId)
    requires Reachable(d, s) && s.stage != Down && n in d.nodes && n !in s.dirty
    ensures n in s.mem
    ensures if s.mem[n].status == Running || s.mem[n].status == Failed then Restored(d, s.rows)[n] == FRESH
            else Restored(d, s.rows)[n] == s.mem[n] || JudgedElsewhere(s, n)
  {
    ReachableIsSafe(d, s);
    SafeCheckpoint(d, s, n);
  }

  lemma SafeCheckpoint(d: Dag, s: Engine, n: NodeId)
    requires Frame(d, s) && NodesSafe(d, s) && s.stage != Down && n in d.nodes && n !in s.dirty
    ensures n in s.mem
    ensures if s.mem[n].status == Running || s.mem[n].status == Failed then Restored(d, s.rows)[n] == FRESH
            else Restored(d, s.rows)[n] == s.mem[n] || JudgedElsewhere(s, n)
  {
    hide Honest, LoopsOk, Manned;
    assert NodeSafe(d.nodes[n], s.stage, ViewOf(s, n));
  }
}
