/**
 What the joins and conditions of a graph promise of every run, told by the nodes' statuses and outputs: which
 nodes may start, which are skipped, and what a wave consists of.
 */
module Joins {
  import opened Values
  import opened Dags
  import opened States
  import opened Evaluation
  import opened Runs
  import opened RunSafety
  import opened RunTheorems
  import opened Readiness
  import opened Confluence

  // ---------------------------------------------------------------------------
  // The rules
  // ---------------------------------------------------------------------------

  /** What a condition reads: a value inside some node's output, or null. */
  function Seen(c: Cond, st: States): Value {
    if c.node in st then Lookup(st[c.node].output, c.path) else Null
  }

  /** The source has put something out, and the edge's condition, if it has one, is true of what it reads. */
  predicate Supports(e: Edge, st: States) {
    && e.source in st
    && (st[e.source].status == Done || st[e.source].status == Rejected || st[e.source].status == RejectedCanceled)
    && match e.when
       case None => true
       case Some(c) => if c.negated then !LooseEqual(Seen(c, st), c.literal) else LooseEqual(Seen(c, st), c.literal)
  }

  /** Every source has come to an end. */
  predicate SourcesEnded(node: Node, st: States) {
    forall e | e in node.inEdges ::
      && e.source in st
      && (st[e.source].status == Done || st[e.source].status == Skipped || st[e.source].status == Rejected
          || st[e.source].status == RejectedCanceled)
  }

  /** An `all` join takes every required source, any other join one source; a root takes none. */
  ghost predicate JoinHolds(node: Node, st: States) {
    if |node.inEdges| == 0 then true
    else if node.join == AllEdges then
      && (forall u | u in node.required :: exists e :: e in node.inEdges && e.source == u && Supports(e, st))
      && (forall e | e in node.inEdges && e.source in node.required :: Supports(e, st))
    else exists e :: e in node.inEdges && Supports(e, st)
  }

  /** How the decision of the executor comes out. */
  lemma DecisionFollowsJoin(node: Node, st: States)
    requires JoinConsistent(node)
    ensures Decide(node, st) ==
            if JoinHolds(node, st) then Ready else if SourcesEnded(node, st) then Skip else Blocked
  {
    forall e | e in node.inEdges
      ensures EdgeActive(e, st) <==> Supports(e, st)
    {
    }
    assert SourcesTerminal(node, st) <==> SourcesEnded(node, st);
    if node.join == AllEdges && |node.inEdges| > 0 {
      assert RequiredSources(node) == node.required;
      if forall e | e in node.inEdges && e.source in node.required :: Supports(e, st) {
        forall u | u in node.required
          ensures exists e :: e in node.inEdges && e.source == u && Supports(e, st)
        {
          UpstreamMember(node, u);
        }
      }
    }
  }

  // ---------------------------------------------------------------------------
  // Single steps, in any state
  // ---------------------------------------------------------------------------

  /** A task that takes its turn runs a pending node if its join holds, skips it if it never can, and else leaves it. */
  lemma TurnFollowsJoin(d: Dag, s: Engine, n: NodeId)
    requires WellFormed(d) && Enabled(d, s, Begin(n)) && s.mem[n].status == Pending
    ensures var after := Apply(d, s, Begin(n)).mem;
            n in after && after[n] ==
            if JoinHolds(d.nodes[n], s.mem) then NodeState(Running, s.mem[n].output)
            else if SourcesEnded(d.nodes[n], s.mem) then NodeState(Skipped, Null)
            else s.mem[n]
  {
    DecisionFollowsJoin(d.nodes[n], s.mem);
    hide Decide, JoinHolds, SourcesEnded, Acyclic, Coherent;
  }

  /** An approval is opened exactly if its join holds, and skipped exactly if it never can. */
  lemma OpeningFollowsJoin(d: Dag, s: Engine, n: NodeId)
    requires WellFormed(d) && (s.stage == Boundary || Waves(s))
    requires n in d.nodes && d.nodes[n].kind == Approval && n in s.mem && s.mem[n].status == Pending
    ensures Enabled(d, s, OpenApproval(n)) <==> JoinHolds(d.nodes[n], s.mem) || SourcesEnded(d.nodes[n], s.mem)
    ensures Enabled(d, s, OpenApproval(n)) ==>
              var after := Apply(d, s, OpenApproval(n)).mem;
              n in after && after[n] == NodeState(if JoinHolds(d.nodes[n], s.mem) then Waiting else Skipped, Null)
  {
    DecisionFollowsJoin(d.nodes[n], s.mem);
    hide Decide, JoinHolds, SourcesEnded, Acyclic, Coherent;
  }

  /** A halt node has been executed. */
  ghost predicate Halted(d: Dag, st: States) {
    exists h :: h in d.nodes && h in st && d.nodes[h].kind == Halt && st[h].status == Done
  }

  /** The boundary skips a node exactly if a halt has been executed, or its join can never hold any more. */
  lemma SkippingFollowsJoin(d: Dag, s: Engine, n: NodeId)
    requires WellFormed(d) && s.stage == Boundary && n in d.nodes && n in s.mem && s.mem[n].status == Pending
    ensures Enabled(d, s, SkipNode(n)) <==>
            || Halted(d, s.mem)
            || (&& d.nodes[n].kind != Approval
                && !JoinHolds(d.nodes[n], s.mem) && SourcesEnded(d.nodes[n], s.mem))
  {
    DecisionFollowsJoin(d.nodes[n], s.mem);
    hide Decide, JoinHolds, SourcesEnded, Acyclic, Coherent;
    assert HaltTriggered(d, s.mem) <==> Halted(d, s.mem);
  }

  /** A node that is no approval could run now. */
  ghost predicate CouldRun(d: Dag, st: States, n: NodeId) {
    n in d.nodes && n in st && st[n].status == Pending && d.nodes[n].kind != Approval && JoinHolds(d.nodes[n], st)
  }

  /** A wave is every node that could run, or, if there are halt nodes among them, those only. */
  lemma WaveFollowsJoins(d: Dag, s: Engine, n: NodeId)
    requires WellFormed(d) && Enabled(d, s, Launch)
    ensures n in Apply(d, s, Launch).todo <==>
            && CouldRun(d, s.mem, n)
            && (d.nodes[n].kind == Halt || forall h | CouldRun(d, s.mem, h) :: d.nodes[h].kind != Halt)
  {
    forall m
      ensures IsReady(d, s.mem, m) <==> CouldRun(d, s.mem, m)
    {
      if m in d.nodes {
        DecisionFollowsJoin(d.nodes[m], s.mem);
      }
    }
    hide Decide, JoinHolds, Proceeds, NothingReady, IsReady, CouldRun;
    LaunchIs(d, s);
    assert forall m | CouldRun(d, s.mem, m) :: m in d.nodes by {
      CouldRunIsNode(d, s.mem);
    }
  }

  lemma CouldRunIsNode(d: Dag, st: States)
    ensures forall m | CouldRun(d, st, m) :: m in d.nodes
  {
    hide JoinHolds;
  }

  lemma LaunchIs(d: Dag, s: Engine)
    requires Enabled(d, s, Launch)
    ensures Apply(d, s, Launch).todo == set m | m in d.nodes && InNextWave(d, s.mem, m)
  {
    hide Proceeds, NothingReady, InNextWave;
  }

  // ---------------------------------------------------------------------------
  // What stays true while memory goes on
  // ---------------------------------------------------------------------------

  /** Nodes that have come to an end are as they were. */
  ghost predicate EndsKept(st: States, st': States) {
    forall m | m in st && Terminal(st[m].status) :: m in st' && st'[m] == st[m]
  }

  lemma SupportStays(e: Edge, st: States, st': States)
    requires ReadsItsSource(e) && EndsKept(st, st')
    ensures Supports(e, st) ==> Supports(e, st')
    ensures e.source in st && Terminal(st[e.source].status) ==> e.source in st' && Supports(e, st') == Supports(e, st)
  {
  }

  lemma JoinStays(node: Node, st: States, st': States)
    requires EndsKept(st, st') && forall e | e in node.inEdges :: ReadsItsSource(e)
    ensures JoinHolds(node, st) ==> JoinHolds(node, st')
    ensures SourcesEnded(node, st) ==> SourcesEnded(node, st')
    ensures SourcesEnded(node, st) && !JoinHolds(node, st) ==> !JoinHolds(node, st')
  {
    forall e | e in node.inEdges
      ensures Supports(e, st) ==> Supports(e, st')
      ensures SourcesEnded(node, st) ==> Supports(e, st') == Supports(e, st)
    {
      SupportStays(e, st, st');
    }
    hide Supports, ReadsItsSource;
  }

  /** A node stands as its join and its sources demand. */
  ghost predicate Joined(d: Dag, st: States, n: NodeId)
    requires n in d.nodes && n in st
  {
    && (st[n].status != Pending && st[n].status != Skipped ==> JoinHolds(d.nodes[n], st))
    && (st[n].status == Skipped ==>
          Halted(d, st) || (SourcesEnded(d.nodes[n], st) && !JoinHolds(d.nodes[n], st)))
  }

  ghost predicate AllJoined(d: Dag, st: States) {
    forall n | n in d.nodes && n in st :: Joined(d, st, n)
  }

  lemma HaltedStays(d: Dag, st: States, st': States)
    requires EndsKept(st, st') && Halted(d, st)
    ensures Halted(d, st')
  {
    var h :| h in d.nodes && h in st && d.nodes[h].kind == Halt && st[h].status == Done;
    assert st'[h] == st[h];
  }

  lemma JoinedStays(d: Dag, st: States, st': States, n: NodeId)
    requires n in d.nodes && n in st && n in st' && Joined(d, st, n) && EndsKept(st, st')
    requires forall e | e in d.nodes[n].inEdges :: ReadsItsSource(e)
    requires GoesOn(st[n].status, st'[n].status)
    ensures Joined(d, st', n)
  {
    JoinStays(d.nodes[n], st, st');
    hide JoinHolds, SourcesEnded, EndsKept, ReadsItsSource;
    if Halted(d, st) {
      HaltedStays(d, st, st');
    }
    hide Halted;
  }

  /** The actions by which a pending node is decided. */
  predicate Decides(a: Action, n: NodeId) {
    a == Begin(n) || a == OpenApproval(n) || a == SkipNode(n)
  }

  /** The status stays, or is one of a node that has started before and after. */
  predicate GoesOn(before: Status, after: Status) {
    || after == before
    || (before != Pending && before != Skipped && after != Pending && after != Skipped)
  }

  lemma NodeGoesOn(d: Dag, s: Engine, a: Action, n: NodeId)
    requires Frame(d, s) && NodesSafe(d, s) && Enabled(d, s, a) && a != Restore && !Decides(a, n) && n in s.mem
    ensures n in Apply(d, s, a).mem && GoesOn(s.mem[n].status, Apply(d, s, a).mem[n].status)
  {
    if a.Finish? || a.Break? {
      LiveIsRunning(d, s, a.n);
      hide Frame, NodesSafe;
      TaskGoesOn(d, s, a, n);
    } else if OnCalls(a) {
      hide Frame, NodesSafe, Apply;
      MemoryKeptOnCalls(d, s, a);
    } else {
      hide Frame, NodesSafe;
      OthersGoOn(d, s, a, n);
    }
  }

  lemma TaskGoesOn(d: Dag, s: Engine, a: Action, n: NodeId)
    requires Enabled(d, s, a) && (a.Finish? || a.Break?) && n in s.mem && s.mem[a.n].status == Running
    ensures n in Apply(d, s, a).mem && GoesOn(s.mem[n].status, Apply(d, s, a).mem[n].status)
  {
    hide Refused;
  }

  lemma OthersGoOn(d: Dag, s: Engine, a: Action, n: NodeId)
    requires Enabled(d, s, a) && !OnCalls(a) && !a.Finish? && !a.Break? && !Decides(a, n) && n in s.mem
    ensures n in Apply(d, s, a).mem && GoesOn(s.mem[n].status, Apply(d, s, a).mem[n].status)
  {
    hide Decide, HaltTriggered, ApprovalOpen, Skippable;
  }

  lemma DecidedIsJoined(d: Dag, s: Engine, a: Action, n: NodeId)
    requires WellFormed(d) && SelfConditioned(d) && Enabled(d, s, a) && Decides(a, n) && n in s.mem && n in d.nodes
    requires Joined(d, s.mem, n) && EndsKept(s.mem, Apply(d, s, a).mem)
    ensures n in Apply(d, s, a).mem && Joined(d, Apply(d, s, a).mem, n)
  {
    var t := Apply(d, s, a);
    InEdgesReadTheirSource(d, n) by { hide Acyclic; }
    if s.mem[n].status == Pending {
      DecidedHow(d, s, a, n);
      hide Apply, SelfConditioned, WellFormed, ReadsItsSource;
      JoinedFrom(d, s.mem, t.mem, n);
    } else {
      DecidedAlready(d, s, a, n);
      hide Apply, SelfConditioned, WellFormed, ReadsItsSource, Joined;
      JoinedStays(d, s.mem, t.mem, n);
    }
  }

  /** A decision taken on the states of before stands on those of after. */
  lemma JoinedFrom(d: Dag, st: States, st': States, n: NodeId)
    requires n in d.nodes && n in st && n in st' && EndsKept(st, st')
    requires forall e | e in d.nodes[n].inEdges :: ReadsItsSource(e)
    requires st'[n].status == Pending || st'[n].status == Skipped || JoinHolds(d.nodes[n], st)
    requires st'[n].status == Skipped ==> Halted(d, st) || (SourcesEnded(d.nodes[n], st) && !JoinHolds(d.nodes[n], st))
    ensures Joined(d, st', n)
  {
    JoinStays(d.nodes[n], st, st');
    hide JoinHolds, SourcesEnded, EndsKept, ReadsItsSource;
    if Halted(d, st) {
      HaltedStays(d, st, st');
    }
    hide Halted;
  }

  lemma DecidedAlready(d: Dag, s: Engine, a: Action, n: NodeId)
    requires Enabled(d, s, a) && Decides(a, n) && n in s.mem && s.mem[n].status != Pending
    ensures Apply(d, s, a).mem == s.mem
  {
    hide Decide, HaltTriggered;
  }

  lemma DecidedHow(d: Dag, s: Engine, a: Action, n: NodeId)
    requires WellFormed(d) && Enabled(d, s, a) && Decides(a, n) && n in s.mem && n in d.nodes
    requires s.mem[n].status == Pending
    ensures var after := Apply(d, s, a).mem;
            && n in after
            && (after[n].status == Pending || after[n].status == Skipped || JoinHolds(d.nodes[n], s.mem))
            && (after[n].status == Skipped ==>
                  || Halted(d, s.mem)
                  || (SourcesEnded(d.nodes[n], s.mem) && !JoinHolds(d.nodes[n], s.mem)))
  {
    hide WellFormed, JoinHolds, SourcesEnded, Decide;
    match a
    case Begin(_) => TurnFollowsJoin(d, s, n);
    case OpenApproval(_) => OpeningFollowsJoin(d, s, n);
    case SkipNode(_) => SkippingFollowsJoin(d, s, n);
  }

  lemma JoinedStep(d: Dag, s: Engine, a: Action)
    requires WellFormed(d) && SelfConditioned(d) && Safe(d, s) && Enabled(d, s, a) && a != Restore
    requires AllJoined(d, s.mem)
    ensures AllJoined(d, Apply(d, s, a).mem)
  {
    var t := Apply(d, s, a);
    FrameKeys(d, s);
    SafeStep(d, s, a);
    FrameKeys(d, t);
    hide Apply, Enabled, Frame, NodesSafe, DoneIsFinal, Joined, Decides, ReadsItsSource;
    forall m | m in s.mem && Terminal(s.mem[m].status)
      ensures m in t.mem && t.mem[m] == s.mem[m]
    {
      EndStays(d, s, a, m);
    }
    forall n | n in d.nodes
      ensures n in t.mem && Joined(d, t.mem, n)
    {
      hide EndsKept;
      if Decides(a, n) {
        DecidedIsJoined(d, s, a, n);
      } else {
        NodeGoesOn(d, s, a, n);
        InEdgesReadTheirSource(d, n) by { hide Acyclic; }
        JoinedStays(d, s.mem, t.mem, n);
      }
    }
  }

  // ---------------------------------------------------------------------------
  // Restarts
  // ---------------------------------------------------------------------------

  /** A checkpoint of states with nothing outstanding leaves every node as its join demands. */
  lemma CheckpointIsJoined(d: Dag, s: Engine)
    requires WellFormed(d) && SelfConditioned(d) && Safe(d, s) && s.stage != Down && s.dirty == {}
    requires AllJoined(d, s.mem)
    ensures AllJoined(d, Restored(d, s.rows))
  {
    var st' := Restored(d, s.rows);
    FrameKeys(d, s);
    forall n | n in d.nodes
      ensures n in s.mem && n in st'
      ensures Terminal(s.mem[n].status) ==> st'[n] == s.mem[n]
      ensures st'[n].status == Pending || GoesOn(s.mem[n].status, st'[n].status)
    {
      CheckpointOf(d, s, n);
    }
    forall n | n in d.nodes
      ensures Joined(d, st', n)
    {
      InEdgesReadTheirSource(d, n) by { hide Acyclic; }
      hide WellFormed, SelfConditioned, Safe, Restored, ReadsItsSource, Joined;
      JoinedAgain(d, s.mem, st', n);
    }
  }

  lemma CheckpointOf(d: Dag, s: Engine, n: NodeId)
    requires Safe(d, s) && s.stage != Down && s.dirty == {} && n in d.nodes
    ensures n in s.mem
    ensures Terminal(s.mem[n].status) ==> Restored(d, s.rows)[n] == s.mem[n]
    ensures Restored(d, s.rows)[n].status == Pending || GoesOn(s.mem[n].status, Restored(d, s.rows)[n].status)
  {
    SafeCheckpoint(d, s, n);
    hide Safe, Restored;
    if JudgedElsewhere(s, n) && Restored(d, s.rows)[n] != s.mem[n] {
      JudgedIsKept(d, s, n);
    }
  }

  lemma JudgedIsKept(d: Dag, s: Engine, n: NodeId)
    requires JudgedElsewhere(s, n) && n in d.nodes
    ensures GoesOn(s.mem[n].status, Restored(d, s.rows)[n].status) && !Terminal(s.mem[n].status)
  {
  }

  lemma JoinedAgain(d: Dag, st: States, st': States, n: NodeId)
    requires n in d.nodes && n in st && n in st' && Joined(d, st, n) && EndsKept(st, st')
    requires forall e | e in d.nodes[n].inEdges :: ReadsItsSource(e)
    requires st'[n].status == Pending || GoesOn(st[n].status, st'[n].status)
    ensures Joined(d, st', n)
  {
    if st'[n].status != Pending {
      hide JoinHolds, SourcesEnded, EndsKept, ReadsItsSource, Joined;
      JoinedStays(d, st, st', n);
    }
  }

  /** While no executor is there, judged rows may be written. */
  lemma RowsStayJoined(d: Dag, s: Engine, a: Action)
    requires WellFormed(d) && SelfConditioned(d) && Enabled(d, s, a) && s.stage == Down && a != Restore
    requires AllJoined(d, Restored(d, s.rows))
    ensures AllJoined(d, Restored(d, Apply(d, s, a).rows))
  {
    var st, st' := Restored(d, s.rows), Restored(d, Apply(d, s, a).rows);
    forall n | n in d.nodes
      ensures Terminal(st[n].status) ==> st'[n] == st[n]
      ensures GoesOn(st[n].status, st'[n].status)
    {
      RowAsleep(d, s, a, n);
    }
    forall n | n in d.nodes
      ensures Joined(d, st', n)
    {
      InEdgesReadTheirSource(d, n) by { hide Acyclic; }
      hide WellFormed, SelfConditioned, Restored, ReadsItsSource, Joined, Apply, Enabled;
      JoinedStays(d, st, st', n);
    }
  }

  lemma RowAsleep(d: Dag, s: Engine, a: Action, n: NodeId)
    requires Enabled(d, s, a) && s.stage == Down && a != Restore && n in d.nodes
    ensures var st, st' := Restored(d, s.rows), Restored(d, Apply(d, s, a).rows);
            && (Terminal(st[n].status) ==> st'[n] == st[n]) && GoesOn(st[n].status, st'[n].status)
  {
    if !a.WriteVerdict? {
      RowsAreLeft(d, s, a);
    }
  }

  lemma RowsAreLeft(d: Dag, s: Engine, a: Action)
    requires Enabled(d, s, a) && s.stage == Down && a != Restore && !a.WriteVerdict?
    ensures Apply(d, s, a).rows == s.rows
  {
    hide Decide, HaltTriggered, ApprovalOpen, Skippable, Refused, Settled, Outcome;
  }

  /** Memory is as the joins demand; without an executor, what a restart would make of the rows is. */
  ghost predicate Sound(d: Dag, s: Engine) {
    AllJoined(d, if s.stage == Down then Restored(d, s.rows) else s.mem)
  }

  /** No crash and no restart loses a write that is outstanding. */
  ghost predicate LosesNothing(d: Dag, s: Engine, acts: seq<Action>)
    requires Valid(d, s, acts)
    decreases |acts|
  {
    acts == [] ||
    ((acts[0] == Crash || acts[0] == Restore ==> s.stage == Down || s.dirty == {}) &&
     LosesNothing(d, Apply(d, s, acts[0]), acts[1..]))
  }

  lemma CrashAndRestart(d: Dag, s: Engine)
    ensures Enabled(d, s, Crash) && Apply(d, s, Crash).stage == Down && Apply(d, s, Crash).rows == s.rows
    ensures Enabled(d, s, Restore) ==>
              Apply(d, s, Restore).stage != Down && Apply(d, s, Restore).mem == Restored(d, s.rows)
  {
    hide Restored;
  }

  /** Otherwise a live executor stays alive. */
  lemma StaysUp(d: Dag, s: Engine, a: Action)
    requires Frame(d, s) && Enabled(d, s, a) && a != Crash && s.stage != Down
    ensures Apply(d, s, a).stage != Down
  {
    if a.Switch? {
      assert LoopsOk(d, s);
    } else if OnCalls(a) {
      hide Frame, Settled, RejectionAborts, SomeWaiting, InNextWave, AllTerminal, Parked, Restored;
    } else {
      hide Frame, Apply, Enabled;
      StageKept(d, s, a);
    }
  }

  lemma SoundStep(d: Dag, s: Engine, a: Action)
    requires WellFormed(d) && SelfConditioned(d) && Safe(d, s) && Sound(d, s) && Enabled(d, s, a)
    requires a == Crash || a == Restore ==> s.stage == Down || s.dirty == {}
    ensures Sound(d, Apply(d, s, a))
  {
    if s.stage != Down && a != Crash {
      StaysUp(d, s, a);
    }
    hide WellFormed, SelfConditioned, Safe, AllJoined, Apply, Enabled, Restored;
    CrashAndRestart(d, s);
    if s.stage == Down {
      if a != Restore {
        StaysDown(d, s, a);
        RowsStayJoined(d, s, a);
      }
    } else if a == Crash || a == Restore {
      CheckpointIsJoined(d, s);
    } else {
      JoinedStep(d, s, a);
    }
  }

  lemma StaysDown(d: Dag, s: Engine, a: Action)
    requires Enabled(d, s, a) && s.stage == Down && a != Restore
    ensures Apply(d, s, a).stage == Down
  {
    hide Decide, HaltTriggered, ApprovalOpen, Skippable, Refused, Settled, Outcome;
  }

  lemma {:induction false} SoundRun(d: Dag, s: Engine, acts: seq<Action>)
    requires WellFormed(d) && SelfConditioned(d) && Safe(d, s) && Sound(d, s)
    requires Valid(d, s, acts) && LosesNothing(d, s, acts)
    ensures Sound(d, Exec(d, s, acts))
    decreases |acts|
  {
    hide WellFormed, SelfConditioned, Safe, Sound, Apply, Enabled;
    if acts != [] {
      SafeStep(d, s, acts[0]);
      SoundStep(d, s, acts[0]);
      SoundRun(d, Apply(d, s, acts[0]), acts[1..]);
    }
  }

  // ---------------------------------------------------------------------------
  // Whole runs
  // ---------------------------------------------------------------------------

  /**
   Over any interleaving, overlapping calls, failures, crashes and restarts included, as long as no crash
   loses a write that is outstanding: every node that has started has its join satisfied, every required
   source of an `all` join, one source of an `any` join, by the statuses and outputs as they stand; and
   every skipped node has all its sources ended and its join unsatisfied, a halt apart.
   */
  lemma StartedNodesAreJoined(d: Dag, acts: seq<Action>, n: NodeId)
    requires WellFormed(d) && SelfConditioned(d) && Valid(d, Init(d), acts) && LosesNothing(d, Init(d), acts)
    requires n in d.nodes && Exec(d, Init(d), acts).stage != Down
    ensures var st := Exec(d, Init(d), acts).mem;
            && n in st
            && (st[n].status != Pending && st[n].status != Skipped ==> JoinHolds(d.nodes[n], st))
            && (st[n].status == Skipped && !Halted(d, st) ==>
                  SourcesEnded(d.nodes[n], st) && !JoinHolds(d.nodes[n], st))
  {
    StartIsJoined(d);
    hide JoinHolds, SourcesEnded, Halted, Safe, WellFormed, SelfConditioned;
    SoundRun(d, Init(d), acts);
    SafeRun(d, Init(d), acts);
    EveryNodeIsInMemory(d, Exec(d, Init(d), acts), n);
    assert Joined(d, Exec(d, Init(d), acts).mem, n);
  }

  lemma StartIsJoined(d: Dag)
    ensures Safe(d, Init(d)) && AllJoined(d, Init(d).mem)
  {
    hide JoinHolds, SourcesEnded, Halted;
  }

  lemma EveryNodeIsInMemory(d: Dag, s: Engine, n: NodeId)
    requires Safe(d, s) && n in d.nodes
    ensures n in s.mem
  {
  }

  ghost predicate RunningJoined(d: Dag, s: Engine) {
    s.stage != Down ==>
      forall n | n in d.nodes && n in s.mem && s.mem[n].status == Running :: JoinHolds(d.nodes[n], s.mem)
  }

  /** What is running after a step was running before, or its task has just taken its turn. */
  lemma RunningComes(d: Dag, s: Engine, a: Action, n: NodeId)
    requires Enabled(d, s, a) && n in Apply(d, s, a).mem && Apply(d, s, a).mem[n].status == Running
    ensures a != Restore && n in s.mem
    ensures s.mem[n].status == Running || (a == Begin(n) && s.mem[n].status == Pending)
  {
    if OnCalls(a) {
      if a == Restore {
        hide Enabled;
      } else {
        hide Apply;
        MemoryKeptOnCalls(d, s, a);
      }
    } else {
      hide Decide, HaltTriggered, ApprovalOpen, Skippable, Refused;
    }
  }

  lemma RunningJoinedStep(d: Dag, s: Engine, a: Action)
    requires WellFormed(d) && SelfConditioned(d) && Safe(d, s) && RunningJoined(d, s) && Enabled(d, s, a)
    ensures RunningJoined(d, Apply(d, s, a))
  {
    var t := Apply(d, s, a);
    FrameKeys(d, s);
    if t.stage != Down {
      forall n | n in d.nodes && n in t.mem && t.mem[n].status == Running
        ensures JoinHolds(d.nodes[n], t.mem)
      {
        RunningComes(d, s, a, n);
        OnlyARestartIsUp(d, s, a);
        hide Apply, Enabled, Frame, NodesSafe, DoneIsFinal, JoinHolds, SelfConditioned, ReadsItsSource;
        forall m | m in s.mem && Terminal(s.mem[m].status)
          ensures m in t.mem && t.mem[m] == s.mem[m]
        {
          EndStays(d, s, a, m);
        }
        InEdgesReadTheirSource(d, n) by { hide Acyclic; }
        hide WellFormed;
        JoinStays(d.nodes[n], s.mem, t.mem);
        if a == Begin(n) && s.mem[n].status == Pending {
          TurnFollowsJoin(d, s, n);
        }
      }
    }
  }

  lemma OnlyARestartIsUp(d: Dag, s: Engine, a: Action)
    requires Enabled(d, s, a) && a != Restore && Apply(d, s, a).stage != Down
    ensures s.stage != Down
  {
    hide Decide, HaltTriggered, ApprovalOpen, Skippable, Refused, Settled, Outcome;
  }

  lemma {:induction false} RunningJoinedRun(d: Dag, s: Engine, acts: seq<Action>)
    requires WellFormed(d) && SelfConditioned(d) && Safe(d, s) && RunningJoined(d, s) && Valid(d, s, acts)
    ensures RunningJoined(d, Exec(d, s, acts))
    decreases |acts|
  {
    hide WellFormed, SelfConditioned, Safe, RunningJoined, Apply, Enabled;
    if acts != [] {
      SafeStep(d, s, acts[0]);
      RunningJoinedStep(d, s, acts[0]);
      RunningJoinedRun(d, Apply(d, s, acts[0]), acts[1..]);
    }
  }

  /**
   In every state that a run can be in, crashes and restarts included, a node that is running has its join
   satisfied.
   */
  lemma RunningNodesAreJoined(d: Dag, s: Engine, n: NodeId)
    requires WellFormed(d) && SelfConditioned(d) && Reachable(d, s) && s.stage != Down
    requires n in d.nodes && n in s.mem && s.mem[n].status == Running
    ensures JoinHolds(d.nodes[n], s.mem)
  {
    var acts :| Valid(d, Init(d), acts) && Exec(d, Init(d), acts) == s;
    StartIsJoined(d);
    assert RunningJoined(d, Init(d)) by { hide JoinHolds; }
    hide JoinHolds, Safe, WellFormed, SelfConditioned;
    RunningJoinedRun(d, Init(d), acts);
  }

  /** In the solution a node is not skipped exactly if it is ready. */
  lemma SolutionSkips(d: Dag, w: World, f: States, n: NodeId)
    requires Covers(w, d) && Solves(d, w, f) && n in d.nodes
    ensures n in f && (f[n].status != Skipped <==> Decide(d.nodes[n], f) == Ready)
  {
    hide Decide;
    assert f[n] == Evaluate(d, w, f, n);
  }

  /**
   A run of a halt-free graph that ends done, over any crashes and restarts: exactly the nodes whose join is
   satisfied by how the run has ended have run, and all others are skipped.
   */
  lemma DoneRunsObeyJoins(d: Dag, w: World, acts: seq<Action>, n: NodeId)
    requires WellFormed(d) && HaltFree(d) && SelfConditioned(d) && Covers(w, d) && n in d.nodes
    requires Valid(d, Init(d), acts) && AllScripted(w, acts) && Exec(d, Init(d), acts).stage == Stopped(DoneRun)
    ensures var final := Exec(d, Init(d), acts).mem;
            n in final && (final[n].status != Skipped <==> JoinHolds(d.nodes[n], final))
  {
    var f := SolutionExists(d, w);
    var s := Exec(d, Init(d), acts);
    StartIsOnCourse(d, w, f);
    OnCourseRun(d, w, f, Init(d), acts);
    hide Exec, Valid, AllScripted, Safe, Solves, SelfConditioned, HaltFree, Evaluate;
    DoneStateObeysJoins(d, w, f, s, n);
  }

  lemma DoneStateObeysJoins(d: Dag, w: World, f: States, s: Engine, n: NodeId)
    requires Setting(d, w, f) && Safe(d, s) && OnCourse(d, w, f, s) && s.stage == Stopped(DoneRun) && n in d.nodes
    ensures n in s.mem && (s.mem[n].status != Skipped <==> JoinHolds(d.nodes[n], s.mem))
  {
    FrameKeys(d, s);
    assert AllTerminal(s.mem);
    var node := d.nodes[n];
    assert JoinConsistent(node) && ClosedEdges(d.nodes.Keys, d.edges) by { hide Acyclic; }
    SolutionSkips(d, w, f, n);
    TerminalAgrees(d, f, s.mem);
    AllSourcesEnded(d, s.mem, n) by { hide Acyclic; }
    DecisionFollowsJoin(node, s.mem);
    hide Decide, JoinHolds, SourcesEnded, Acyclic, SelfConditioned, Solves, RowAgrees, Safe, Similar;
    DecisionAgrees(d, f, s.mem, n);
  }

  lemma AllSourcesEnded(d: Dag, st: States, n: NodeId)
    requires Coherent(d) && n in d.nodes && st.Keys == d.nodes.Keys && AllTerminal(st)
    ensures SourcesEnded(d.nodes[n], st)
  {
    forall e | e in d.nodes[n].inEdges
      ensures e.source in d.nodes
    {
      InEdgesOf(d, n, e);
    }
  }

  /**
   In every state that a run of a halt-free graph can be in, crashes and restarts included: a skipped node does
   not have its join satisfied, so with one active in-edge a node with an `any` join is never skipped.
   */
  lemma SkippedNodesAreNotJoined(d: Dag, w: World, acts: seq<Action>, n: NodeId)
    requires WellFormed(d) && HaltFree(d) && SelfConditioned(d) && Covers(w, d) && n in d.nodes
    requires Valid(d, Init(d), acts) && AllScripted(w, acts)
    ensures var st := Exec(d, Init(d), acts).mem;
            n in st && (st[n].status == Skipped ==> !JoinHolds(d.nodes[n], st))
  {
    var f := SolutionExists(d, w);
    var s := Exec(d, Init(d), acts);
    StartIsOnCourse(d, w, f);
    OnCourseRun(d, w, f, Init(d), acts);
    FrameKeys(d, s);
    if JoinHolds(d.nodes[n], s.mem) {
      assert JoinConsistent(d.nodes[n]) by { hide Acyclic; }
      DecisionFollowsJoin(d.nodes[n], s.mem);
      SolutionSkips(d, w, f, n);
      assert Coherent(d) by { hide Acyclic; }
      hide Decide, JoinHolds, SourcesEnded, WellFormed, SelfConditioned, Solves;
      hide Safe, Similar, Exec, Valid, AllScripted;
      DecisionAgrees(d, f, s.mem, n);
      assert RowAgrees(d, f, n, s.mem[n]);
    }
  }
}
