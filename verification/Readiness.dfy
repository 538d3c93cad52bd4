/**
 Ready nodes stay ready: a node that a wave has launched and that waits for its turn may still run when
 its turn comes, whatever happens in between, provided that conditions read their own source.
 */
module Readiness {
  import opened Dags
  import opened States
  import opened Evaluation
  import opened Runs
  import opened RunSafety
  import opened RunTheorems

  /** Some call of `run` has launched the node, and the node's task has not had its turn. */
  predicate Launched(s: Engine, n: NodeId) {
    n in s.todo || exists l | l in s.aside :: n in l.todo
  }

  ghost predicate LaunchedAreReady(d: Dag, s: Engine) {
    forall n | Launched(s, n) :: n in d.nodes && Decide(d.nodes[n], s.mem) == Ready
  }

  // ---------------------------------------------------------------------------
  // Decisions
  // ---------------------------------------------------------------------------

  /** Nodes that have left an output behind are as they were. */
  ghost predicate ProducedKept(st: States, st': States) {
    forall m | m in st && Produced(st[m].status) :: m in st' && st'[m] == st[m]
  }

  predicate ReadsItsSource(e: Edge) {
    e.when.Some? ==> e.when.value.node == e.source
  }

  lemma EdgeStaysActive(e: Edge, st: States, st': States)
    requires ReadsItsSource(e) && ProducedKept(st, st') && EdgeActive(e, st)
    ensures EdgeActive(e, st')
  {
  }

  lemma ReadyStays(node: Node, st: States, st': States)
    requires ProducedKept(st, st') && Decide(node, st) == Ready && forall e | e in node.inEdges :: ReadsItsSource(e)
    ensures Decide(node, st') == Ready
  {
    forall e | e in node.inEdges && EdgeActive(e, st)
      ensures EdgeActive(e, st')
    {
      EdgeStaysActive(e, st, st');
    }
    hide EdgeActive, ReadsItsSource, ProducedKept;
  }

  lemma InEdgesReadTheirSource(d: Dag, n: NodeId)
    requires Coherent(d) && SelfConditioned(d) && n in d.nodes
    ensures forall e | e in d.nodes[n].inEdges :: ReadsItsSource(e)
  {
    forall e | e in d.nodes[n].inEdges
      ensures ReadsItsSource(e)
    {
      InEdgesOf(d, n, e);
      assert e in d.edges && (e.when.Some? ==> OwnCondition(d, e));
    }
  }

  // ---------------------------------------------------------------------------
  // Steps
  // ---------------------------------------------------------------------------

  lemma MemoryKeptOnCalls(d: Dag, s: Engine, a: Action)
    requires Enabled(d, s, a) && OnCalls(a) && a != Restore
    ensures Apply(d, s, a).mem == s.mem
  {
    hide Enabled, Parked, InNextWave, Restored;
  }

  lemma LiveIsRunning(d: Dag, s: Engine, m: NodeId)
    requires Frame(d, s) && NodesSafe(d, s) && s.stage != Down && m in s.live && m in d.nodes
    ensures m in s.mem && s.mem[m].status == Running
  {
    assert NodeSafe(d.nodes[m], s.stage, ViewOf(s, m));
    hide Honest, RowTracks, LoopsOk, Manned;
  }

  lemma EndStaysOnNodes(d: Dag, s: Engine, a: Action, m: NodeId)
    requires Enabled(d, s, a) && !OnCalls(a) && m in s.mem && Terminal(s.mem[m].status)
    requires a.Finish? || a.Break? ==> s.mem[a.n].status == Running
    ensures m in Apply(d, s, a).mem && Apply(d, s, a).mem[m] == s.mem[m]
  {
    hide Decide, Refused, HaltTriggered, Outcome;
  }

  /** Nothing but a restart changes the state of a node that has come to its end. */
  lemma EndStays(d: Dag, s: Engine, a: Action, m: NodeId)
    requires Frame(d, s) && NodesSafe(d, s) && Enabled(d, s, a) && a != Restore
    requires m in s.mem && Terminal(s.mem[m].status)
    ensures m in Apply(d, s, a).mem && Apply(d, s, a).mem[m] == s.mem[m]
  {
    if a.Finish? || a.Break? {
      LiveIsRunning(d, s, a.n);
    }
    hide Frame, NodesSafe, Apply, Decide, Settled, Proceeds, NothingReady;
    if OnCalls(a) {
      MemoryKeptOnCalls(d, s, a);
    } else {
      EndStaysOnNodes(d, s, a, m);
    }
  }

  lemma LaunchedBeside(d: Dag, s: Engine, a: Action, n: NodeId)
    requires Enabled(d, s, a) && (a.Rerun? || a.Switch?) && Launched(Apply(d, s, a), n)
    ensures Launched(s, n)
  {
    hide Parked;
    var t := Apply(d, s, a);
    if n !in t.todo {
      var l :| l in t.aside && n in l.todo;
      ParkedLoops(s, l);
    }
  }

  lemma LaunchedShrink(d: Dag, s: Engine, a: Action, n: NodeId)
    requires Enabled(d, s, a) && a != Launch && a != Restore && Launched(Apply(d, s, a), n)
    ensures Launched(s, n)
  {
    if a.Rerun? || a.Switch? {
      LaunchedBeside(d, s, a, n);
    } else {
      hide Refused, Decide, Settled, RejectionAborts, InNextWave, HaltTriggered, Restored, Outcome, Parked;
      hide Proceeds, NothingReady, AllTerminal, SomeWaiting, AllReturned, ApprovalOpen, Skippable;
    }
  }

  lemma LaunchLaunchesReady(d: Dag, s: Engine, n: NodeId)
    requires Enabled(d, s, Launch) && Launched(Apply(d, s, Launch), n)
    ensures Launched(s, n) || (n in d.nodes && Decide(d.nodes[n], s.mem) == Ready)
    ensures Apply(d, s, Launch).mem == s.mem
  {
    hide Decide, Proceeds, NothingReady;
  }

  lemma RestoredHasNoneLaunched(d: Dag, s: Engine, n: NodeId)
    requires Enabled(d, s, Restore)
    ensures !Launched(Apply(d, s, Restore), n)
  {
  }

  lemma LaunchedAreReadyStep(d: Dag, s: Engine, a: Action)
    requires Coherent(d) && SelfConditioned(d)
    requires Frame(d, s) && NodesSafe(d, s) && LaunchedAreReady(d, s) && Enabled(d, s, a)
    ensures LaunchedAreReady(d, Apply(d, s, a))
  {
    var t := Apply(d, s, a);
    hide Apply, Enabled, Launched, Decide, Frame, NodesSafe, Coherent, SelfConditioned;
    forall n | Launched(t, n)
      ensures n in d.nodes && Decide(d.nodes[n], t.mem) == Ready
    {
      if a == Launch {
        LaunchLaunchesReady(d, s, n);
      } else if a == Restore {
        RestoredHasNoneLaunched(d, s, n);
      } else {
        LaunchedShrink(d, s, a, n);
        forall m | m in s.mem && Produced(s.mem[m].status)
          ensures m in t.mem && t.mem[m] == s.mem[m]
        {
          EndStays(d, s, a, m);
        }
        InEdgesReadTheirSource(d, n);
        ReadyStays(d.nodes[n], s.mem, t.mem);
      }
    }
  }

  lemma {:induction false} LaunchedAreReadyRun(d: Dag, s: Engine, acts: seq<Action>)
    requires Coherent(d) && SelfConditioned(d) && Safe(d, s) && LaunchedAreReady(d, s) && Valid(d, s, acts)
    ensures LaunchedAreReady(d, Exec(d, s, acts))
    decreases |acts|
  {
    hide Apply, Enabled, LaunchedAreReady, Frame, NodesSafe, DoneIsFinal, Coherent, SelfConditioned;
    if acts != [] {
      SafeStep(d, s, acts[0]);
      LaunchedAreReadyStep(d, s, acts[0]);
      LaunchedAreReadyRun(d, Apply(d, s, acts[0]), acts[1..]);
    }
  }

  // ---------------------------------------------------------------------------
  // The theorem
  // ---------------------------------------------------------------------------

  /**
   In every state that a run can be in, overlapping calls, failures, crashes and restarts included, a node
   that has been launched and not begun is ready; if it is still pending when its turn comes, it runs.
   */
  lemma ReadyUntilExecuted(d: Dag, s: Engine, n: NodeId)
    requires WellFormed(d) && SelfConditioned(d) && Reachable(d, s) && Launched(s, n)
    ensures n in d.nodes && Decide(d.nodes[n], s.mem) == Ready
    ensures Enabled(d, s, Begin(n)) ==>
              Apply(d, s, Begin(n)).mem[n].status ==
              if s.mem[n].status == Pending then Running else s.mem[n].status
  {
    var acts :| Valid(d, Init(d), acts) && Exec(d, Init(d), acts) == s;
    assert Coherent(d) by { hide Acyclic; }
    StartIsSafe(d);
    hide WellFormed, Coherent, Decide, Safe, Reachable;
    LaunchedAreReadyRun(d, Init(d), acts);
  }

  lemma StartIsSafe(d: Dag)
    ensures Safe(d, Init(d)) && LaunchedAreReady(d, Init(d))
  {
    hide Decide;
  }
}
