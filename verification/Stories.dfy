/**
 Whole runs that show what overlapping calls of `run` may do: one that stalls, and one that lets an agent
 start beside a halt and after it.
 */
module Stories {
  import opened Values
  import opened Dags
  import opened States
  import opened Evaluation
  import opened Runs
  import opened Confluence
  import opened Passes

  // ---------------------------------------------------------------------------
  // Telling a run
  // ---------------------------------------------------------------------------

  /** Some run from the start that follows the world's script comes to this state. */
  ghost predicate Happens(d: Dag, w: World, s: Engine) {
    exists acts :: Valid(d, Init(d), acts) && AllScripted(w, acts) && Exec(d, Init(d), acts) == s
  }

  lemma HappensFirst(d: Dag, w: World)
    ensures Happens(d, w, Init(d))
  {
    assert Valid(d, Init(d), []) && AllScripted(w, []) && Exec(d, Init(d), []) == Init(d);
  }

  lemma HappensNext(d: Dag, w: World, s: Engine, a: Action)
    requires Happens(d, w, s) && Enabled(d, s, a) && Scripted(w, a)
    ensures Happens(d, w, Apply(d, s, a))
  {
    hide Enabled, Apply, Scripted;
    var acts :| Valid(d, Init(d), acts) && AllScripted(w, acts) && Exec(d, Init(d), acts) == s;
    ExecSnoc(d, Init(d), acts, a);
    assert AllScripted(w, acts + [a]);
  }

  lemma HappensIsReachable(d: Dag, w: World, s: Engine)
    requires Happens(d, w, s)
    ensures Reachable(d, s)
  {
    var acts :| Valid(d, Init(d), acts) && AllScripted(w, acts) && Exec(d, Init(d), acts) == s;
  }

  lemma Opens(d: Dag, w: World, s: Engine, n: NodeId)
    requires Happens(d, w, s) && Clean(s) && (s.stage == Boundary || Waves(s)) && ApprovalOpen(d, s.mem, n)
    ensures Happens(d, w, Stored(s, n, Opened(d, s.mem, n)))
  {
    hide Happens, Decide;
    HappensNext(d, w, s, OpenApproval(n));
    var t := Apply(d, s, OpenApproval(n));
    HappensNext(d, w, t, Persist(n));
    assert Apply(d, t, Persist(n)) == Stored(s, n, Opened(d, s.mem, n));
  }

  lemma Skips(d: Dag, w: World, s: Engine, n: NodeId)
    requires Happens(d, w, s) && Clean(s) && s.stage == Boundary && Skippable(d, s.mem, n)
    ensures Happens(d, w, Stored(s, n, SKIP))
  {
    hide Happens, Decide;
    HappensNext(d, w, s, SkipNode(n));
    var t := Apply(d, s, SkipNode(n));
    HappensNext(d, w, t, Persist(n));
    assert Apply(d, t, Persist(n)) == Stored(s, n, SKIP);
  }

  lemma Launches(d: Dag, w: World, s: Engine, wave: set<NodeId>, n: NodeId)
    requires Happens(d, w, s) && Proceeds(d, s) && n in wave
    requires forall m :: m in wave <==> m in d.nodes && InNextWave(d, s.mem, m)
    ensures Happens(d, w, s.(stage := Wave, todo := wave))
  {
    hide Happens, Proceeds, InNextWave;
    assert !NothingReady(d, s);
    HappensNext(d, w, s, Launch);
    assert wave == set m | m in d.nodes && InNextWave(d, s.mem, m);
  }

  lemma Begins(d: Dag, w: World, s: Engine, n: NodeId)
    requires Happens(d, w, s) && Clean(s) && Enabled(d, s, Begin(n))
    requires s.mem[n] == FRESH && Decide(d.nodes[n], s.mem) == Ready
    ensures Happens(d, w,
            Stored(s.(todo := s.todo - {n}, live := s.live + {n}, mine := s.mine + {n}), n, NodeState(Running, Null)))
  {
    hide Happens, Decide;
    HappensNext(d, w, s, Begin(n));
    var t := Apply(d, s, Begin(n));
    HappensNext(d, w, t, Persist(n));
    assert Apply(d, t, Persist(n)) ==
           Stored(s.(todo := s.todo - {n}, live := s.live + {n}, mine := s.mine + {n}), n, NodeState(Running, Null));
  }

  lemma Ends(d: Dag, w: World, s: Engine, n: NodeId)
    requires Happens(d, w, s) && Clean(s) && n in w.outputs && Enabled(d, s, Finish(n, w.outputs[n]))
    requires !Refused(d.nodes[n], w.outputs[n])
    ensures Happens(d, w, Stored(s.(live := s.live - {n}, mine := s.mine - {n}), n, NodeState(Done, w.outputs[n])))
  {
    hide Happens, Refused;
    HappensNext(d, w, s, Finish(n, w.outputs[n]));
    var t := Apply(d, s, Finish(n, w.outputs[n]));
    HappensNext(d, w, t, Persist(n));
    assert Apply(d, t, Persist(n)) ==
           Stored(s.(live := s.live - {n}, mine := s.mine - {n}), n, NodeState(Done, w.outputs[n]));
  }

  /** An approval is judged, taken in memory and written. */
  lemma IsJudged(d: Dag, w: World, s: Engine, n: NodeId)
    requires Happens(d, w, s) && Clean(s) && s.stage != Down && n in w.verdicts && n !in s.verdicts
    requires n in s.mem && s.mem[n].status == Waiting && n in s.rows && s.rows[n].status == Waiting
    ensures Happens(d, w, Stored(s, n, Outcome(w.verdicts[n], Null)).(verdicts := s.verdicts[n := w.verdicts[n]]))
  {
    hide Happens, Outcome;
    HappensNext(d, w, s, Judge(n, w.verdicts[n]));
    var t := Apply(d, s, Judge(n, w.verdicts[n]));
    HappensNext(d, w, t, TakeVerdict(n, Null));
    var u := Apply(d, t, TakeVerdict(n, Null));
    HappensNext(d, w, u, Persist(n));
    assert Apply(d, u, Persist(n)) ==
           Stored(s, n, Outcome(w.verdicts[n], Null)).(verdicts := s.verdicts[n := w.verdicts[n]]);
  }

  lemma EndsWave(d: Dag, w: World, s: Engine)
    requires Happens(d, w, s) && Enabled(d, s, EndWave)
    ensures Happens(d, w, s.(stage := Boundary))
  {
    hide Happens;
    HappensNext(d, w, s, EndWave);
  }

  /** `run` is called again although the call under way is still in its wave. */
  lemma IsCalledAgain(d: Dag, w: World, s: Engine)
    requires Happens(d, w, s) && s.stage == Wave
    ensures Happens(d, w, s.(stage := Boundary, todo := {}, mine := {}, aside := s.aside + multiset{Current(s)}))
  {
    hide Happens;
    HappensNext(d, w, s, Rerun);
  }

  lemma TakesTurns(d: Dag, w: World, s: Engine, l: Loop)
    requires Happens(d, w, s) && s.stage == Wave && s.aside == multiset{l}
    ensures Happens(d, w, s.(stage := l.stage, todo := l.todo, mine := l.mine, aside := multiset{Current(s)}))
  {
    hide Happens;
    HappensNext(d, w, s, Switch(l));
    assert multiset{l} + multiset{Current(s)} - multiset{l} == multiset{Current(s)};
  }

  // ---------------------------------------------------------------------------
  // Deciding nodes with one in-edge
  // ---------------------------------------------------------------------------

  lemma DecideSingle(node: Node, e: Edge, st: States)
    requires node.inEdges == [e] && node.join == AnyEdge
    ensures Decide(node, st) ==
            if EdgeActive(e, st) then Ready
            else if e.source in st && Terminal(st[e.source].status) then Skip else Blocked
  {
    assert e in node.inEdges && forall f | f in node.inEdges :: f == e;
  }

  function Plain(kind: Kind, inEdges: seq<Edge>): Node {
    Node(kind, "", AnyEdge, [], None, false, Null, inEdges)
  }

  lemma RootIsReady(kind: Kind, st: States)
    ensures Decide(Plain(kind, []), st) == Ready
  {
  }

  // ---------------------------------------------------------------------------
  // The graph: two roots, an agent A and an approval P, and behind them C and a halt H
  // ---------------------------------------------------------------------------

  const TO_HALT := Edge("P", "H", Some(Cond("P", ["approved"], false, Bool(false))))
  const TO_AGENT := Edge("A", "C", None)
  const TWO_ROOTS := Dag(
    ["A", "P", "H", "C"],
    map["A" := Plain(Agent, []), "P" := Plain(Approval, []), "H" := Plain(Halt, [TO_HALT]),
      "C" := Plain(Agent, [TO_AGENT])],
    [TO_HALT, TO_AGENT])

  lemma TwoRootsIsLoaded()
    ensures WellFormed(TWO_ROOTS) && SelfConditioned(TWO_ROOTS)
  {
    TwoRootsIsCoherent();
    hide Coherent, Acyclic, EdgesInto;
    RankedIsAcyclic(TWO_ROOTS.edges, TWO_ROOTS.nodes.Keys, map["A" := 0, "P" := 0, "H" := 1, "C" := 1]);
  }

  lemma TwoRootsIsCoherent()
    ensures Coherent(TWO_ROOTS)
  {
    forall n: NodeId
      ensures EdgesInto(TWO_ROOTS.edges, n) == if n == "H" then [TO_HALT] else if n == "C" then [TO_AGENT] else []
    {
      EdgesIntoTwoRoots(n);
    }
    hide EdgesInto;
  }

  lemma EdgesIntoTwoRoots(n: NodeId)
    ensures EdgesInto(TWO_ROOTS.edges, n) == if n == "H" then [TO_HALT] else if n == "C" then [TO_AGENT] else []
  {
    EdgesIntoSingle(TO_HALT, n);
    assert TWO_ROOTS.edges[..1] == [TO_HALT];
  }

  lemma EdgesIntoSingle(e: Edge, n: NodeId)
    ensures EdgesInto([e], n) == if e.target == n then [e] else []
  {
    assert [e][..0] == [];
  }

  function Mem(a: NodeState, p: NodeState, h: NodeState, c: NodeState): States {
    map["A" := a, "P" := p, "H" := h, "C" := c]
  }

  /** When each node of the graph may go on. */
  lemma TwoRootsDecides(a: NodeState, p: NodeState, h: NodeState, c: NodeState)
    ensures var st := Mem(a, p, h, c);
            && Decide(TWO_ROOTS.nodes["A"], st) == Decide(TWO_ROOTS.nodes["P"], st) == Ready
            && Decide(TWO_ROOTS.nodes["H"], st) ==
               (if Produced(p.status) && LooseEqual(Lookup(p.output, ["approved"]), Bool(false)) then Ready
                else if Terminal(p.status) then Skip else Blocked)
            && Decide(TWO_ROOTS.nodes["C"], st) ==
               (if Produced(a.status) then Ready else if Terminal(a.status) then Skip else Blocked)
  {
    var st := Mem(a, p, h, c);
    RootIsReady(Agent, st);
    RootIsReady(Approval, st);
    DecideSingle(TWO_ROOTS.nodes["H"], TO_HALT, st);
    DecideSingle(TWO_ROOTS.nodes["C"], TO_AGENT, st);
  }

  const RUNNING := NodeState(Running, Null)

  lemma OutcomeSaysWhether(v: Verdict)
    ensures Lookup(Outcome(v, Null).output, ["approved"]) == Bool(v.Approve?)
    ensures Produced(Outcome(v, Null).status) && Terminal(Outcome(v, Null).status)
  {
    var o := Outcome(v, Null).output;
    assert ["approved"][1..] == [];
    assert o.fields["approved"] == Bool(v.Approve?);
    assert Lookup(o, ["approved"]) == Lookup(o.fields["approved"], []);
  }

  /** The approval waits, and the agent is being executed in a wave. */
  const AGENT_RUNS := Engine(
    Mem(RUNNING, OPEN, FRESH, FRESH), map["P" := OPEN, "A" := RUNNING], Wave, {}, {"A"}, multiset{},
    {"A"}, {}, {}, {}, false, map[])

  lemma FirstCallStarts(w: World)
    ensures Happens(TWO_ROOTS, w, AGENT_RUNS)
  {
    hide Happens, Decide, Proceeds, InNextWave;
    var d := TWO_ROOTS;
    HappensFirst(d, w);
    var s0 := Init(d);
    assert s0.mem == Mem(FRESH, FRESH, FRESH, FRESH);
    TwoRootsDecides(FRESH, FRESH, FRESH, FRESH);
    Opens(d, w, s0, "P");
    var s1 := Stored(s0, "P", OPEN);
    assert s1.mem == Mem(FRESH, OPEN, FRESH, FRESH);
    TwoRootsDecides(FRESH, OPEN, FRESH, FRESH);
    FirstWave(s1);
    Launches(d, w, s1, {"A"}, "A");
    var s2 := s1.(stage := Wave, todo := {"A"});
    Begins(d, w, s2, "A");
    var s3 := Stored(s2.(todo := s2.todo - {"A"}, live := s2.live + {"A"}, mine := s2.mine + {"A"}), "A", RUNNING);
    assert s3 == AGENT_RUNS;
  }

  lemma FirstWave(s: Engine)
    requires s.mem == Mem(FRESH, OPEN, FRESH, FRESH)
    requires s.stage == Boundary && s.owes == {} && s.failed == {} && !s.pause
    ensures Proceeds(TWO_ROOTS, s)
    ensures forall m :: m in {"A"} <==> m in TWO_ROOTS.nodes && InNextWave(TWO_ROOTS, s.mem, m)
  {
    FirstWaveNodes(s.mem);
    hide Decide, InNextWave, Settled;
    assert forall n | n in TWO_ROOTS.nodes :: !RejectionAborts(TWO_ROOTS, s.mem, n);
  }

  lemma FirstWaveNodes(st: States)
    requires st == Mem(FRESH, OPEN, FRESH, FRESH)
    ensures Settled(TWO_ROOTS, st)
    ensures forall m :: m in {"A"} <==> m in TWO_ROOTS.nodes && InNextWave(TWO_ROOTS, st, m)
  {
    TwoRootsDecides(FRESH, OPEN, FRESH, FRESH);
    hide Decide;
    assert !HaltTriggered(TWO_ROOTS, st);
  }

  /** The approval is judged while the agent runs, and `run` is called again. */
  function CalledAgain(v: Verdict): Engine {
    Engine(Mem(RUNNING, Outcome(v, Null), FRESH, FRESH), map["P" := Outcome(v, Null), "A" := RUNNING],
      Boundary, {}, {}, multiset{Loop(Wave, {}, {"A"})}, {"A"}, {}, {}, {}, false, map["P" := v])
  }

  lemma SecondCallStarts(w: World)
    requires "P" in w.verdicts
    ensures Happens(TWO_ROOTS, w, CalledAgain(w.verdicts["P"]))
  {
    hide Happens, Decide, Outcome;
    var d, s0, v := TWO_ROOTS, AGENT_RUNS, w.verdicts["P"];
    FirstCallStarts(w);
    IsJudged(d, w, s0, "P");
    var s1 := Stored(s0, "P", Outcome(v, Null)).(verdicts := s0.verdicts["P" := v]);
    IsCalledAgain(d, w, s1);
    var s2 := s1.(stage := Boundary, todo := {}, mine := {}, aside := s1.aside + multiset{Current(s1)});
    assert Current(s1) == Loop(Wave, {}, {"A"}) && s1.aside + multiset{Current(s1)} == multiset{Loop(Wave, {}, {"A"})};
    assert s2.mem == CalledAgain(v).mem && s2.rows == CalledAgain(v).rows;
    assert s2 == CalledAgain(v);
  }

  // ---------------------------------------------------------------------------
  // The stall
  // ---------------------------------------------------------------------------

  lemma NothingBesideTheAgent(s: Engine, p: NodeState)
    requires s.mem == Mem(RUNNING, p, SKIP, FRESH) && Terminal(p.status) && p.status != Rejected
    requires s.stage == Boundary && s.aside != multiset{} && s.failed == {} && !s.pause
    ensures Stalls(TWO_ROOTS, s)
  {
    NothingToDecide(s.mem, p);
    NobodyWaits(s.mem, p);
    hide Decide, Settled, InNextWave, RejectionAborts, SomeWaiting, AllTerminal;
  }

  lemma NobodyWaits(st: States, p: NodeState)
    requires st == Mem(RUNNING, p, SKIP, FRESH) && Terminal(p.status) && p.status != Rejected
    ensures !SomeWaiting(st) && !AllTerminal(st)
    ensures forall n | n in TWO_ROOTS.nodes :: !RejectionAborts(TWO_ROOTS, st, n)
  {
    assert !Terminal(st["A"].status);
  }

  lemma NothingToDecide(st: States, p: NodeState)
    requires st == Mem(RUNNING, p, SKIP, FRESH) && Terminal(p.status)
    ensures Settled(TWO_ROOTS, st) && forall n | n in TWO_ROOTS.nodes :: !InNextWave(TWO_ROOTS, st, n)
  {
    TwoRootsDecides(RUNNING, p, SKIP, FRESH);
    hide Decide;
    assert !HaltTriggered(TWO_ROOTS, st);
  }

  /**
   The stall happens: the approval is given while the agent runs, `run` is called again as approving
   without a queue does, and the second call finds nothing to do and nothing to wait for.
   */
  lemma StallHappens(w: World) returns (s: Engine)
    requires "P" in w.verdicts && w.verdicts["P"].Approve?
    ensures Happens(TWO_ROOTS, w, s) && Stalls(TWO_ROOTS, s)
    ensures WellFormed(TWO_ROOTS) && Reachable(TWO_ROOTS, s)
  {
    hide Happens, Decide, WellFormed;
    TwoRootsIsLoaded();
    var v := w.verdicts["P"];
    var p := Outcome(v, Null);
    SecondCallStarts(w);
    var s0 := CalledAgain(v);
    OutcomeSaysWhether(v);
    TwoRootsDecides(RUNNING, p, FRESH, FRESH);
    Skips(TWO_ROOTS, w, s0, "H");
    s := Stored(s0, "H", SKIP);
    assert s.mem == Mem(RUNNING, p, SKIP, FRESH);
    NothingBesideTheAgent(s, p);
    HappensIsReachable(TWO_ROOTS, w, s);
  }

  // ---------------------------------------------------------------------------
  // The halt
  // ---------------------------------------------------------------------------

  /** The second call launches the halt and begins it, then the first call gets its turn. */
  function HaltRuns(v: Verdict): Engine {
    Engine(Mem(RUNNING, Outcome(v, Null), RUNNING, FRESH), map["P" := Outcome(v, Null), "A" := RUNNING, "H" := RUNNING],
      Wave, {}, {"A"}, multiset{Loop(Wave, {}, {"H"})}, {"A", "H"}, {}, {}, {}, false, map["P" := v])
  }

  lemma HaltWave(s: Engine, p: NodeState)
    requires s.mem == Mem(RUNNING, p, FRESH, FRESH) && Produced(p.status)
             && Lookup(p.output, ["approved"]) == Bool(false)
    requires s.stage == Boundary && s.aside != multiset{} && s.failed == {} && !s.pause
    ensures Proceeds(TWO_ROOTS, s)
    ensures forall m :: m in {"H"} <==> m in TWO_ROOTS.nodes && InNextWave(TWO_ROOTS, s.mem, m)
  {
    HaltWaveNodes(s.mem, p);
    hide Decide, InNextWave, Settled;
    assert forall n | n in TWO_ROOTS.nodes :: !RejectionAborts(TWO_ROOTS, s.mem, n);
  }

  lemma HaltWaveNodes(st: States, p: NodeState)
    requires st == Mem(RUNNING, p, FRESH, FRESH) && Produced(p.status) && Lookup(p.output, ["approved"]) == Bool(false)
    ensures Settled(TWO_ROOTS, st)
    ensures forall m :: m in {"H"} <==> m in TWO_ROOTS.nodes && InNextWave(TWO_ROOTS, st, m)
  {
    TwoRootsDecides(RUNNING, p, FRESH, FRESH);
    hide Decide;
    assert !HaltTriggered(TWO_ROOTS, st);
  }

  lemma HaltStarts(w: World)
    requires "P" in w.verdicts && !w.verdicts["P"].Approve?
    ensures Happens(TWO_ROOTS, w, HaltRuns(w.verdicts["P"]))
  {
    hide Happens, Decide, Outcome;
    var v := w.verdicts["P"];
    HaltBegins(w);
    var s := HaltBegun(v);
    TakesTurns(TWO_ROOTS, w, s, Loop(Wave, {}, {"A"}));
    assert Current(s) == Loop(Wave, {}, {"H"});
  }

  function HaltBegun(v: Verdict): Engine {
    HaltRuns(v).(mine := {"H"}, aside := multiset{Loop(Wave, {}, {"A"})})
  }

  lemma HaltBegins(w: World)
    requires "P" in w.verdicts && !w.verdicts["P"].Approve?
    ensures Happens(TWO_ROOTS, w, HaltBegun(w.verdicts["P"]))
  {
    hide Happens, Decide, Outcome, Proceeds, InNextWave;
    var d, v := TWO_ROOTS, w.verdicts["P"];
    var p, s0 := Outcome(v, Null), CalledAgain(v);
    SecondCallStarts(w);
    OutcomeSaysWhether(v);
    HaltWave(s0, p);
    Launches(d, w, s0, {"H"}, "H");
    var s1 := s0.(stage := Wave, todo := {"H"});
    TwoRootsDecides(RUNNING, p, FRESH, FRESH);
    Begins(d, w, s1, "H");
    var s2 := Stored(s1.(todo := s1.todo - {"H"}, live := s1.live + {"H"}, mine := s1.mine + {"H"}), "H", RUNNING);
    assert s2.mem == HaltBegun(v).mem && s2.rows == HaltBegun(v).rows;
    assert s2 == HaltBegun(v);
  }

  /** The agent ends, the first call sees no halt done yet, and launches the agent behind it. */
  function AgentBeside(v: Verdict, output: Value): Engine {
    Engine(Mem(NodeState(Done, output), Outcome(v, Null), RUNNING, FRESH),
      map["P" := Outcome(v, Null), "A" := NodeState(Done, output), "H" := RUNNING],
      Wave, {"C"}, {}, multiset{Loop(Wave, {}, {"H"})}, {"H"}, {}, {}, {}, false, map["P" := v])
  }

  lemma AgentWave(s: Engine, a: NodeState, p: NodeState)
    requires s.mem == Mem(a, p, RUNNING, FRESH) && a.status == Done && Terminal(p.status)
    requires s.stage == Boundary && s.aside != multiset{} && s.failed == {} && !s.pause
    ensures Proceeds(TWO_ROOTS, s)
    ensures forall m :: m in {"C"} <==> m in TWO_ROOTS.nodes && InNextWave(TWO_ROOTS, s.mem, m)
  {
    AgentWaveNodes(s.mem, a, p);
    hide Decide, InNextWave, Settled;
    assert forall n | n in TWO_ROOTS.nodes :: !RejectionAborts(TWO_ROOTS, s.mem, n);
  }

  lemma AgentWaveNodes(st: States, a: NodeState, p: NodeState)
    requires st == Mem(a, p, RUNNING, FRESH) && a.status == Done && Terminal(p.status)
    ensures Settled(TWO_ROOTS, st)
    ensures forall m :: m in {"C"} <==> m in TWO_ROOTS.nodes && InNextWave(TWO_ROOTS, st, m)
  {
    TwoRootsDecides(a, p, RUNNING, FRESH);
    hide Decide;
    assert !HaltTriggered(TWO_ROOTS, st);
  }

  lemma AgentIsLaunched(w: World)
    requires "P" in w.verdicts && !w.verdicts["P"].Approve?
    requires "A" in w.outputs && !Refused(TWO_ROOTS.nodes["A"], w.outputs["A"])
    ensures Happens(TWO_ROOTS, w, AgentBeside(w.verdicts["P"], w.outputs["A"]))
  {
    hide Happens, Decide, Outcome, Refused;
    var d, v := TWO_ROOTS, w.verdicts["P"];
    var p, a, s0 := Outcome(v, Null), NodeState(Done, w.outputs["A"]), HaltRuns(v);
    HaltStarts(w);
    Ends(d, w, s0, "A");
    var s1 := Stored(s0.(live := s0.live - {"A"}, mine := s0.mine - {"A"}), "A", a);
    EndsWave(d, w, s1);
    var s2 := s1.(stage := Boundary);
    assert s2.mem == Mem(a, p, RUNNING, FRESH);
    OutcomeSaysWhether(v);
    AgentWave(s2, a, p);
    Launches(d, w, s2, {"C"}, "C");
    var s3 := s2.(stage := Wave, todo := {"C"});
    assert s3.rows == AgentBeside(v, w.outputs["A"]).rows && s3.live == {"H"};
    assert s3 == AgentBeside(v, w.outputs["A"]);
  }

  /**
   Halts are not contained when calls overlap: the approval is refused while the agent runs, and `run` is
   called again. Then an agent may begin while the halt is being executed.
   */
  lemma AgentBeginsBesideHalt(w: World) returns (s: Engine)
    requires "P" in w.verdicts && !w.verdicts["P"].Approve?
    requires "A" in w.outputs && !Refused(TWO_ROOTS.nodes["A"], w.outputs["A"])
    ensures Happens(TWO_ROOTS, w, s) && Enabled(TWO_ROOTS, s, Begin("C"))
    ensures TWO_ROOTS.nodes["C"].kind == Agent && "H" in s.live && TWO_ROOTS.nodes["H"].kind == Halt
  {
    AgentIsLaunched(w);
    s := AgentBeside(w.verdicts["P"], w.outputs["A"]);
  }

  /** And it may begin after the halt is done, in memory and in the store. */
  lemma AgentBeginsAfterHalt(w: World) returns (s: Engine)
    requires "P" in w.verdicts && !w.verdicts["P"].Approve?
    requires "A" in w.outputs && !Refused(TWO_ROOTS.nodes["A"], w.outputs["A"]) && "H" in w.outputs
    ensures Happens(TWO_ROOTS, w, s) && Enabled(TWO_ROOTS, s, Begin("C"))
    ensures TWO_ROOTS.nodes["C"].kind == Agent && HaltTriggered(TWO_ROOTS, s.mem) && HaltTriggered(TWO_ROOTS, s.rows)
  {
    hide Happens, Outcome;
    var d, v := TWO_ROOTS, w.verdicts["P"];
    AgentIsLaunched(w);
    var s0 := AgentBeside(v, w.outputs["A"]);
    TakesTurns(d, w, s0, Loop(Wave, {}, {"H"}));
    var s1 := s0.(stage := Wave, todo := {}, mine := {"H"}, aside := multiset{Current(s0)});
    Ends(d, w, s1, "H");
    var s2 := Stored(s1.(live := s1.live - {"H"}, mine := s1.mine - {"H"}), "H", NodeState(Done, w.outputs["H"]));
    TakesTurns(d, w, s2, Current(s0));
    s := s2.(stage := Wave, todo := {"C"}, mine := {}, aside := multiset{Current(s2)});
    assert d.nodes["H"].kind == Halt && s.mem["H"].status == Done && s.rows["H"].status == Done;
  }
}
