/**
 Whole runs that show why conditions must read their own source: with a condition on another node two
 runs of one graph may end differently, and a launched node may no longer be ready at its turn.
 */
module ForeignConditions {
  import opened Values
  import opened Dags
  import opened States
  import opened Evaluation
  import opened Runs
  import opened Passes
  import opened Stories

  // ---------------------------------------------------------------------------
  // The first graph: two root agents A and B, and an approval P behind A whose condition `c` reads B
  // ---------------------------------------------------------------------------

  function Foreign(c: Cond): Edge {
    Edge("A", "P", Some(c))
  }

  function Elsewhere(c: Cond): Dag {
    Dag(["A", "B", "P"],
      map["A" := Plain(Agent, []), "B" := Plain(Agent, []), "P" := Plain(Approval, [Foreign(c)])],
      [Foreign(c)])
  }

  lemma ElsewhereIsLoaded(c: Cond)
    requires c.node == "B"
    ensures WellFormed(Elsewhere(c)) && !SelfConditioned(Elsewhere(c))
  {
    ElsewhereIsCoherent(c);
    hide Coherent, Acyclic, EdgesInto;
    RankedIsAcyclic(Elsewhere(c).edges, Elsewhere(c).nodes.Keys, map["A" := 0, "B" := 0, "P" := 1]);
    assert Foreign(c) in Elsewhere(c).edges && !OwnCondition(Elsewhere(c), Foreign(c));
  }

  lemma ElsewhereIsCoherent(c: Cond)
    ensures Coherent(Elsewhere(c))
  {
    forall n: NodeId ensures EdgesInto(Elsewhere(c).edges, n) == if n == "P" then [Foreign(c)] else [] {
      EdgesIntoSingle(Foreign(c), n);
    }
    hide EdgesInto;
  }

  function Mem3(a: NodeState, b: NodeState, p: NodeState): States {
    map["A" := a, "B" := b, "P" := p]
  }

  lemma ElsewhereDecides(c: Cond, a: NodeState, b: NodeState, p: NodeState)
    requires c.node == "B"
    ensures var st := Mem3(a, b, p);
            && Decide(Elsewhere(c).nodes["A"], st) == Decide(Elsewhere(c).nodes["B"], st) == Ready
            && Decide(Elsewhere(c).nodes["P"], st) ==
               (if Produced(a.status) && HoldsOn(c, b.output) then Ready
                else if Terminal(a.status) then Skip else Blocked)
  {
    var st := Mem3(a, b, p);
    RootIsReady(Agent, st);
    DecideSingle(Elsewhere(c).nodes["P"], Foreign(c), st);
  }

  const BOTH_RUN := Engine(
    Mem3(RUNNING, RUNNING, FRESH), map["A" := RUNNING, "B" := RUNNING], Wave, {}, {"A", "B"}, multiset{},
    {"A", "B"}, {}, {}, {}, false, map[])

  lemma BothInWave(c: Cond, s: Engine)
    requires c.node == "B"
    requires s.mem == Mem3(FRESH, FRESH, FRESH)
    requires s.stage == Boundary && s.owes == {} && s.failed == {} && !s.pause
    ensures Proceeds(Elsewhere(c), s)
    ensures forall m :: m in {"A", "B"} <==> m in Elsewhere(c).nodes && InNextWave(Elsewhere(c), s.mem, m)
  {
    BothInWaveNodes(c, s.mem);
    hide Decide, InNextWave, Settled;
    assert forall n | n in Elsewhere(c).nodes :: !RejectionAborts(Elsewhere(c), s.mem, n);
  }

  lemma BothInWaveNodes(c: Cond, st: States)
    requires c.node == "B"
    requires st == Mem3(FRESH, FRESH, FRESH)
    ensures Settled(Elsewhere(c), st)
    ensures forall m :: m in {"A", "B"} <==> m in Elsewhere(c).nodes && InNextWave(Elsewhere(c), st, m)
  {
    ElsewhereDecides(c, FRESH, FRESH, FRESH);
    hide Decide;
    assert !HaltTriggered(Elsewhere(c), st);
  }

  lemma BothStart(c: Cond, w: World)
    requires c.node == "B"
    ensures Happens(Elsewhere(c), w, BOTH_RUN)
  {
    hide Happens, Decide;
    var s0 := OneStarts(c, w);
    ElsewhereDecides(c, RUNNING, FRESH, FRESH);
    Begins(Elsewhere(c), w, s0, "B");
    var s1 := Stored(s0.(todo := s0.todo - {"B"}, live := s0.live + {"B"}, mine := s0.mine + {"B"}), "B", RUNNING);
    assert s1 == BOTH_RUN;
  }

  lemma OneStarts(c: Cond, w: World) returns (s: Engine)
    requires c.node == "B"
    ensures Happens(Elsewhere(c), w, s)
    ensures s == BOTH_RUN.(mem := Mem3(RUNNING, FRESH, FRESH), rows := map["A" := RUNNING], todo := {"B"},
            live := {"A"}, mine := {"A"})
  {
    hide Happens, Decide, Proceeds, InNextWave;
    var d := Elsewhere(c);
    HappensFirst(d, w);
    var s0 := Init(d);
    assert s0.mem == Mem3(FRESH, FRESH, FRESH);
    BothInWave(c, s0);
    Launches(d, w, s0, {"A", "B"}, "A");
    var s1 := s0.(stage := Wave, todo := {"A", "B"});
    ElsewhereDecides(c, FRESH, FRESH, FRESH);
    Begins(d, w, s1, "A");
    s := Stored(s1.(todo := s1.todo - {"A"}, live := s1.live + {"A"}, mine := s1.mine + {"A"}), "A", RUNNING);
  }

  /** A run in which every node is terminal and nothing is left to write ends as done. */
  lemma EndsDone(d: Dag, w: World, s: Engine)
    requires Happens(d, w, s) && Clean(s) && Enabled(d, s, EndWave) && AllTerminal(s.mem) && s.failed == {}
    requires d.nodes.Keys <= s.mem.Keys && forall n | n in d.nodes :: !RejectionAborts(d, s.mem, n)
    ensures Happens(d, w, s.(stage := Stopped(DoneRun)))
  {
    hide Happens, RejectionAborts;
    EndsWave(d, w, s);
    var t := s.(stage := Boundary);
    assert Settled(d, t.mem);
    assert NothingReady(d, t);
    HappensNext(d, w, t, Stop(DoneRun));
    assert Apply(d, t, Stop(DoneRun)) == s.(stage := Stopped(DoneRun));
  }

  /** The two agents succeed, and the condition reads the second. */
  predicate BothSucceed(c: Cond, w: World) {
    && c.node == "B" && "A" in w.outputs && "B" in w.outputs && "P" in w.verdicts
    && !Refused(Elsewhere(c).nodes["A"], w.outputs["A"]) && !Refused(Elsewhere(c).nodes["B"], w.outputs["B"])
  }

  /** How the approval ends: judged if the condition holds when it is decided, skipped otherwise. */
  function Ending(c: Cond, w: World, read: Value): NodeState
    requires BothSucceed(c, w)
  {
    if HoldsOn(c, read) then Outcome(w.verdicts["P"], Null) else SKIP
  }

  /** An approval whose time has come is opened and judged, or skipped. */
  lemma IsDealtWith(c: Cond, w: World, s: Engine, a: NodeState, b: NodeState) returns (t: Engine)
    requires BothSucceed(c, w) && Happens(Elsewhere(c), w, s) && Clean(s) && s.stage == Wave && s.verdicts == map[]
    requires s.mem == Mem3(a, b, FRESH) && a.status == Done
    ensures Happens(Elsewhere(c), w, t)
    ensures t.mem == Mem3(a, b, Ending(c, w, b.output))
    ensures t == s.(mem := t.mem, rows := t.rows, verdicts := t.verdicts)
  {
    hide Happens, Decide, Outcome, HoldsOn, Refused;
    var d, v := Elsewhere(c), w.verdicts["P"];
    ElsewhereDecides(c, a, b, FRESH);
    Opens(d, w, s, "P");
    t := Stored(s, "P", Opened(d, s.mem, "P"));
    if HoldsOn(c, b.output) {
      IsJudged(d, w, t, "P");
      t := Stored(t, "P", Outcome(v, Null)).(verdicts := t.verdicts["P" := v]);
    }
  }

  /** Both agents have ended, and the approval has been dealt with. */
  lemma AllEnd(c: Cond, w: World, s: Engine, p: NodeState) returns (t: Engine)
    requires BothSucceed(c, w) && Happens(Elsewhere(c), w, s) && Clean(s) && s.stage == Wave && s.aside == multiset{}
    requires s.todo == {} && s.mine == {} && s.failed == {}
    requires s.mem == Mem3(NodeState(Done, w.outputs["A"]), NodeState(Done, w.outputs["B"]), p) && Terminal(p.status)
    ensures Happens(Elsewhere(c), w, t) && t.stage == Stopped(DoneRun) && t.mem == s.mem
  {
    hide Happens, BothSucceed;
    EndsDone(Elsewhere(c), w, s);
    t := s.(stage := Stopped(DoneRun));
  }

  /** One of the agents ends while the other has ended or is still running. */
  lemma OneEnds(c: Cond, w: World, s: Engine, n: NodeId) returns (t: Engine)
    requires BothSucceed(c, w) && Happens(Elsewhere(c), w, s) && Clean(s) && s.stage == Wave && n in s.mine
             && n in s.live
    requires (n == "A" || n == "B") && n in s.mem
    ensures Happens(Elsewhere(c), w, t)
    ensures t.mem == s.mem[n := NodeState(Done, w.outputs[n])]
    ensures t == s.(mem := t.mem, rows := t.rows, live := s.live - {n}, mine := s.mine - {n})
  {
    hide Happens, Refused;
    Ends(Elsewhere(c), w, s, n);
    t := Stored(s.(live := s.live - {n}, mine := s.mine - {n}), n, NodeState(Done, w.outputs[n]));
  }

  lemma EndingIsTerminal(c: Cond, w: World, read: Value)
    requires BothSucceed(c, w)
    ensures Terminal(Ending(c, w, read).status) && (Ending(c, w, read).status == Skipped <==> !HoldsOn(c, read))
  {
    OutcomeSaysWhether(w.verdicts["P"]);
    hide HoldsOn;
  }

  /** The agent before the approval ends first: what the condition reads is not there yet. */
  lemma DecidedEarly(c: Cond, w: World) returns (s: Engine)
    requires BothSucceed(c, w)
    ensures Happens(Elsewhere(c), w, s) && s.stage == Stopped(DoneRun)
    ensures s.mem == Mem3(NodeState(Done, w.outputs["A"]), NodeState(Done, w.outputs["B"]), Ending(c, w, Null))
  {
    hide Happens, Ending;
    BothStart(c, w);
    var a := NodeState(Done, w.outputs["A"]);
    var s0 := OneEnds(c, w, BOTH_RUN, "A");
    assert s0.mem == Mem3(a, RUNNING, FRESH);
    var s1 := IsDealtWith(c, w, s0, a, RUNNING);
    var s2 := OneEnds(c, w, s1, "B");
    EndingIsTerminal(c, w, Null);
    assert s2.mem == Mem3(a, NodeState(Done, w.outputs["B"]), Ending(c, w, Null));
    s := AllEnd(c, w, s2, Ending(c, w, Null));
  }

  /** It ends last: the condition reads what the other agent has put out. */
  lemma DecidedLate(c: Cond, w: World) returns (s: Engine)
    requires BothSucceed(c, w)
    ensures Happens(Elsewhere(c), w, s) && s.stage == Stopped(DoneRun)
    ensures s.mem == Mem3(NodeState(Done, w.outputs["A"]), NodeState(Done, w.outputs["B"]),
            Ending(c, w, w.outputs["B"]))
  {
    hide Happens, Ending;
    BothStart(c, w);
    var a, b := NodeState(Done, w.outputs["A"]), NodeState(Done, w.outputs["B"]);
    var s0 := OneEnds(c, w, BOTH_RUN, "B");
    var s1 := OneEnds(c, w, s0, "A");
    assert s1.mem == Mem3(a, b, FRESH);
    var s2 := IsDealtWith(c, w, s1, a, b);
    EndingIsTerminal(c, w, w.outputs["B"]);
    s := AllEnd(c, w, s2, Ending(c, w, w.outputs["B"]));
  }

  /**
   Why conditions must read their own source. Two runs of one loaded graph, in which every node puts out
   the same and the approval would get the same verdict, both end done. In the one the agent before the
   approval ends first, in the other last; they end alike exactly if the condition says the same of the
   output that it reads as of Null.
   */
  lemma ForeignConditionDivergesIff(c: Cond, w: World) returns (s: Engine, t: Engine)
    requires BothSucceed(c, w)
    ensures WellFormed(Elsewhere(c)) && Happens(Elsewhere(c), w, s) && Happens(Elsewhere(c), w, t)
    ensures s.stage == t.stage == Stopped(DoneRun) && "P" in s.mem && "P" in t.mem
    ensures s.mem["P"].status == t.mem["P"].status <==> HoldsOn(c, Null) == HoldsOn(c, w.outputs["B"])
  {
    hide Happens, WellFormed, Ending;
    ElsewhereIsLoaded(c);
    s := DecidedEarly(c, w);
    t := DecidedLate(c, w);
    EndingIsTerminal(c, w, Null);
    EndingIsTerminal(c, w, w.outputs["B"]);
    if HoldsOn(c, Null) == HoldsOn(c, w.outputs["B"]) {
      EndingsAgree(c, w, w.outputs["B"]);
    }
  }

  lemma EndingsAgree(c: Cond, w: World, read: Value)
    requires BothSucceed(c, w) && HoldsOn(c, Null) == HoldsOn(c, read)
    ensures Ending(c, w, Null) == Ending(c, w, read)
  {
    hide HoldsOn;
  }

  // ---------------------------------------------------------------------------
  // The second graph: a root agent A, and behind it the agents B and C; the condition `c` on C reads B
  // ---------------------------------------------------------------------------

  const TO_B := Edge("A", "B", None)

  function ToC(c: Cond): Edge {
    Edge("A", "C", Some(c))
  }

  function Fork(c: Cond): Dag {
    Dag(["A", "B", "C"],
      map["A" := Plain(Agent, []), "B" := Plain(Agent, [TO_B]), "C" := Plain(Agent, [ToC(c)])],
      [TO_B, ToC(c)])
  }

  lemma ForkIsLoaded(c: Cond)
    ensures WellFormed(Fork(c))
  {
    ForkIsCoherent(c);
    hide Coherent, Acyclic, EdgesInto;
    RankedIsAcyclic(Fork(c).edges, Fork(c).nodes.Keys, map["A" := 0, "B" := 1, "C" := 1]);
  }

  lemma ForkIsCoherent(c: Cond)
    ensures Coherent(Fork(c))
  {
    forall n: NodeId
      ensures EdgesInto(Fork(c).edges, n) == if n == "B" then [TO_B] else if n == "C" then [ToC(c)] else []
    {
      EdgesIntoFork(c, n);
    }
    hide EdgesInto;
  }

  lemma EdgesIntoFork(c: Cond, n: NodeId)
    ensures EdgesInto(Fork(c).edges, n) == if n == "B" then [TO_B] else if n == "C" then [ToC(c)] else []
  {
    EdgesIntoSingle(TO_B, n);
    assert Fork(c).edges[..1] == [TO_B];
  }

  function MemABC(a: NodeState, b: NodeState, x: NodeState): States {
    map["A" := a, "B" := b, "C" := x]
  }

  lemma ForkDecides(c: Cond, a: NodeState, b: NodeState, x: NodeState)
    requires c.node == "B"
    ensures var st := MemABC(a, b, x);
            && Decide(Fork(c).nodes["A"], st) == Ready
            && Decide(Fork(c).nodes["B"], st) ==
               (if Produced(a.status) then Ready else if Terminal(a.status) then Skip else Blocked)
            && Decide(Fork(c).nodes["C"], st) ==
               (if Produced(a.status) && HoldsOn(c, b.output) then Ready
                else if Terminal(a.status) then Skip else Blocked)
  {
    var st := MemABC(a, b, x);
    RootIsReady(Agent, st);
    DecideSingle(Fork(c).nodes["B"], TO_B, st);
    DecideSingle(Fork(c).nodes["C"], ToC(c), st);
  }

  lemma ForkProceeds(c: Cond, s: Engine, a: NodeState)
    requires c.node == "B" && s.mem == MemABC(a, FRESH, FRESH) && HoldsOn(c, Null)
    requires a == FRESH || a.status == Done
    requires s.stage == Boundary && s.owes == {} && s.failed == {} && !s.pause
    ensures Proceeds(Fork(c), s)
    ensures forall m ::
              m in (if a == FRESH then {"A"} else {"B", "C"}) <==> m in Fork(c).nodes && InNextWave(Fork(c), s.mem, m)
  {
    ForkWave(c, s.mem, a);
    hide Decide, InNextWave, Settled;
    assert forall n | n in Fork(c).nodes :: !RejectionAborts(Fork(c), s.mem, n);
  }

  lemma ForkWave(c: Cond, st: States, a: NodeState)
    requires c.node == "B" && st == MemABC(a, FRESH, FRESH) && HoldsOn(c, Null) && (a == FRESH || a.status == Done)
    ensures Settled(Fork(c), st)
    ensures forall m ::
              m in (if a == FRESH then {"A"} else {"B", "C"}) <==> m in Fork(c).nodes && InNextWave(Fork(c), st, m)
  {
    ForkDecides(c, a, FRESH, FRESH);
    hide Decide, HoldsOn;
    assert !HaltTriggered(Fork(c), st);
  }

  /**
   The two agents that matter succeed, and the condition reads the second, which it holds for while that has
   not run.
   */
  predicate ForkRuns(c: Cond, w: World) {
    && c.node == "B" && HoldsOn(c, Null) && "A" in w.outputs && "B" in w.outputs
    && !Refused(Fork(c).nodes["A"], w.outputs["A"]) && !Refused(Fork(c).nodes["B"], w.outputs["B"])
  }

  function AfterA(w: World): Engine
    requires "A" in w.outputs
  {
    var a := NodeState(Done, w.outputs["A"]);
    Engine(MemABC(a, FRESH, FRESH), map["A" := a], Boundary, {}, {}, multiset{}, {}, {}, {}, {}, false, map[])
  }

  lemma RootRuns(c: Cond, w: World)
    requires ForkRuns(c, w)
    ensures Happens(Fork(c), w, AfterA(w))
  {
    hide Happens, Decide, Proceeds, InNextWave, HoldsOn, Refused;
    var d, a := Fork(c), NodeState(Done, w.outputs["A"]);
    HappensFirst(d, w);
    var s0 := Init(d);
    assert s0.mem == MemABC(FRESH, FRESH, FRESH);
    ForkProceeds(c, s0, FRESH);
    Launches(d, w, s0, {"A"}, "A");
    var s1 := s0.(stage := Wave, todo := {"A"});
    ForkDecides(c, FRESH, FRESH, FRESH);
    var s2 := BeginsAndEnds(d, w, s1, "A");
    assert s2.mem == MemABC(a, FRESH, FRESH) && s2.rows == map["A" := a];
    EndsWave(d, w, s2);
    assert s2.(stage := Boundary) == AfterA(w);
  }

  /** A node of the wave begins and ends before any other takes its turn. */
  lemma BeginsAndEnds(d: Dag, w: World, s: Engine, n: NodeId) returns (t: Engine)
    requires Happens(d, w, s) && Clean(s) && Enabled(d, s, Begin(n)) && s.live == {} && s.mine == {}
    requires s.mem[n] == FRESH && Decide(d.nodes[n], s.mem) == Ready
    requires n in w.outputs && !Refused(d.nodes[n], w.outputs[n])
    ensures Happens(d, w, t)
    ensures var ns := NodeState(Done, w.outputs[n]);
            t == s.(mem := s.mem[n := ns], rows := s.rows[n := ns], todo := s.todo - {n})
  {
    hide Happens, Decide, Refused;
    Begins(d, w, s, n);
    var s1 := Stored(s.(todo := s.todo - {n}, live := s.live + {n}, mine := s.mine + {n}), n, RUNNING);
    Ends(d, w, s1, n);
    t := Stored(s1.(live := s1.live - {n}, mine := s1.mine - {n}), n, NodeState(Done, w.outputs[n]));
    assert s1.live - {n} == {} && s1.mine - {n} == {};
    var ns := NodeState(Done, w.outputs[n]);
    assert t.mem == s.mem[n := ns] && t.rows == s.rows[n := ns];
  }

  /**
   Ready nodes stay ready only where conditions read their own source. B and C are launched in one wave; B
   ends before C takes its turn; then C is still ready exactly if its condition, which held when it was
   launched, holds of what B has put out, and is skipped otherwise.
   */
  lemma LaunchedIsReadyIff(c: Cond, w: World) returns (s: Engine)
    requires ForkRuns(c, w)
    ensures WellFormed(Fork(c)) && Happens(Fork(c), w, s)
    ensures Enabled(Fork(c), s, Begin("C")) && s.mem["C"] == FRESH
    ensures Decide(Fork(c).nodes["C"], s.mem) == if HoldsOn(c, w.outputs["B"]) then Ready else Skip
  {
    hide Happens, Decide, Proceeds, InNextWave, HoldsOn, Refused, WellFormed;
    ForkIsLoaded(c);
    var d, a, s0 := Fork(c), NodeState(Done, w.outputs["A"]), AfterA(w);
    RootRuns(c, w);
    ForkProceeds(c, s0, a);
    Launches(d, w, s0, {"B", "C"}, "B");
    var s1 := s0.(stage := Wave, todo := {"B", "C"});
    ForkDecides(c, a, FRESH, FRESH);
    s := BeginsAndEnds(d, w, s1, "B");
    var b := NodeState(Done, w.outputs["B"]);
    assert s.mem == MemABC(a, b, FRESH);
    ForkDecides(c, a, b, FRESH);
  }
}
