/**
 A whole run that shows what a crash with a write outstanding leaves behind: a node that is done although the
 approval before it has yet to be decided, for a second time.
 */
module LostWrites {
  import opened Values
  import opened Dags
  import opened States
  import opened Evaluation
  import opened Runs
  import opened Passes
  import opened Stories
  import opened Joins

  // ---------------------------------------------------------------------------
  // The graph: an approval P, and an agent B behind it
  // ---------------------------------------------------------------------------

  const P_TO_B := Edge("P", "B", None)
  const LINE := Dag(
    ["P", "B"], map["P" := Plain(Approval, []), "B" := Plain(Agent, [P_TO_B])], [P_TO_B])

  lemma LineIsLoaded()
    ensures WellFormed(LINE) && SelfConditioned(LINE)
  {
    LineIsCoherent();
    hide Coherent, Acyclic, EdgesInto;
    RankedIsAcyclic(LINE.edges, LINE.nodes.Keys, map["P" := 0, "B" := 1]);
  }

  lemma LineIsCoherent()
    ensures Coherent(LINE)
  {
    forall n: NodeId
      ensures EdgesInto(LINE.edges, n) == if n == "B" then [P_TO_B] else []
    {
      EdgesIntoSingle(P_TO_B, n);
    }
    hide EdgesInto;
  }

  function MemPB(p: NodeState, b: NodeState): States {
    map["P" := p, "B" := b]
  }

  lemma LineDecides(p: NodeState, b: NodeState)
    ensures var st := MemPB(p, b);
            && Decide(LINE.nodes["P"], st) == Ready
            && Decide(LINE.nodes["B"], st) ==
               (if Produced(p.status) then Ready else if Terminal(p.status) then Skip else Blocked)
  {
    var st := MemPB(p, b);
    RootIsReady(Approval, st);
    DecideSingle(LINE.nodes["B"], P_TO_B, st);
  }

  // ---------------------------------------------------------------------------
  // The run
  // ---------------------------------------------------------------------------

  /** The approval has been given and taken in memory, and its row is still to be written. */
  function Taken(v: Verdict, b: NodeState, rows: States): Engine {
    Engine(MemPB(Outcome(v, Null), b), rows, Boundary, {}, {}, multiset{}, {}, {"P"}, {}, {}, false, map["P" := v])
  }

  const WAITING := Engine(
    MemPB(OPEN, FRESH), map["P" := OPEN], Boundary, {}, {}, multiset{}, {}, {}, {}, {}, false, map[])

  lemma ApprovalIsOpen(w: World)
    ensures Happens(LINE, w, WAITING)
  {
    hide Happens, Decide;
    var s := Init(LINE);
    HappensFirst(LINE, w);
    assert s.mem == MemPB(FRESH, FRESH);
    LineDecides(FRESH, FRESH);
    Opens(LINE, w, s, "P");
    assert Stored(s, "P", OPEN) == WAITING;
  }

  lemma ApprovalIsTaken(w: World)
    requires "P" in w.verdicts
    ensures Happens(LINE, w, Taken(w.verdicts["P"], FRESH, map["P" := OPEN]))
  {
    hide Happens, Decide, Outcome;
    var d, v := LINE, w.verdicts["P"];
    ApprovalIsOpen(w);
    var s1 := WAITING;
    HappensNext(d, w, s1, Judge("P", v));
    var s2 := s1.(verdicts := map["P" := v]);
    HappensNext(d, w, s2, TakeVerdict("P", Null));
    assert Apply(d, s2, TakeVerdict("P", Null)) == Taken(v, FRESH, map["P" := OPEN]);
  }

  lemma AgentWave(s: Engine, p: NodeState)
    requires s.mem == MemPB(p, FRESH) && Produced(p.status)
    requires s.stage == Boundary && s.owes == {} && s.failed == {} && !s.pause
    ensures Proceeds(LINE, s)
    ensures forall m :: m in {"B"} <==> m in LINE.nodes && InNextWave(LINE, s.mem, m)
  {
    LineDecides(p, FRESH);
    hide Decide;
    assert !HaltTriggered(LINE, s.mem);
  }

  /** The agent behind the approval runs, and its own rows are written. */
  lemma AgentRuns(w: World) returns (s: Engine)
    requires "P" in w.verdicts && "B" in w.outputs && !Refused(LINE.nodes["B"], w.outputs["B"])
    ensures Happens(LINE, w, s) && s.stage == Wave && s.verdicts == map["P" := w.verdicts["P"]]
    ensures s.rows == MemPB(OPEN, NodeState(Done, w.outputs["B"]))
  {
    hide Happens, Decide, Outcome, Refused, Proceeds, InNextWave;
    var d, v := LINE, w.verdicts["P"];
    var p, s0 := Outcome(v, Null), Taken(v, FRESH, map["P" := OPEN]);
    ApprovalIsTaken(w);
    OutcomeSaysWhether(v);
    AgentWave(s0, p);
    Launches(d, w, s0, {"B"}, "B");
    var s1 := s0.(stage := Wave, todo := {"B"});
    LineDecides(p, FRESH);
    HappensNext(d, w, s1, Begin("B"));
    var s2 := Apply(d, s1, Begin("B"));
    HappensNext(d, w, s2, Persist("B"));
    var s3 := Apply(d, s2, Persist("B"));
    s := AgentEnds(w, s3);
  }

  lemma AgentEnds(w: World, s: Engine) returns (t: Engine)
    requires "B" in w.outputs && !Refused(LINE.nodes["B"], w.outputs["B"]) && Happens(LINE, w, s)
    requires s.stage == Wave && "B" in s.mine && "B" in s.live && s.mem.Keys == {"P", "B"} && s.rows.Keys == {"P", "B"}
    ensures Happens(LINE, w, t) && t.stage == Wave && t.verdicts == s.verdicts
    ensures t.rows == s.rows["B" := NodeState(Done, w.outputs["B"])]
  {
    hide Happens, Refused;
    HappensNext(LINE, w, s, Finish("B", w.outputs["B"]));
    var u := Apply(LINE, s, Finish("B", w.outputs["B"]));
    HappensNext(LINE, w, u, Persist("B"));
    t := Apply(LINE, u, Persist("B"));
  }

  /**
   The process dies before the approval's row is written, and an executor is rebuilt from the rows: the agent is
   done, and the approval before it waits.
   */
  lemma DoneBeforeItsApproval(w: World) returns (s: Engine)
    requires "P" in w.verdicts && "B" in w.outputs && !Refused(LINE.nodes["B"], w.outputs["B"])
    ensures WellFormed(LINE) && SelfConditioned(LINE) && Happens(LINE, w, s) && s.stage == Boundary
    ensures s.mem == MemPB(OPEN, NodeState(Done, w.outputs["B"])) && !JoinHolds(LINE.nodes["B"], s.mem)
  {
    LineIsLoaded();
    hide Happens, Refused, WellFormed, SelfConditioned;
    var s0 := AgentRuns(w);
    s := IsRebuilt(w, s0);
    CheckpointIs(NodeState(Done, w.outputs["B"]));
  }

  lemma IsRebuilt(w: World, s: Engine) returns (t: Engine)
    requires Happens(LINE, w, s)
    ensures Happens(LINE, w, t) && t.stage == Boundary && t.mem == Restored(LINE, s.rows)
  {
    hide Happens, Restored;
    HappensNext(LINE, w, s, Crash);
    var u := Apply(LINE, s, Crash);
    HappensNext(LINE, w, u, Restore);
    t := Apply(LINE, u, Restore);
  }

  lemma CheckpointIs(b: NodeState)
    requires b.status == Done
    ensures Restored(LINE, MemPB(OPEN, b)) == MemPB(OPEN, b) && !JoinHolds(LINE.nodes["B"], MemPB(OPEN, b))
  {
    assert forall e | e in LINE.nodes["B"].inEdges :: e == P_TO_B;
  }
}
