/**
 Whatever the interleaving, and however often the executor crashes, pauses or resumes, a
 run that ends done ends in the states that the one-pass evaluation gives.
 */
module Confluence {
  import opened Values
  import opened Dags
  import opened States
  import opened Evaluation
  import opened Runs
  import opened RunSafety
  import opened RunTheorems

  ghost predicate HaltFree(d: Dag) {
    forall n | n in d.nodes :: d.nodes[n].kind != Halt
  }

  /** The action follows the script: outputs and verdicts are the world's. Failures may come at any time. */
  predicate Scripted(w: World, a: Action) {
    match a
    case Finish(n, output) => n in w.outputs && output == w.outputs[n]
    case Judge(n, verdict) => n in w.verdicts && verdict == w.verdicts[n]
    case _ => true
  }

  ghost predicate AllScripted(w: World, acts: seq<Action>) {
    forall a | a in acts :: Scripted(w, a)
  }

  /** Memory, store and verdicts all agree with the solution `f`, node by node. */
  ghost predicate OnCourse(d: Dag, w: World, f: States, s: Engine) {
    && Agrees(d, f, s.mem)
    && Agrees(d, f, s.rows)
    && forall n | n in s.verdicts :: n in w.verdicts && s.verdicts[n] == w.verdicts[n]
  }

  ghost predicate Setting(d: Dag, w: World, f: States) {
    WellFormed(d) && HaltFree(d) && SelfConditioned(d) && Covers(w, d) && Solves(d, w, f)
  }

  /** A node that may start, or must be skipped, does the same in the solution. */
  lemma Fate(d: Dag, w: World, f: States, st: States, n: NodeId)
    requires Setting(d, w, f) && st.Keys == d.nodes.Keys && Agrees(d, f, st) && n in d.nodes
    ensures n in f
    ensures Decide(d.nodes[n], st) == Ready ==> f[n] == Ran(d, w, n)
    ensures Decide(d.nodes[n], st) == Skip ==> f[n] == SKIP
  {
    hide Decide, Agrees;
    if Decide(d.nodes[n], st) != Blocked {
      DecisionAgrees(d, f, st, n);
    }
    assert f[n] == Evaluate(d, w, f, n);
  }

  lemma RunsOrIsSkipped(d: Dag, w: World, f: States, n: NodeId)
    requires Setting(d, w, f) && n in d.nodes
    ensures n in f && (f[n] == SKIP || f[n] == Ran(d, w, n))
    ensures Ran(d, w, n).status != Skipped
  {
    hide Decide;
    assert f[n] == Evaluate(d, w, f, n);
  }

  lemma OutcomeIsSimilar(d: Dag, w: World, n: NodeId, upstream: Value)
    requires Covers(w, d) && n in d.nodes && d.nodes[n].kind == Approval
    ensures Similar(d, n, Outcome(w.verdicts[n], upstream).output, Ran(d, w, n).output)
  {
    var a, b := Outcome(w.verdicts[n], upstream).output, Ran(d, w, n).output;
    assert a.fields - {"upstream_output"} == b.fields - {"upstream_output"};
  }

  lemma BegunAgrees(d: Dag, f: States, s: Engine, n: NodeId, decision: Decision)
    requires n in d.nodes && n in f && n in s.mem && d.nodes[n].kind != Approval
    requires RowAgrees(d, f, n, s.mem[n])
    requires decision == Ready ==> f[n].status != Skipped
    requires decision == Skip ==> f[n] == SKIP
    ensures n in Begun(s, n, decision).mem && RowAgrees(d, f, n, Begun(s, n, decision).mem[n])
  {
  }

  lemma FinishedAgrees(d: Dag, w: World, f: States, s: Engine, n: NodeId, refused: bool)
    requires Covers(w, d) && n in d.nodes && n in f && n in s.mem && d.nodes[n].kind != Approval
    requires s.mem[n].status == Running && RowAgrees(d, f, n, s.mem[n])
    requires f[n] == SKIP || f[n] == Ran(d, w, n)
    ensures RowAgrees(d, f, n, Ended(s, n, NodeState(if refused then Failed else Done, w.outputs[n])).mem[n])
  {
  }

  lemma JudgedAgrees(d: Dag, w: World, f: States, n: NodeId, upstream: Value)
    requires Covers(w, d) && n in d.nodes && n in f
    requires RowAgrees(d, f, n, OPEN)
    requires f[n] == SKIP || f[n] == Ran(d, w, n)
    ensures RowAgrees(d, f, n, Outcome(w.verdicts[n], upstream))
  {
    OutcomeIsSimilar(d, w, n, upstream);
  }

  predicate OnMemory(a: Action) {
    a.Begin? || a.Finish? || a.Break? || a.OpenApproval? || a.SkipNode? || a.TakeVerdict?
  }

  lemma HaltFreeNeverHalts(d: Dag, st: States)
    requires HaltFree(d)
    ensures !HaltTriggered(d, st)
  {
  }

  /** What is known about one node of a state that is on course. */
  ghost predicate Fated(d: Dag, w: World, f: States, s: Engine, n: NodeId) {
    && Covers(w, d) && n in d.nodes && n in s.mem && n in f
    && RowAgrees(d, f, n, s.mem[n])
    && Tidy(d.nodes[n], s.stage, ViewOf(s, n)) && (n in s.todo ==> d.nodes[n].kind != Approval)
    && (f[n] == SKIP || f[n] == Ran(d, w, n)) && Ran(d, w, n).status != Skipped
    && (Decide(d.nodes[n], s.mem) == Ready ==> f[n] == Ran(d, w, n))
    && (Decide(d.nodes[n], s.mem) == Skip ==> f[n] == SKIP)
    && (n in s.verdicts ==> s.verdicts[n] == w.verdicts[n])
  }

  lemma FateOf(d: Dag, w: World, f: States, s: Engine, n: NodeId)
    requires Setting(d, w, f) && Frame(d, s) && NodesSafe(d, s) && OnCourse(d, w, f, s) && n in d.nodes
    ensures Fated(d, w, f, s, n)
  {
    assert n in s.todo ==> d.nodes[n].kind != Approval by { assert LoopOk(d, Current(s), s.failed); }
    hide Decide, Ran, Tidy, RowTracks, Honest, RowAgrees, LoopsOk, Manned;
    assert NodeSafe(d.nodes[n], s.stage, ViewOf(s, n));
    assert n in s.mem;
    Fate(d, w, f, s.mem, n);
    RunsOrIsSkipped(d, w, f, n);
  }

  lemma BeginOnCourse(d: Dag, w: World, f: States, s: Engine, a: Action, n: NodeId)
    requires a == Begin(n)
    requires Fated(d, w, f, s, n) && Enabled(d, s, a) && Scripted(w, a) && HaltFree(d)
    ensures n in Apply(d, s, a).mem && RowAgrees(d, f, n, Apply(d, s, a).mem[n])
  {
    hide RowAgrees, Decide, Ran;
    BegunAgrees(d, f, s, n, Decide(d.nodes[n], s.mem));
  }

  lemma FinishOnCourse(d: Dag, w: World, f: States, s: Engine, a: Action, n: NodeId)
    requires (a.Finish? || a.Break?) && a.n == n && s.stage != Down
    requires Fated(d, w, f, s, n) && Enabled(d, s, a) && Scripted(w, a) && HaltFree(d)
    ensures n in Apply(d, s, a).mem && RowAgrees(d, f, n, Apply(d, s, a).mem[n])
  {
    hide RowAgrees, Decide, Ran, Refused;
    AnyFailureAgrees(d, f, n);
    FinishedAgrees(d, w, f, s, n, Refused(d.nodes[n], w.outputs[n]));
  }

  lemma DecideOnCourse(d: Dag, w: World, f: States, s: Engine, a: Action, n: NodeId)
    requires (a.OpenApproval? || a.SkipNode?) && a.n == n
    requires Fated(d, w, f, s, n) && Enabled(d, s, a) && Scripted(w, a) && HaltFree(d)
    ensures n in Apply(d, s, a).mem && RowAgrees(d, f, n, Apply(d, s, a).mem[n])
  {
    hide RowAgrees, Decide, Ran, HaltTriggered, Tidy;
    HaltFreeNeverHalts(d, s.mem);
    OpenedAgrees(d, f, n);
  }

  lemma VerdictOnCourse(d: Dag, w: World, f: States, s: Engine, a: Action, n: NodeId)
    requires a.TakeVerdict? && a.n == n
    requires Fated(d, w, f, s, n) && Enabled(d, s, a) && Scripted(w, a) && HaltFree(d)
    ensures n in Apply(d, s, a).mem && RowAgrees(d, f, n, Apply(d, s, a).mem[n])
  {
    hide RowAgrees, Decide, Ran, Outcome;
    JudgedAgrees(d, w, f, n, a.upstream);
  }

  lemma TargetOnCourse(d: Dag, w: World, f: States, s: Engine, a: Action, n: NodeId)
    requires OnMemory(a) && a.n == n
    requires Fated(d, w, f, s, n) && Enabled(d, s, a) && Scripted(w, a) && HaltFree(d)
    ensures n in Apply(d, s, a).mem && RowAgrees(d, f, n, Apply(d, s, a).mem[n])
  {
    hide Fated, RowAgrees, Apply, HaltFree;
    if a.Begin? {
      BeginOnCourse(d, w, f, s, a, n);
    } else if a.Finish? || a.Break? {
      FinishOnCourse(d, w, f, s, a, n);
    } else if a.OpenApproval? || a.SkipNode? {
      DecideOnCourse(d, w, f, s, a, n);
    } else {
      VerdictOnCourse(d, w, f, s, a, n);
    }
  }

  lemma AnyFailureAgrees(d: Dag, f: States, n: NodeId)
    requires n in d.nodes && n in f
    ensures RowAgrees(d, f, n, NodeState(Failed, Null)) && RowAgrees(d, f, n, FRESH)
  {
  }

  lemma OpenedAgrees(d: Dag, f: States, n: NodeId)
    requires n in d.nodes && n in f
    ensures f[n].status != Skipped && d.nodes[n].kind == Approval ==> RowAgrees(d, f, n, OPEN)
    ensures f[n] == SKIP ==> RowAgrees(d, f, n, SKIP)
  {
  }

  lemma OtherMemory(d: Dag, s: Engine, a: Action, n: NodeId)
    requires Frame(d, s) && Enabled(d, s, a) && n in d.nodes && !(OnMemory(a) && a.n == n)
    ensures n in Apply(d, s, a).mem
    ensures Apply(d, s, a).mem[n] == if a == Restore then Restored(d, s.rows)[n] else s.mem[n]
  {
    hide Decide, Refused, Settled, HaltTriggered, RejectionAborts;
    hide InNextWave, AllTerminal, SomeWaiting, Restored, Outcome;
    hide LoopsOk, Manned, Parked, AllReturned, Proceeds, NothingReady;
  }

  lemma RowsAfter(d: Dag, s: Engine, a: Action, n: NodeId)
    requires Frame(d, s) && Enabled(d, s, a) && n in Apply(d, s, a).rows
    ensures n in d.nodes
    ensures || (n in s.rows && Apply(d, s, a).rows[n] == s.rows[n])
            || (n in s.mem && Apply(d, s, a).rows[n] == s.mem[n])
            || (&& n in s.rows && n in s.verdicts && a.WriteVerdict? && a.n == n && s.rows[n].status == Waiting
                && Apply(d, s, a).rows[n] == Outcome(s.verdicts[n], a.upstream))
  {
    hide Decide, Refused, Settled, HaltTriggered, RejectionAborts, InNextWave, Restored;
    hide LoopsOk, Manned, Parked, AllReturned, Proceeds, NothingReady, AllTerminal, SomeWaiting;
  }

  lemma VerdictsAfter(d: Dag, w: World, s: Engine, a: Action, n: NodeId)
    requires Enabled(d, s, a) && Scripted(w, a) && n in Apply(d, s, a).verdicts
    requires n in s.verdicts ==> n in w.verdicts && s.verdicts[n] == w.verdicts[n]
    ensures n in w.verdicts && Apply(d, s, a).verdicts[n] == w.verdicts[n]
  {
    hide Decide, Refused, Settled, HaltTriggered, RejectionAborts, InNextWave, Restored, Outcome;
    hide Parked, AllReturned, Proceeds, NothingReady, AllTerminal, SomeWaiting;
  }

  lemma RestoredAgrees(d: Dag, f: States, rows: States, n: NodeId)
    requires Agrees(d, f, rows) && n in d.nodes && n in f
    ensures RowAgrees(d, f, n, Restored(d, rows)[n])
  {
  }

  lemma MemoryOnCourse(d: Dag, w: World, f: States, s: Engine, a: Action, n: NodeId)
    requires Setting(d, w, f) && Safe(d, s) && OnCourse(d, w, f, s)
    requires Enabled(d, s, a) && Scripted(w, a) && n in d.nodes
    ensures n in f && n in Apply(d, s, a).mem && RowAgrees(d, f, n, Apply(d, s, a).mem[n])
  {
    FateOf(d, w, f, s, n);
    hide RowAgrees, Apply, Enabled, NodesSafe, Fated, DoneIsFinal, Scripted, SelfConditioned, WellFormed;
    assert n in f && n in s.mem;
    if OnMemory(a) && a.n == n {
      TargetOnCourse(d, w, f, s, a, n);
    } else {
      OtherMemory(d, s, a, n);
      RestoredAgrees(d, f, s.rows, n);
    }
  }

  lemma RowOnCourse(d: Dag, w: World, f: States, s: Engine, a: Action, n: NodeId)
    requires Setting(d, w, f) && Safe(d, s) && OnCourse(d, w, f, s)
    requires Enabled(d, s, a) && n in Apply(d, s, a).rows
    ensures n in d.nodes && n in f && RowAgrees(d, f, n, Apply(d, s, a).rows[n])
  {
    RowsAfter(d, s, a, n);
    FateOf(d, w, f, s, n);
    hide RowAgrees, Apply, Enabled, DoneIsFinal, SelfConditioned, WellFormed, Outcome, Ran, Decide;
    if n in s.rows && n in s.verdicts && s.rows[n].status == Waiting && a.WriteVerdict? && a.n == n {
      assert NodeSafe(d.nodes[n], s.stage, ViewOf(s, n));
      assert s.rows[n] == OPEN;
      JudgedAgrees(d, w, f, n, a.upstream);
    }
  }

  lemma MemoryAgrees(d: Dag, w: World, f: States, s: Engine, a: Action)
    requires Setting(d, w, f) && Safe(d, s) && OnCourse(d, w, f, s)
    requires Enabled(d, s, a) && Scripted(w, a)
    ensures Agrees(d, f, Apply(d, s, a).mem)
  {
    assert Apply(d, s, a).mem.Keys == d.nodes.Keys by { FrameStep(d, s, a); }
    hide RowAgrees, Apply, Enabled, OnCourse, Setting, Safe, Scripted;
    forall n | n in Apply(d, s, a).mem
      ensures n in d.nodes && n in f && RowAgrees(d, f, n, Apply(d, s, a).mem[n])
    {
      MemoryOnCourse(d, w, f, s, a, n);
    }
  }

  lemma RowsAgree(d: Dag, w: World, f: States, s: Engine, a: Action)
    requires Setting(d, w, f) && Safe(d, s) && OnCourse(d, w, f, s)
    requires Enabled(d, s, a)
    ensures Agrees(d, f, Apply(d, s, a).rows)
  {
    hide RowAgrees, Apply, Enabled, OnCourse, Setting, Safe;
    forall n | n in Apply(d, s, a).rows
      ensures n in d.nodes && n in f && RowAgrees(d, f, n, Apply(d, s, a).rows[n])
    {
      RowOnCourse(d, w, f, s, a, n);
    }
  }

  lemma OnCourseStep(d: Dag, w: World, f: States, s: Engine, a: Action)
    requires Setting(d, w, f) && Safe(d, s) && OnCourse(d, w, f, s)
    requires Enabled(d, s, a) && Scripted(w, a)
    ensures OnCourse(d, w, f, Apply(d, s, a))
  {
    MemoryAgrees(d, w, f, s, a);
    RowsAgree(d, w, f, s, a);
    hide Agrees, Apply, Enabled, Setting, Safe, Scripted;
    forall n | n in Apply(d, s, a).verdicts
      ensures n in w.verdicts && Apply(d, s, a).verdicts[n] == w.verdicts[n]
    {
      VerdictsAfter(d, w, s, a, n);
    }
  }

  lemma {:induction false} OnCourseRun(d: Dag, w: World, f: States, s: Engine, acts: seq<Action>)
    requires Setting(d, w, f) && Safe(d, s) && OnCourse(d, w, f, s)
    requires Valid(d, s, acts) && AllScripted(w, acts)
    ensures Safe(d, Exec(d, s, acts)) && OnCourse(d, w, f, Exec(d, s, acts))
    decreases |acts|
  {
    if acts != [] {
      hide Setting, Safe, OnCourse, Scripted, Enabled, Apply;
      assert Scripted(w, acts[0]);
      SafeStep(d, s, acts[0]);
      OnCourseStep(d, w, f, s, acts[0]);
      OnCourseRun(d, w, f, Apply(d, s, acts[0]), acts[1..]);
    }
  }

  /**
   Confluence and crash equivalence. For a validated halt-free graph whose conditions read
   their own edge's source, every run from the start, under any interleaving of tasks,
   writes, approvals, time-outs, pauses, failures, crashes and resumes, that ends done has
   exactly the states of the one-pass evaluation in topological order.
   */
  lemma EveryDoneRunIsTheOnePass(d: Dag, w: World, acts: seq<Action>, order: seq<NodeId>)
    requires WellFormed(d) && HaltFree(d) && SelfConditioned(d) && Covers(w, d)
    requires Topological(d.edges, order) && (set n | n in order) == d.nodes.Keys
    requires Valid(d, Init(d), acts) && AllScripted(w, acts)
    requires Exec(d, Init(d), acts).stage == Stopped(DoneRun)
    ensures var final, f := Exec(d, Init(d), acts).mem, OnePass(d, w, order);
            && final.Keys == f.Keys == d.nodes.Keys
            && forall n | n in d.nodes ::
                 final[n].status == f[n].status && Similar(d, n, final[n].output, f[n].output)
  {
    var f := OnePass(d, w, order);
    OnePassIsTheSolution(d, w, order, f);
    hide OnePass, Topological, WellFormed, SelfConditioned, HaltFree, Exec, Valid, AllScripted, Similar, RowAgrees;
    assert Setting(d, w, f);
    StartIsOnCourse(d, w, f);
    OnCourseRun(d, w, f, Init(d), acts);
    TerminalAgrees(d, f, Exec(d, Init(d), acts).mem);
  }

  lemma StartIsOnCourse(d: Dag, w: World, f: States)
    requires Setting(d, w, f)
    ensures Safe(d, Init(d)) && OnCourse(d, w, f, Init(d))
  {
    hide WellFormed, SelfConditioned;
  }

  /** Two runs of one graph in one world that both end done end alike, crashed on the way or not. */
  lemma DoneRunsAgree(d: Dag, w: World, one: seq<Action>, two: seq<Action>)
    requires WellFormed(d) && HaltFree(d) && SelfConditioned(d) && Covers(w, d)
    requires Valid(d, Init(d), one) && AllScripted(w, one) && Exec(d, Init(d), one).stage == Stopped(DoneRun)
    requires Valid(d, Init(d), two) && AllScripted(w, two) && Exec(d, Init(d), two).stage == Stopped(DoneRun)
    ensures var a, b := Exec(d, Init(d), one).mem, Exec(d, Init(d), two).mem;
            a.Keys == b.Keys && forall n | n in a :: a[n].status == b[n].status
  {
    assert ClosedEdges(d.nodes.Keys, d.edges);
    var order := AcyclicHasOrder(d.nodes.Keys, d.edges);
    assert (set n | n in order) == d.nodes.Keys;
    hide OnePass, Topological, WellFormed, SelfConditioned, HaltFree, Exec, Valid, AllScripted, Similar, RowAgrees;
    EveryDoneRunIsTheOnePass(d, w, one, order);
    EveryDoneRunIsTheOnePass(d, w, two, order);
  }
}
