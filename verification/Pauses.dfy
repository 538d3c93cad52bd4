/**
 Pausing at a boundary and going on, from the store or on the same executor, changes nothing, halt nodes
 included, also if approvals are judged while the run is paused, elsewhere or on that executor.
 */
module Pauses {
  import opened Values
  import opened Dags
  import opened States
  import opened Runs
  import opened RunSafety
  import opened RunTheorems

  // ---------------------------------------------------------------------------
  // The run without the pauses
  // ---------------------------------------------------------------------------

  /** The upstream outputs that a judged row records. */
  function Recorded(row: NodeState): Value {
    if row.output.Obj? && "upstream_output" in row.output.fields then row.output.fields["upstream_output"] else Null
  }

  /** Take the verdicts on record for the approvals among the first `k` nodes that the store has closed already. */
  function CatchUp(d: Dag, s: Engine, k: nat): seq<Action>
    requires k <= |d.order|
  {
    if k == 0 then []
    else
      var n := d.order[k - 1];
      CatchUp(d, s, k - 1) +
      if JudgedElsewhere(s, n) then [TakeVerdict(n, Recorded(s.rows[n])), Persist(n)] else []
  }

  /**
   The run without its pauses. A pause request is dropped. At a stop for a pause the run goes on: it
   takes the verdicts that the store has already; and while the paused run sleeps, the other takes
   each verdict when its row is written, be it by somebody else or by the paused executor itself.
   */
  ghost function Erase(d: Dag, s: Engine, acts: seq<Action>): seq<Action>
    requires Valid(d, s, acts)
    decreases |acts|
  {
    if acts == [] then []
    else
      var a, t, rest := acts[0], Apply(d, s, acts[0]), acts[1..];
      if a == RequestPause then Erase(d, t, rest)
      else if a == Stop(Paused) then CatchUp(d, s, |d.order|) + Asleep(d, t, rest)
      else [a] + Erase(d, t, rest)
  }

  ghost function Asleep(d: Dag, s: Engine, acts: seq<Action>): seq<Action>
    requires Valid(d, s, acts)
    decreases |acts|
  {
    if acts == [] then []
    else
      var a, t, rest := acts[0], Apply(d, s, acts[0]), acts[1..];
      if a == Restore || a == Rerun then Erase(d, t, rest)
      else if a.Judge? then [a] + Asleep(d, t, rest)
      else if a.WriteVerdict? then [TakeVerdict(a.n, a.upstream), Persist(a.n)] + Asleep(d, t, rest)
      else if a.Persist? then [TakeVerdict(a.n, Recorded(s.mem[a.n])), a] + Asleep(d, t, rest)
      else Asleep(d, t, rest)
  }

  /**
   Whoever pauses resumes: when the run stops for a pause, no other call of it is under way and no row
   is outstanding; then approvals may be judged and written, elsewhere or on the paused executor, further
   pauses requested, and the process may die, until an executor is rebuilt from the rows or `run` is
   called on the paused one. That must have nothing left to write then and no verdict to learn of.
   */
  ghost predicate PausesResume(d: Dag, s: Engine, acts: seq<Action>)
    requires Valid(d, s, acts)
    decreases |acts|
  {
    acts == [] ||
    var t := Apply(d, s, acts[0]);
    if acts[0] == Stop(Paused) then AllReturned(t) && t.dirty == {} && SleepsWell(d, t, acts[1..])
    else PausesResume(d, t, acts[1..])
  }

  ghost predicate SleepsWell(d: Dag, s: Engine, acts: seq<Action>)
    requires Valid(d, s, acts)
    decreases |acts|
  {
    acts != [] &&
    var t := Apply(d, s, acts[0]);
    match acts[0]
    case Restore => PausesResume(d, t, acts[1..])
    case Judge(_, _) => SleepsWell(d, t, acts[1..])
    case WriteVerdict(_, _) => SleepsWell(d, t, acts[1..])
    case RequestPause => SleepsWell(d, t, acts[1..])
    case Crash => SleepsWell(d, t, acts[1..])
    case TakeVerdict(_, _) => SleepsWell(d, t, acts[1..])
    case Persist(n) => n in s.rows && s.rows[n].status == Waiting && s.mem[n].status != Waiting
      && SleepsWell(d, t, acts[1..])
    case Rerun => s.dirty == {} && (forall n :: !JudgedElsewhere(s, n)) && PausesResume(d, t, acts[1..])
    case _ => false
  }

  /** The waves a run launches, in order. */
  ghost function Launched(d: Dag, s: Engine, acts: seq<Action>): seq<set<NodeId>>
    requires Valid(d, s, acts)
    decreases |acts|
  {
    if acts == [] then []
    else
      var t := Apply(d, s, acts[0]);
      (if acts[0] == Launch then [t.todo] else []) + Launched(d, t, acts[1..])
  }

  /** While a pause is requested no wave is launched: the boundary stops, unless everything has come to an end. */
  lemma NoWaveWhilePausing(d: Dag, s: Engine)
    requires s.pause
    ensures !Enabled(d, s, Launch)
    ensures !Enabled(d, s, Stop(WaitingApproval))
    ensures Enabled(d, s, Stop(DoneRun)) ==> forall n | n in s.mem ::
              s.mem[n].status == Done || s.mem[n].status == Skipped || s.mem[n].status == Rejected
              || s.mem[n].status == RejectedCanceled
  {
    hide Decide, RejectionAborts, HaltTriggered, Settled;
    forall n | n in d.nodes && InNextWave(d, s.mem, n)
      ensures n in s.mem && !Terminal(s.mem[n].status)
    {
    }
  }

  // ---------------------------------------------------------------------------
  // Awake
  // ---------------------------------------------------------------------------

  predicate SameUpToPause(s: Engine, t: Engine) {
    t == s.(pause := false)
  }

  lemma NodeStepUpToPause(d: Dag, s: Engine, t: Engine, a: Action)
    requires SameUpToPause(s, t) && Enabled(d, s, a) && a != RequestPause && !OnCalls(a)
    ensures Enabled(d, t, a) && SameUpToPause(Apply(d, s, a), Apply(d, t, a))
  {
    if a.Begin? || a.Finish? || a.Break? {
      TaskStepUpToPause(d, s, t, a);
    } else {
      hide ApprovalOpen, Skippable, Decide, Outcome;
    }
  }

  lemma TaskStepUpToPause(d: Dag, s: Engine, t: Engine, a: Action)
    requires SameUpToPause(s, t) && Enabled(d, s, a) && (a.Begin? || a.Finish? || a.Break?)
    ensures Enabled(d, t, a) && SameUpToPause(Apply(d, s, a), Apply(d, t, a))
  {
    if a.Begin? {
      BegunUpToPause(s, t, a.n, Decide(d.nodes[a.n], s.mem));
    } else {
      EndedUpToPause(s, t, a.n, EndOf(d, a));
    }
    hide Decide, Refused, Begun, Ended, SameUpToPause;
    assert t == s.(pause := false) by { UpToPauseIs(s, t); }
  }

  lemma UpToPauseIs(s: Engine, t: Engine)
    requires SameUpToPause(s, t)
    ensures t == s.(pause := false)
  {
  }

  /** The state in which a node's task leaves it. */
  function EndOf(d: Dag, a: Action): NodeState
    requires a.Finish? || a.Break?
    requires a.n in d.nodes
  {
    if a.Break? then NodeState(Failed, Null)
    else NodeState(if Refused(d.nodes[a.n], a.output) then Failed else Done, a.output)
  }

  lemma BegunUpToPause(s: Engine, t: Engine, n: NodeId, decision: Decision)
    requires SameUpToPause(s, t) && n in s.mem
    ensures SameUpToPause(Begun(s, n, decision), Begun(t, n, decision))
  {
  }

  lemma EndedUpToPause(s: Engine, t: Engine, n: NodeId, ns: NodeState)
    requires SameUpToPause(s, t)
    ensures SameUpToPause(Ended(s, n, ns), Ended(t, n, ns))
  {
  }

  lemma CallStepUpToPause(d: Dag, s: Engine, t: Engine, a: Action)
    requires SameUpToPause(s, t) && Enabled(d, s, a) && !a.Stop? && !a.Rerun? && !a.Switch? && OnCalls(a)
    ensures Enabled(d, t, a) && SameUpToPause(Apply(d, s, a), Apply(d, t, a))
  {
    SameCalls(s, t);
    SameGuards(d, s, t);
    hide Quiet, Proceeds, NothingReady, InNextWave, RejectionAborts, Parked;
    hide AllReturned, SomeWaiting, AllTerminal, Restored, Written;
  }

  lemma TurnUpToPause(d: Dag, s: Engine, t: Engine, a: Action)
    requires SameUpToPause(s, t) && Enabled(d, s, a) && (a.Rerun? || a.Switch?)
    ensures Enabled(d, t, a) && SameUpToPause(Apply(d, s, a), Apply(d, t, a))
  {
    SameCalls(s, t);
    hide Parked;
  }

  lemma StopUpToPause(d: Dag, s: Engine, t: Engine, result: Result)
    requires SameUpToPause(s, t) && Enabled(d, s, Stop(result)) && result != Paused
    ensures Enabled(d, t, Stop(result)) && SameUpToPause(Apply(d, s, Stop(result)), Apply(d, t, Stop(result)))
  {
    SameGuards(d, s, t);
    hide Quiet, Proceeds, NothingReady, RejectionAborts, SomeWaiting, AllTerminal;
  }

  lemma SameGuards(d: Dag, s: Engine, t: Engine)
    requires SameUpToPause(s, t)
    ensures Written(t) == Written(s) && Quiet(d, t) == Quiet(d, s) && NothingReady(d, t) == NothingReady(d, s)
    ensures Proceeds(d, s) ==> Proceeds(d, t)
  {
    hide Settled, InNextWave, RejectionAborts, AllTerminal;
  }

  lemma StepUpToPause(d: Dag, s: Engine, t: Engine, a: Action)
    requires SameUpToPause(s, t) && Enabled(d, s, a)
    requires a != RequestPause && a != Stop(Paused)
    ensures Enabled(d, t, a) && SameUpToPause(Apply(d, s, a), Apply(d, t, a))
  {
    hide Enabled, Apply, SameUpToPause;
    if a.Stop? {
      StopUpToPause(d, s, t, a.result);
    } else if a.Rerun? || a.Switch? {
      TurnUpToPause(d, s, t, a);
    } else if OnCalls(a) {
      CallStepUpToPause(d, s, t, a);
    } else {
      NodeStepUpToPause(d, s, t, a);
    }
  }

  lemma SameCalls(s: Engine, t: Engine)
    requires SameUpToPause(s, t)
    ensures Current(t) == Current(s) && Parked(t) == Parked(s) && AllReturned(t) == AllReturned(s)
  {
  }

  // ---------------------------------------------------------------------------
  // Asleep
  // ---------------------------------------------------------------------------

  /** The executor as a restart would build it from the rows. */
  function Rebuilt(d: Dag, rows: States, verdicts: map<NodeId, Verdict>): Engine {
    Init(d).(mem := Restored(d, rows), rows := rows, verdicts := verdicts)
  }

  /**
   After these actions the run has taken what the rows say of the judged among the first `k` nodes, and
   nothing else has changed.
   */
  ghost predicate CaughtUpTo(d: Dag, s: Engine, t: Engine, acts: seq<Action>, k: nat)
    requires k <= |d.order|
  {
    && Valid(d, t, acts) && Launched(d, t, acts) == []
    && var u := Exec(d, t, acts);
    && u == t.(mem := u.mem) && u.mem.Keys == t.mem.Keys == s.mem.Keys
    && forall n | n in s.mem :: u.mem[n] == if n in d.order[..k] && JudgedElsewhere(s, n) then s.rows[n] else s.mem[n]
  }

  /** Verdict by verdict, the run that has not stopped takes what the rows say already. */
  lemma {:induction false} CatchesUp(d: Dag, s: Engine, t: Engine, k: nat)
    requires k <= |d.order| && t.stage != Down && t.dirty == {} && t.owes == {}
    requires t.mem == s.mem && t.rows == s.rows && t.verdicts == s.verdicts
    requires forall i, j | 0 <= i < j < |d.order| :: d.order[i] != d.order[j]
    ensures CaughtUpTo(d, s, t, CatchUp(d, s, k), k)
  {
    hide Enabled, Apply, JudgedElsewhere;
    if k > 0 {
      CatchesUp(d, s, t, k - 1);
      var n, before := d.order[k - 1], CatchUp(d, s, k - 1);
      hide CaughtUpTo;
      if JudgedElsewhere(s, n) {
        CatchesUpOne(d, s, t, before, k);
      } else {
        assert CatchUp(d, s, k) == before;
        PassesOver(d, s, t, before, k);
      }
    }
  }

  lemma CatchesUpOne(d: Dag, s: Engine, t: Engine, before: seq<Action>, k: nat)
    requires 0 < k <= |d.order| && forall i, j | 0 <= i < j < |d.order| :: d.order[i] != d.order[j]
    requires t.stage != Down && t.dirty == {} && t.owes == {} && t.rows == s.rows && t.verdicts == s.verdicts
    requires CaughtUpTo(d, s, t, before, k - 1) && JudgedElsewhere(s, d.order[k - 1])
    ensures var n := d.order[k - 1];
            CaughtUpTo(d, s, t, before + [TakeVerdict(n, Recorded(s.rows[n])), Persist(n)], k)
  {
    hide Enabled, Apply, Valid, Exec, Launched;
    var n := d.order[k - 1];
    var more, u := [TakeVerdict(n, Recorded(s.rows[n])), Persist(n)], Exec(d, t, before);
    assert d.order[..k] == d.order[..k - 1] + [n] && n !in d.order[..k - 1];
    assert u.mem[n] == s.mem[n];
    TakesVerdict(d, u, n, Recorded(s.rows[n]));
    ExecConcat(d, t, before, more);
    LaunchedConcat(d, t, before, more);
    assert s.rows[n := s.rows[n]] == s.rows;
    assert Outcome(s.verdicts[n], Recorded(s.rows[n])) == s.rows[n];
    hide Outcome, Recorded, JudgedElsewhere;
  }

  lemma PassesOver(d: Dag, s: Engine, t: Engine, acts: seq<Action>, k: nat)
    requires 0 < k <= |d.order| && CaughtUpTo(d, s, t, acts, k - 1) && !JudgedElsewhere(s, d.order[k - 1])
    ensures CaughtUpTo(d, s, t, acts, k)
  {
    hide JudgedElsewhere, Valid, Exec, Launched;
    assert d.order[..k] == d.order[..k - 1] + [d.order[k - 1]];
  }

  lemma OneAction(d: Dag, s: Engine, a: Action)
    requires Enabled(d, s, a) && a != Launch
    ensures Valid(d, s, [a]) && Exec(d, s, [a]) == Apply(d, s, a) && Launched(d, s, [a]) == []
  {
    hide Enabled, Apply;
    assert [a][0] == a && [a][1..] == [];
  }

  lemma TakesVerdict(d: Dag, s: Engine, n: NodeId, upstream: Value)
    requires s.stage != Down && s.dirty == {} && s.owes == {} && n in s.verdicts && n in s.mem
             && s.mem[n].status == Waiting
    ensures var two := [TakeVerdict(n, upstream), Persist(n)];
            var ns := Outcome(s.verdicts[n], upstream);
            && Valid(d, s, two) && Launched(d, s, two) == []
            && Exec(d, s, two) == s.(mem := s.mem[n := ns], rows := s.rows[n := ns])
  {
    hide Outcome, Valid, Exec, Launched;
    var a, b := TakeVerdict(n, upstream), Persist(n);
    OneAction(d, s, a);
    OneAction(d, Apply(d, s, a), b);
    assert [a, b] == [a] + [b];
    ExecConcat(d, s, [a], [b]);
    LaunchedConcat(d, s, [a], [b]);
    assert s.dirty + {n} - {n} == {};
  }

  lemma {:induction false} LaunchedConcat(d: Dag, s: Engine, a: seq<Action>, b: seq<Action>)
    requires Valid(d, s, a) && Valid(d, Exec(d, s, a), b)
    ensures Valid(d, s, a + b) && Launched(d, s, a + b) == Launched(d, s, a) + Launched(d, Exec(d, s, a), b)
    decreases |a|
  {
    hide Enabled, Apply;
    ExecConcat(d, s, a, b);
    if a == [] {
      assert a + b == b;
    } else {
      assert (a + b)[1..] == a[1..] + b && (a + b)[0] == a[0];
      LaunchedConcat(d, Apply(d, s, a[0]), a[1..], b);
    }
  }

  /** What a checkpoint would give back while no task is left and nothing is outstanding. */
  lemma RestoredAtRest(d: Dag, s: Engine, n: NodeId)
    requires Safe(d, s) && s.stage != Down && s.dirty == {} && s.failed == {} && s.live == {} && n in d.nodes
    ensures n in s.mem
    ensures Restored(d, s.rows)[n] == if JudgedElsewhere(s, n) then s.rows[n] else s.mem[n]
  {
    SafeCheckpoint(d, s, n);
    hide Honest, LoopsOk, Manned;
    assert NodeSafe(d.nodes[n], s.stage, ViewOf(s, n));
  }

  /** What is known of the state in which a run stops for a pause. */
  lemma AtThePause(d: Dag, s: Engine)
    requires Safe(d, s) && Enabled(d, s, Stop(Paused))
    requires AllReturned(Apply(d, s, Stop(Paused))) && s.dirty == {}
    ensures s == Rebuilt(d, s.rows, s.verdicts).(mem := s.mem, pause := s.pause)
    ensures s.mem.Keys == d.nodes.Keys
    ensures forall n | n in s.mem :: Restored(d, s.rows)[n] == if JudgedElsewhere(s, n) then s.rows[n] else s.mem[n]
  {
    ReturnedIsGone(d, s);
    assert forall n :: !ByCall(s, n);
    assert s.live == {};
    forall n | n in s.mem
      ensures Restored(d, s.rows)[n] == if JudgedElsewhere(s, n) then s.rows[n] else s.mem[n]
    {
      RestoredAtRest(d, s, n);
    }
  }

  /** No call of `run` is under way, no task is left, and at most verdicts are still to be written. */
  ghost predicate Resting(s: Engine) {
    || s.stage == Down
    || (s.stage == Stopped(Paused) && s.aside == multiset{} && s.todo == {} && s.mine == {} && s.live == {}
        && s.failed == {} && s.owes == {})
  }

  lemma RestsAtThePause(d: Dag, s: Engine)
    requires Safe(d, s) && Enabled(d, s, Stop(Paused))
    requires AllReturned(Apply(d, s, Stop(Paused))) && s.dirty == {}
    ensures Resting(Apply(d, s, Stop(Paused)))
  {
    AtThePause(d, s);
    hide Safe, Proceeds, Quiet, Restored, AllReturned, JudgedElsewhere;
  }

  lemma RestsOn(d: Dag, s: Engine, a: Action)
    requires Resting(s) && Enabled(d, s, a)
    requires a.Judge? || a.WriteVerdict? || a == RequestPause || a == Crash || a.TakeVerdict? || a.Persist?
    ensures Resting(Apply(d, s, a))
  {
    hide Outcome;
  }

  /** `run` is called on the resting executor: with nothing outstanding it is the one that a restart would build. */
  lemma GoesOn(d: Dag, s: Engine)
    requires Safe(d, s) && Resting(s) && Enabled(d, s, Rerun) && s.dirty == {} && forall n :: !JudgedElsewhere(s, n)
    ensures SameUpToPause(Apply(d, s, Rerun), Rebuilt(d, s.rows, s.verdicts))
  {
    forall n | n in d.nodes
      ensures n in s.mem && Restored(d, s.rows)[n] == s.mem[n]
    {
      RestoredAtRest(d, s, n);
    }
    assert s.mem.Keys == d.nodes.Keys;
    hide Safe, JudgedElsewhere;
    assert s.mem == Restored(d, s.rows);
    assert Finished(Current(s));
  }

  lemma RestoredByOrder(d: Dag, s: Engine, mem: States)
    requires (set n | n in d.order) == d.nodes.Keys && s.mem.Keys == d.nodes.Keys && mem.Keys == s.mem.Keys
    requires forall n | n in s.mem :: Restored(d, s.rows)[n] == if JudgedElsewhere(s, n) then s.rows[n] else s.mem[n]
    requires forall n | n in s.mem ::
             mem[n] == if n in d.order[..|d.order|] && JudgedElsewhere(s, n) then s.rows[n] else s.mem[n]
    ensures mem == Restored(d, s.rows)
  {
    hide Restored, JudgedElsewhere;
    assert d.order[..|d.order|] == d.order;
    forall n | n in mem
      ensures mem[n] == Restored(d, s.rows)[n]
    {
      assert n in (set m | m in d.order);
    }
  }

  /** Having caught up, the run that has not stopped is the executor that a restart would build. */
  lemma CaughtUp(d: Dag, s: Engine, t: Engine)
    requires Coherent(d) && Safe(d, s) && SameUpToPause(s, t) && Enabled(d, s, Stop(Paused))
    requires AllReturned(Apply(d, s, Stop(Paused))) && s.dirty == {}
    ensures Valid(d, t, CatchUp(d, s, |d.order|)) && Launched(d, t, CatchUp(d, s, |d.order|)) == []
    ensures Exec(d, t, CatchUp(d, s, |d.order|)) == Rebuilt(d, s.rows, s.verdicts)
  {
    AtThePause(d, s);
    hide Safe, Enabled, Apply, AllReturned, Restored, JudgedElsewhere, CatchUp, Valid, Exec, Launched;
    CatchesUp(d, s, t, |d.order|);
    RestoredByOrder(d, s, Exec(d, t, CatchUp(d, s, |d.order|)).mem);
  }

  /** Judging reads and writes the approvals table alone, so both runs do it. */
  lemma JudgedAsleep(d: Dag, s: Engine, t: Engine, a: Action)
    requires a.Judge? && Enabled(d, s, a) && t == Rebuilt(d, s.rows, s.verdicts)
    ensures Enabled(d, t, a) && Apply(d, t, a) == Rebuilt(d, Apply(d, s, a).rows, Apply(d, s, a).verdicts)
  {
    hide Restored;
  }

  /** Where the row of an approval is written, the other run takes the verdict itself. */
  lemma TakenInstead(d: Dag, rows: States, verdicts: map<NodeId, Verdict>, n: NodeId, upstream: Value)
    requires rows.Keys <= d.nodes.Keys && n in rows && rows[n].status == Waiting && n in verdicts
    ensures var t := Rebuilt(d, rows, verdicts);
            var two := [TakeVerdict(n, upstream), Persist(n)];
            && Valid(d, t, two) && Launched(d, t, two) == []
            && Exec(d, t, two) == Rebuilt(d, rows[n := Outcome(verdicts[n], upstream)], verdicts)
  {
    hide Valid, Exec, Launched, Outcome;
    TakesVerdict(d, Rebuilt(d, rows, verdicts), n, upstream);
    OutcomeIsKept(d, rows, n, verdicts[n], upstream);
  }

  lemma OutcomeIsKept(d: Dag, rows: States, n: NodeId, v: Verdict, upstream: Value)
    requires n in d.nodes
    ensures Restored(d, rows)[n := Outcome(v, upstream)] == Restored(d, rows[n := Outcome(v, upstream)])
  {
  }

  /** A verdict that the paused executor has taken is one on record. */
  lemma TakenIsOnRecord(d: Dag, s: Engine, n: NodeId)
    requires Safe(d, s) && s.stage != Down && n in s.mem && n in s.rows
    requires s.rows[n].status == Waiting && s.mem[n].status != Waiting
    ensures n in d.nodes && n in s.verdicts && s.mem[n] == Outcome(s.verdicts[n], Recorded(s.mem[n]))
  {
    assert n in d.nodes;
    hide Honest, LoopsOk, Manned;
    assert NodeSafe(d.nodes[n], s.stage, ViewOf(s, n));
  }

  lemma PersistAsleep(d: Dag, s: Engine, n: NodeId)
    requires Safe(d, s) && Enabled(d, s, Persist(n))
    requires n in s.rows && s.rows[n].status == Waiting && s.mem[n].status != Waiting
    ensures n in s.mem && n in s.verdicts && Apply(d, s, Persist(n)).verdicts == s.verdicts
    ensures Apply(d, s, Persist(n)).rows == s.rows[n := Outcome(s.verdicts[n], Recorded(s.mem[n]))]
  {
    TakenIsOnRecord(d, s, n);
    hide Safe, Recorded, Outcome;
  }

  lemma WriteAsleep(d: Dag, s: Engine, a: Action)
    requires a.WriteVerdict? && Enabled(d, s, a)
    ensures a.n in s.verdicts && a.n in s.rows && s.rows[a.n].status == Waiting
    ensures Apply(d, s, a).verdicts == s.verdicts
    ensures Apply(d, s, a).rows == s.rows[a.n := Outcome(s.verdicts[a.n], a.upstream)]
  {
  }

  lemma NothingChangesAsleep(d: Dag, s: Engine, a: Action)
    requires Enabled(d, s, a) && (a == RequestPause || a == Crash || a.TakeVerdict?)
    ensures Apply(d, s, a).rows == s.rows && Apply(d, s, a).verdicts == s.verdicts
  {
  }

  lemma WakesUp(d: Dag, s: Engine)
    requires Enabled(d, s, Restore)
    ensures Apply(d, s, Restore) == Rebuilt(d, s.rows, s.verdicts)
    ensures !Rebuilt(d, s.rows, s.verdicts).pause
  {
    hide Restored;
  }

  lemma RowsStayScoped(d: Dag, s: Engine)
    requires Safe(d, s)
    ensures s.rows.Keys <= d.nodes.Keys
  {
  }

  // ---------------------------------------------------------------------------
  // The theorem
  // ---------------------------------------------------------------------------

  /**
   A run that is paused and resumed any number of times, from the store or on the same executor, with
   approvals judged and written, elsewhere or on that executor, while it is paused or just before,
   launches the same waves and ends in the same state as the run without the pauses.
   */
  lemma {:induction false} PausesAreTransparent(d: Dag, s: Engine, t: Engine, acts: seq<Action>)
    requires Coherent(d) && Safe(d, s) && SameUpToPause(s, t)
    requires Valid(d, s, acts) && PausesResume(d, s, acts)
    ensures Valid(d, t, Erase(d, s, acts))
    ensures SameUpToPause(Exec(d, s, acts), Exec(d, t, Erase(d, s, acts)))
    ensures Launched(d, s, acts) == Launched(d, t, Erase(d, s, acts))
    decreases |acts|
  {
    hide Safe, Enabled, Apply, AllReturned, CatchUp, Coherent;
    if acts != [] {
      var a, s', rest := acts[0], Apply(d, s, acts[0]), acts[1..];
      SafeStep(d, s, a);
      if a == RequestPause {
        RequestOnlyPauses(d, s);
        PausesAreTransparent(d, s', t, rest);
      } else if a == Stop(Paused) {
        StopKeepsRows(d, s);
        RestsAtThePause(d, s);
        CaughtUp(d, s, t);
        var before := CatchUp(d, s, |d.order|);
        var u := Exec(d, t, before);
        SleepIsTransparent(d, s', u, rest);
        LaunchedConcat(d, t, before, Asleep(d, s', rest));
        ExecConcat(d, t, before, Asleep(d, s', rest));
      } else {
        StepUpToPause(d, s, t, a);
        PausesAreTransparent(d, s', Apply(d, t, a), rest);
        SameLaunch(d, s, t, a);
        OneMoreInFront(d, t, a, Erase(d, s', rest));
      }
    }
  }

  lemma {:induction false} SleepIsTransparent(d: Dag, s: Engine, t: Engine, acts: seq<Action>)
    requires Coherent(d) && Safe(d, s) && Resting(s) && t == Rebuilt(d, s.rows, s.verdicts)
    requires Valid(d, s, acts) && SleepsWell(d, s, acts)
    ensures Valid(d, t, Asleep(d, s, acts))
    ensures SameUpToPause(Exec(d, s, acts), Exec(d, t, Asleep(d, s, acts)))
    ensures Launched(d, s, acts) == Launched(d, t, Asleep(d, s, acts))
    decreases |acts|
  {
    hide Safe, Enabled, Apply, AllReturned, CatchUp, Coherent, Rebuilt, Resting, JudgedElsewhere, Recorded;
    var a, s', rest := acts[0], Apply(d, s, acts[0]), acts[1..];
    SafeStep(d, s, a);
    if a == Restore {
      WakesUp(d, s);
      PausesAreTransparent(d, s', t, rest);
    } else if a == Rerun {
      GoesOn(d, s);
      PausesAreTransparent(d, s', t, rest);
    } else {
      RestsOn(d, s, a);
      RowsStayScoped(d, s);
      if a.Judge? {
        JudgedAsleep(d, s, t, a);
        SleepIsTransparent(d, s', Apply(d, t, a), rest);
        OneMoreInFront(d, t, a, Asleep(d, s', rest));
      } else if a.WriteVerdict? {
        WriteAsleep(d, s, a);
        TakenInstead(d, s.rows, s.verdicts, a.n, a.upstream);
        var two := [TakeVerdict(a.n, a.upstream), Persist(a.n)];
        SleepIsTransparent(d, s', Exec(d, t, two), rest);
        QuietInFront(d, t, two, Asleep(d, s', rest));
      } else if a.Persist? {
        PersistAsleep(d, s, a.n);
        TakenInstead(d, s.rows, s.verdicts, a.n, Recorded(s.mem[a.n]));
        var two := [TakeVerdict(a.n, Recorded(s.mem[a.n])), a];
        SleepIsTransparent(d, s', Exec(d, t, two), rest);
        QuietInFront(d, t, two, Asleep(d, s', rest));
      } else {
        NothingChangesAsleep(d, s, a);
        SleepIsTransparent(d, s', t, rest);
      }
    }
  }

  lemma QuietInFront(d: Dag, t: Engine, front: seq<Action>, more: seq<Action>)
    requires Valid(d, t, front) && Launched(d, t, front) == [] && Valid(d, Exec(d, t, front), more)
    ensures Valid(d, t, front + more) && Exec(d, t, front + more) == Exec(d, Exec(d, t, front), more)
    ensures Launched(d, t, front + more) == Launched(d, Exec(d, t, front), more)
  {
    hide Valid, Exec, Launched;
    LaunchedConcat(d, t, front, more);
    ExecConcat(d, t, front, more);
  }

  lemma OneMoreInFront(d: Dag, t: Engine, a: Action, more: seq<Action>)
    requires Enabled(d, t, a) && Valid(d, Apply(d, t, a), more)
    ensures Valid(d, t, [a] + more) && Exec(d, t, [a] + more) == Exec(d, Apply(d, t, a), more)
    ensures Launched(d, t, [a] + more) ==
            (if a == Launch then [Apply(d, t, a).todo] else []) + Launched(d, Apply(d, t, a), more)
  {
    hide Enabled, Apply;
    assert ([a] + more)[0] == a && ([a] + more)[1..] == more;
  }

  lemma SameLaunch(d: Dag, s: Engine, t: Engine, a: Action)
    requires SameUpToPause(s, t) && Enabled(d, s, a) && Enabled(d, t, a)
    requires SameUpToPause(Apply(d, s, a), Apply(d, t, a))
    ensures Apply(d, s, a).todo == Apply(d, t, a).todo
  {
    hide Enabled, Apply;
  }

  lemma StopKeepsRows(d: Dag, s: Engine)
    requires Enabled(d, s, Stop(Paused))
    ensures var t := Apply(d, s, Stop(Paused)); t.rows == s.rows && t.verdicts == s.verdicts && t.dirty == s.dirty
  {
  }

  lemma RequestOnlyPauses(d: Dag, s: Engine)
    requires Enabled(d, s, RequestPause)
    ensures Apply(d, s, RequestPause) == s.(pause := true)
  {
  }
}
