/**
 The executor as a class over the in-memory store. Each of its methods takes steps of the
 transition system, so what is proved of every run of that system holds of the class.
 */
module Executor {
  import opened Values
  import opened Sets
  import opened Dags
  import opened States
  import opened Runs
  import opened RunSafety
  import opened RunTheorems
  import opened Passes
  import opened Verdicts
  import Store

  /** What the node runner comes back with, retries and `on_failure` included. */
  datatype RunnerResult = Returned(output: Value) | Raised

  /**
   What the outside contributes to one call of `run`, in which each node runs at most once and each approval is
   opened at most once: what the runner comes back with for each node, and when each approval is opened.
   */
  datatype Surroundings = Surroundings(answers: map<NodeId, RunnerResult>, openings: map<NodeId, Store.Time>)

  /** Only agents and tickets can fail. */
  predicate Fits(d: Dag, around: Surroundings) {
    forall n | n in d.nodes ::
      && n in around.answers && n in around.openings
      && (around.answers[n].Raised? ==> d.nodes[n].kind == Agent || d.nodes[n].kind == Ticket)
  }

  /**
   The state in which an answer leaves its node: the output as it was returned, done unless it is denied or
   undelivered.
   */
  function EndState(node: Node, r: RunnerResult): NodeState {
    match r
    case Raised => NodeState(Failed, Null)
    case Returned(v) =>
      NodeState(
        if (node.kind == Agent || node.kind == Ticket) && (Denied(node.agent, v) || Undelivered(v)) then Failed
        else Done,
        v)
  }

  /** The nodes that have ended since are as their answers demand. */
  ghost predicate AsAnswered(d: Dag, around: Surroundings, start: States, now: States) {
    forall n | n in d.nodes && n in around.answers && n in start && n in now ::
      start[n].status == Pending && d.nodes[n].kind != Approval
        && (now[n].status == Done || now[n].status == Failed) ==>
        now[n] == EndState(d.nodes[n], around.answers[n])
  }

  lemma NothingAnswered(d: Dag, around: Surroundings, start: States)
    ensures AsAnswered(d, around, start, start)
  {
  }

  lemma StillAsAnswered(d: Dag, around: Surroundings, start: States, before: States, after: States)
    requires AsAnswered(d, around, start, before) && Advances(before, after)
    ensures AsAnswered(d, around, start, after)
  {
    hide EndState;
  }

  lemma OneMoreAnswered(d: Dag, around: Surroundings, start: States, before: States, n: NodeId)
    requires AsAnswered(d, around, start, before) && n in d.nodes && n in around.answers
    ensures AsAnswered(d, around, start, before[n := EndState(d.nodes[n], around.answers[n])])
  {
    hide EndState;
  }

  lemma IsAnswered(d: Dag, around: Surroundings, start: States, before: States, after: States, n: NodeId)
    requires Fits(d, around) && AsAnswered(d, around, start, before) && n in d.nodes
    requires Advances(before[n := EndState(d.nodes[n], around.answers[n])], after)
    ensures AsAnswered(d, around, start, after)
  {
    hide EndState, AsAnswered, Advances;
    OneMoreAnswered(d, around, start, before, n);
    StillAsAnswered(d, around, start, before[n := EndState(d.nodes[n], around.answers[n])], after);
  }

  lemma EndsSomehow(node: Node, r: RunnerResult)
    ensures EndState(node, r).status == Done || EndState(node, r).status == Failed
  {
  }

  lemma CameBackIs(node: Node, r: RunnerResult)
    ensures EndState(node, r) == CameBack(node, if r.Returned? then Some(r.output) else None)
  {
    if r.Returned? {
      GuardsReject(node, r.output);
    }
    hide Denied, Undelivered, Refused;
  }

  /** An approval waits an hour unless its node says otherwise, in seconds. */
  function TimeoutOf(node: Node): int {
    if node.params.Obj? && "timeout" in node.params.fields && node.params.fields["timeout"].Num?
    then node.params.fields["timeout"].n.Floor
    else 3600
  }

  /** The timeout is the node's parameter, in whole seconds, and an hour if it has none. */
  lemma TimeoutIs(node: Node, fields: map<string, Value>, seconds: int)
    requires node.params == Obj(fields)
    ensures "timeout" !in fields ==> TimeoutOf(node) == 3600
    ensures "timeout" in fields && fields["timeout"] == Num(seconds as real) ==> TimeoutOf(node) == seconds
  {
  }

  /** The row that an approval has when it is opened: waiting, with its deadline, nobody named. */
  ghost function OpeningRows(d: Dag, around: Surroundings): map<NodeId, Store.ApprovalRow> {
    map n | n in d.nodes && n in around.openings ::
      Store.ApprovalRow(Store.WaitingApprovalRow, Some(around.openings[n] + TimeoutOf(d.nodes[n])), "", "")
  }

  datatype ApproveResult = Judged | NotWaiting | LostToTimeout | LostRace

  predicate BeganWaiting(before: States, after: States, n: NodeId) {
    n in after && after[n] == OPEN && !(n in before && before[n] == OPEN)
  }

  /** The approvals table gained exactly one row for each node that began to wait, the one that it opens with. */
  ghost predicate OpenedRows(
    run: Store.RunId, opening: map<NodeId, Store.ApprovalRow>, before: Table, after: Table, mem0: States, mem1: States)
  {
    && (forall k | k in before :: k in after && after[k] == before[k])
    && (forall k :: k in after && k !in before <==> k.0 == run && BeganWaiting(mem0, mem1, k.1))
    && (forall k | k in after && k !in before :: k.1 in opening && after[k] == opening[k.1])
  }

  type Table = map<Store.Key, Store.ApprovalRow>

  /**
   An approval row exists only for a node whose row says that it waits or has been judged,
   and a judged approval has left WAITING.
   */
  ghost predicate Matches(run: Store.RunId, approvals: Table, rows: States, verdicts: map<NodeId, Verdict>) {
    && (forall n | (run, n) in approvals :: n in rows && Kept(rows[n]))
    && (forall n | n in verdicts :: (run, n) in approvals && approvals[(run, n)].status != Store.WaitingApprovalRow)
  }

  lemma MatchesPut(run: Store.RunId, t: Table, rows: States, verdicts: map<NodeId, Verdict>, n: NodeId, ns: NodeState)
    requires Matches(run, t, rows, verdicts) && (Kept(ns) || (run, n) !in t)
    ensures Matches(run, t, rows[n := ns], verdicts)
  {
  }

  lemma MatchesOpen(run: Store.RunId, t: Table, rows: States, verdicts: map<NodeId, Verdict>, n: NodeId,
      row: Store.ApprovalRow)
    requires Matches(run, t, rows, verdicts) && n in rows && Kept(rows[n]) && n !in verdicts
    ensures Matches(run, t[(run, n) := row], rows, verdicts)
  {
  }

  lemma RestoreIs(d: Dag, s: Engine)
    requires AllReturned(s) || s.stage == Down
    ensures Enabled(d, s, Restore)
    ensures Apply(d, s, Restore) ==
            Engine(Restored(d, s.rows), s.rows, Boundary, {}, {}, multiset{}, {}, {}, {}, {}, false, s.verdicts)
  {
    hide Restored;
  }

  /** `run` is called on an executor that stands at its start, or again on one that has returned. */
  lemma CalledOn(d: Dag, s: Engine)
    requires Reachable(d, s) && (s.stage == Boundary || Finished(Current(s))) && s.aside == multiset{}
    ensures Reachable(d, s.(stage := Boundary))
  {
    hide Reachable;
    if s.stage != Boundary {
      ReachableStep(d, s, Rerun);
      assert Apply(d, s, Rerun) == s.(stage := Boundary);
    } else {
      assert s.(stage := Boundary) == s;
    }
  }

  lemma SettledIsQuiet(d: Dag, s: Engine)
    requires s.stage == Boundary && s.owes == {} && Settled(d, s.mem)
    ensures Quiet(d, s)
  {
    hide Settled;
  }

  lemma NothingInWave(d: Dag, s: Engine, ready: seq<NodeId>)
    requires ready == [] && forall n :: n in ready <==> InNextWave(d, s.mem, n)
    ensures NothingReady(d, s)
  {
    hide InNextWave;
  }

  predicate Distinct(s: seq<NodeId>) {
    forall j, k | 0 <= j < k < |s| :: s[j] != s[k]
  }

  lemma StillDistinct(s: seq<NodeId>, n: NodeId)
    requires Distinct(s) && n !in s
    ensures Distinct(s + [n])
  {
  }

  lemma SameEmptiness(s: seq<NodeId>, members: set<NodeId>)
    requires members == set n | n in s
    ensures s == [] <==> members == {}
  {
    if s != [] {
      assert s[0] in members;
    }
  }

  /** Nothing has happened in the wave yet, or some node has left the pending state. */
  ghost predicate Progress(start: States, now: States, all: set<NodeId>, tasks: set<NodeId>, running: set<NodeId>) {
    && PendingSet(now) <= PendingSet(start)
    && (|| (now == start && tasks == all && running == {})
        || |PendingSet(now)| < |PendingSet(start)|)
  }

  lemma ProgressOnBegin(
    start: States, before: States, now: States, all: set<NodeId>, n: NodeId, tasks: set<NodeId>, running: set<NodeId>)
    requires PendingSet(before) <= PendingSet(start) && Advances(before, now)
    requires n in before && n in now
    requires (before == start && before[n].status == Pending && now[n].status == Running)
             || |PendingSet(before)| < |PendingSet(start)|
    ensures Progress(start, now, all, tasks, running)
  {
    AdvancesShrinks(before, now);
    SubsetSize(PendingSet(now), PendingSet(before));
    if |PendingSet(before)| >= |PendingSet(start)| {
      PendingShrinks(before, now, n);
    }
  }

  lemma ProgressAtFirst(start: States, all: set<NodeId>)
    ensures Progress(start, start, all, all, {})
  {
  }

  lemma ProgressOnEnd(
    start: States, before: States, now: States, all: set<NodeId>, tasks: set<NodeId>, was: set<NodeId>, n: NodeId)
    requires n in was && Progress(start, before, all, tasks, was) && PendingSet(now) <= PendingSet(before)
    ensures Progress(start, now, all, tasks, was - {n}) && |PendingSet(now)| < |PendingSet(start)|
  {
    SubsetSize(PendingSet(now), PendingSet(before));
  }

  lemma ProgressOnTurn(
    start: States, before: States, now: States, all: set<NodeId>, tasks: set<NodeId>, running: set<NodeId>,
    n: NodeId, tasks': set<NodeId>, running': set<NodeId>)
    requires Progress(start, before, all, tasks, running) && Advances(before, now) && n in before && n in now
    requires before == start ==> before[n].status == Pending && now[n].status == Running
    ensures Progress(start, now, all, tasks', running')
  {
    ProgressOnBegin(start, before, now, all, n, tasks', running');
  }

  lemma ProgressAtLast(start: States, now: States, all: set<NodeId>)
    requires all != {} && Progress(start, now, all, {}, {})
    ensures |PendingSet(now)| < |PendingSet(start)|
  {
  }

  lemma MatchesJudge(
    run: Store.RunId, t: Table, rows: States, verdicts: map<NodeId, Verdict>, n: NodeId, row: Store.ApprovalRow,
      v: Verdict)
    requires Matches(run, t, rows, verdicts) && (run, n) in t && row.status != Store.WaitingApprovalRow
    ensures Matches(run, t[(run, n) := row], rows, verdicts[n := v])
  {
  }

  /** Judging an approval whose row is waiting, taking the verdict in memory, and writing the node row. */
  lemma JudgeAndTake(d: Dag, s: Engine, run: Store.RunId, t: Table, n: NodeId, v: Verdict, upstream: Value)
    requires Reachable(d, s) && s.stage != Down && Clean(s) && n in s.mem && s.mem[n].status == Waiting
    requires Matches(run, t, s.rows, s.verdicts) && (run, n) in t && t[(run, n)].status == Store.WaitingApprovalRow
    ensures s.mem[n] == OPEN
    ensures Reachable(d, Stored(s, n, Outcome(v, upstream)).(verdicts := s.verdicts[n := v]))
  {
    hide Reachable, Outcome;
    WaitingRowIsOpen(d, s, n);
    ReachableStep(d, s, Judge(n, v));
    var s1 := Apply(d, s, Judge(n, v));
    ReachableStep(d, s1, TakeVerdict(n, upstream));
    var s2 := Apply(d, s1, TakeVerdict(n, upstream));
    assert s2.dirty == {n};
    ReachableStep(d, s2, Action.Persist(n));
    assert Apply(d, s2, Action.Persist(n)) == Stored(s, n, Outcome(v, upstream)).(verdicts := s.verdicts[n := v]);
  }

  lemma UnkeptWasNeverOpened(run: Store.RunId, t: Table, rows: States, verdicts: map<NodeId, Verdict>, n: NodeId)
    requires Matches(run, t, rows, verdicts) && (n !in rows || !Kept(rows[n]))
    ensures (run, n) !in t
  {
  }

  lemma NoneOpened(run: Store.RunId, opening: map<NodeId, Store.ApprovalRow>, t: Table, m: States)
    ensures OpenedRows(run, opening, t, t, m, m)
  {
  }

  lemma SkippedOpensNothing(
    run: Store.RunId, opening: map<NodeId, Store.ApprovalRow>, t: Table, m: States, n: NodeId)
    ensures OpenedRows(run, opening, t, t, m, m[n := SKIP])
  {
  }

  lemma OneIsOpened(run: Store.RunId, opening: map<NodeId, Store.ApprovalRow>, t: Table, m: States, n: NodeId)
    requires (run, n) !in t && n in opening && n in m && m[n] != OPEN
    ensures OpenedRows(run, opening, t, t[(run, n) := opening[n]], m, m[n := OPEN])
  {
  }

  lemma OpenedRowsThenSkips(
    run: Store.RunId, opening: map<NodeId, Store.ApprovalRow>, t0: Table, t1: Table, m0: States, m1: States, m2: States)
    requires Advances(m0, m1) && Advances(m1, m2) && OpenedRows(run, opening, t0, t1, m0, m1)
    requires forall n | n in m1 :: m2[n] == m1[n] || m2[n] == SKIP
    ensures OpenedRows(run, opening, t0, t1, m0, m2)
  {
    forall k
      ensures k in t1 && k !in t0 <==> k.0 == run && BeganWaiting(m0, m2, k.1)
    {
      assert k.1 in m1 ==> k.1 in m0 && k.1 in m2;
    }
  }

  lemma OpenedRowsOn(
    run: Store.RunId, opening: map<NodeId, Store.ApprovalRow>, t0: Table, t1: Table, t2: Table,
    m0: States, m1: States, m2: States)
    requires Advances(m0, m1) && Advances(m1, m2)
    requires OpenedRows(run, opening, t0, t1, m0, m1) && OpenedRows(run, opening, t1, t2, m1, m2)
    ensures OpenedRows(run, opening, t0, t2, m0, m2)
  {
    forall k
      ensures k in t2 && k !in t0 <==> k.0 == run && BeganWaiting(m0, m2, k.1)
    {
      assert k.1 in m1 ==> k.1 in m0 && k.1 in m2;
    }
  }

  /** If any ready node is a halt node, the wave is the ready halt nodes; otherwise it is all ready nodes. */
  lemma NextWaveOf(d: Dag, st: States, ready: seq<NodeId>, halts: seq<NodeId>)
    requires forall n :: n in ready <==> IsReady(d, st, n)
    requires forall n :: n in halts <==> n in ready && IsHalt(d, n)
    ensures forall n :: n in (if halts == [] then ready else halts) <==> InNextWave(d, st, n)
  {
    hide IsReady;
    if halts != [] {
      assert halts[0] in halts;
    }
    forall n
      ensures IsReady(d, st, n) ==> n in d.nodes
    {
      ReadyIsNode(d, st, n);
    }
  }

  /** Which of the nodes seen are ready, and which of those are halt nodes, each once. */
  ghost predicate Gathered(d: Dag, st: States, seen: seq<NodeId>, ready: seq<NodeId>, halts: seq<NodeId>) {
    && (forall n :: n in ready <==> n in seen && IsReady(d, st, n))
    && (forall n :: n in halts <==> n in ready && IsHalt(d, n))
    && Distinct(ready) && Distinct(halts)
  }

  lemma GatherNext(d: Dag, st: States, seen: seq<NodeId>, ready: seq<NodeId>, halts: seq<NodeId>, n: NodeId)
    requires Gathered(d, st, seen, ready, halts) && n !in seen && n in d.nodes
    ensures !IsReady(d, st, n) ==> Gathered(d, st, seen + [n], ready, halts)
    ensures IsReady(d, st, n) && d.nodes[n].kind != Halt ==> Gathered(d, st, seen + [n], ready + [n], halts)
    ensures IsReady(d, st, n) && d.nodes[n].kind == Halt ==> Gathered(d, st, seen + [n], ready + [n], halts + [n])
  {
    hide IsReady;
    assert n !in ready && n !in halts;
    StillDistinct(ready, n);
    StillDistinct(halts, n);
    hide Distinct;
  }

  /** Nobody has asked for a pause when there is a wave to run. */
  lemma SomethingToRun(d: Dag, s: Engine, ready: seq<NodeId>)
    requires Proceeds(d, s) && ready != [] && forall n :: n in ready <==> InNextWave(d, s.mem, n)
    ensures !s.pause
  {
    hide Decide, RejectionAborts, HaltTriggered, Settled;
    assert InNextWave(d, s.mem, ready[0]);
  }

  lemma ReadyIff(d: Dag, st: States, n: NodeId)
    requires n in d.nodes && n in st
    ensures IsReady(d, st, n) <==>
              st[n].status == Pending && d.nodes[n].kind != Approval && Decide(d.nodes[n], st) == Ready
  {
    hide Decide;
  }

  lemma ReadyIsNode(d: Dag, st: States, n: NodeId)
    ensures IsReady(d, st, n) ==> n in d.nodes
  {
  }

  class DAGExecutor {
    const d: Dag
    const runId: Store.RunId
    const store: Store.MemoryStore

    var nodeStates: States
    var failed: seq<NodeId>
    var pauseRequested: bool

    /** Where the executor stands, for the transition system. */
    ghost var stage: Stage
    ghost var todo: set<NodeId>
    ghost var live: set<NodeId>
    ghost var dirty: set<NodeId>
    ghost var verdicts: map<NodeId, Verdict>

    ghost function Abs(): Engine
      reads this, store
    {
      Engine(nodeStates, store.Rows(runId), stage, todo, live, multiset{},
             live, dirty, dirty, (set n | n in failed), pauseRequested, verdicts)
    }

    ghost predicate ApprovalsMatch()
      reads this, store
    {
      Matches(runId, store.approvals, store.Rows(runId), verdicts)
    }

    ghost predicate Valid()
      reads this, store
    {
      WellFormed(d) && Reachable(d, Abs()) && ApprovalsMatch()
    }

    constructor (d: Dag, runId: Store.RunId, store: Store.MemoryStore)
      requires WellFormed(d) && store.Rows(runId) == map[]
      requires forall n :: (runId, n) !in store.approvals
      ensures this.d == d && this.runId == runId && this.store == store
      ensures Valid() && Abs() == Init(d)
    {
      this.d, this.runId, this.store := d, runId, store;
      nodeStates := map n | n in d.nodes :: FRESH;
      failed, pauseRequested := [], false;
      stage, todo, live, dirty, verdicts := Boundary, {}, {}, {}, map[];
      new;
      LeadsNowhere(d, Init(d));
    }

    /** Rebuild an executor from the rows of a run whose last executor has stopped or died. */
    constructor FromCheckpoint(d: Dag, runId: Store.RunId, store: Store.MemoryStore, ghost s: Engine)
      requires WellFormed(d) && Reachable(d, s) && (AllReturned(s) || s.stage == Down)
      requires store.Rows(runId) == s.rows && Matches(runId, store.approvals, s.rows, s.verdicts)
      ensures this.d == d && this.runId == runId && this.store == store
      ensures Valid() && Enabled(d, s, Restore) && Abs() == Apply(d, s, Restore)
      ensures nodeStates == Restored(d, s.rows)
    {
      hide Reachable, Matches, WellFormed, AllReturned, Apply, Enabled;
      var states: States := map n | n in d.nodes :: FRESH;
      var rows := store.Rows(runId);
      var left := rows.Keys;
      assert left <= d.nodes.Keys by { RowsInGraph(d, s); }
      while left != {}
        invariant left <= rows.Keys <= d.nodes.Keys && states.Keys == d.nodes.Keys
        invariant forall n | n in d.nodes ::
                    states[n] == if n in rows && n !in left && Kept(rows[n]) then rows[n] else FRESH
        decreases left
      {
        var nid :| nid in left;
        left := left - {nid};
        var ns := rows[nid];
        if !Terminal(ns.status) && ns.status != Waiting {
          ns := FRESH;
        }
        states := states[nid := ns];
      }
      assert states == Restored(d, rows);
      this.d, this.runId, this.store := d, runId, store;
      nodeStates := states;
      failed, pauseRequested := [], false;
      stage, todo, live, dirty, verdicts := Boundary, {}, {}, {}, s.verdicts;
      new;
      RestoreIs(d, s);
      ReachableStep(d, s, Restore);
      assert (set n | n in failed) == {};
      assert Abs() == Apply(d, s, Restore);
    }

    method RequestPause()
      requires Valid() && stage != Down
      modifies this`pauseRequested
      ensures Valid() && Abs() == old(Abs()).(pause := true)
    {
      ghost var s := Abs();
      pauseRequested := true;
      ReachableStep(d, s, Action.RequestPause);
    }

    /** Write one node state to its row. */
    method Persist(nid: NodeId)
      requires nid in nodeStates
      modifies this`dirty, store`nodes
      ensures Abs() == old(Abs()).(rows := old(Abs()).rows[nid := nodeStates[nid]], dirty := old(dirty) - {nid},
                                  owes := old(dirty) - {nid})
    {
      store.PutNode(runId, nid, nodeStates[nid]);
      dirty := dirty - {nid};
    }

    /** Set a node state and write its row. */
    method StoreNode(nid: NodeId, ns: NodeState)
      requires dirty == {}
      modifies this`nodeStates, this`dirty, store`nodes
      ensures Abs() == Stored(old(Abs()), nid, ns)
      ensures old(ApprovalsMatch()) && (Kept(ns) || (runId, nid) !in store.approvals) ==> ApprovalsMatch()
    {
      hide Matches;
      if ApprovalsMatch() && (Kept(ns) || (runId, nid) !in store.approvals) {
        MatchesPut(runId, store.approvals, store.Rows(runId), verdicts, nid, ns);
      }
      nodeStates := nodeStates[nid := ns];
      Persist(nid);
    }

    method MarkSkipped(nid: NodeId, ghost from: Engine, ghost a: Action)
      requires Leads(d, from, Abs()) && ApprovalsMatch() && stage != Down && dirty == {}
      requires Enabled(d, Abs(), a) && (a == SkipNode(nid) || a == OpenApproval(nid))
      requires a.OpenApproval? ==> Opened(d, nodeStates, nid) == SKIP
      modifies this`nodeStates, this`dirty, store`nodes
      ensures Abs() == Stored(old(Abs()), nid, SKIP)
      ensures Leads(d, from, Abs()) && ApprovalsMatch()
    {
      hide Leads, Decide, HaltTriggered;
      ghost var t := Abs();
      StoreNode(nid, SKIP);
      LeadsStored(d, from, t, a, nid);
    }

    /** After a halt: skip whatever is pending. */
    method SkipAllPending(ghost from: Engine)
      requires WellFormed(d) && Leads(d, from, Abs()) && ApprovalsMatch() && stage == Boundary && dirty == {}
      requires nodeStates.Keys == d.nodes.Keys && HaltTriggered(d, nodeStates)
      modifies this`nodeStates, this`dirty, store`nodes
      ensures Leads(d, from, Abs()) && ApprovalsMatch()
      ensures nodeStates == HaltScan(d, old(nodeStates), |d.order|)
      ensures Abs() == old(Abs()).(mem := nodeStates, rows := Abs().rows)
    {
      hide Leads, Decide, ApprovalsMatch, HaltTriggered, Enabled, Coherent;
      OrderCoversGraph(d);
      for i := 0 to |d.order|
        invariant Abs() == old(Abs()).(mem := nodeStates, rows := Abs().rows)
        invariant Leads(d, from, Abs()) && ApprovalsMatch()
        invariant nodeStates == HaltScan(d, old(nodeStates), i) && nodeStates.Keys == d.nodes.Keys
        invariant HaltTriggered(d, nodeStates)
      {
        var nid := d.order[i];
        if nodeStates[nid].status == Pending {
          HaltSkips(d, Abs(), nid);
          MarkSkipped(nid, from, SkipNode(nid));
        }
      }
    }

    /** Otherwise: skip the nodes whose turn it is to be skipped, in one sweep. */
    method SkipDecided(ghost from: Engine)
      requires WellFormed(d) && Leads(d, from, Abs()) && ApprovalsMatch() && stage == Boundary && dirty == {}
      requires nodeStates.Keys == d.nodes.Keys
      modifies this`nodeStates, this`dirty, store`nodes
      ensures Leads(d, from, Abs()) && ApprovalsMatch()
      ensures nodeStates == SkipScan(d, old(nodeStates), |d.order|)
      ensures Abs() == old(Abs()).(mem := nodeStates, rows := Abs().rows)
    {
      hide Leads, Decide, ApprovalsMatch, HaltTriggered, Enabled, Coherent;
      OrderCoversGraph(d);
      for i := 0 to |d.order|
        invariant Abs() == old(Abs()).(mem := nodeStates, rows := Abs().rows)
        invariant Leads(d, from, Abs()) && ApprovalsMatch()
        invariant nodeStates == SkipScan(d, old(nodeStates), i) && nodeStates.Keys == d.nodes.Keys
      {
        var nid := d.order[i];
        var node := d.nodes[nid];
        if node.kind != Approval && nodeStates[nid].status == Pending {
          if Decide(node, nodeStates) == Skip {
            TurnSkips(d, Abs(), nid);
            MarkSkipped(nid, from, SkipNode(nid));
          }
        }
      }
    }

    /** Boundary pass over skips. */
    method ProcessSkips(ghost from: Engine)
      requires WellFormed(d) && Leads(d, from, Abs()) && ApprovalsMatch() && stage == Boundary && dirty == {}
      requires nodeStates.Keys == d.nodes.Keys
      modifies this`nodeStates, this`dirty, store`nodes
      ensures Leads(d, from, Abs()) && ApprovalsMatch()
      ensures nodeStates == SkipPass(d, old(nodeStates)) && nodeStates.Keys == d.nodes.Keys
      ensures Abs() == old(Abs()).(mem := nodeStates, rows := Abs().rows)
    {
      hide HaltTriggered, Leads, ApprovalsMatch;
      if HaltTriggered(d, nodeStates) {
        SkipAllPending(from);
      } else {
        SkipDecided(from);
      }
      SkipsOpenNothing(d, old(nodeStates));
    }

    /** Set an approval node waiting, write its row, and open its approval: for the first time. */
    method OpenOne(nid: NodeId, now: Store.Time, ghost from: Engine)
      requires Reachable(d, from) && Leads(d, from, Abs()) && ApprovalsMatch() && stage != Down && dirty == {}
      requires (stage == Boundary || stage == Wave) && ApprovalOpen(d, nodeStates, nid)
      requires Opened(d, nodeStates, nid) == OPEN
      modifies this`nodeStates, this`dirty, store`nodes, store`approvals
      ensures Abs() == Stored(old(Abs()), nid, OPEN)
      ensures Leads(d, from, Abs()) && ApprovalsMatch()
      ensures (runId, nid) !in old(store.approvals)
      ensures store.approvals == old(store.approvals)[(runId, nid) :=
                Store.ApprovalRow(Store.WaitingApprovalRow, Some(now + TimeoutOf(d.nodes[nid])), "", "")]
    {
      hide Leads, Decide, Reachable, Opened, Matches;
      ghost var t := Abs();
      LeadsToReachable(d, from, t);
      PendingWasNeverOpened(d, t, nid);
      UnkeptWasNeverOpened(runId, store.approvals, store.Rows(runId), verdicts, nid);
      LeadsOpened(d, from, t, nid);
      StoreNode(nid, OPEN);
      var deadline := Some(now + TimeoutOf(d.nodes[nid]));
      MatchesOpen(runId, store.approvals, store.Rows(runId), verdicts, nid,
        Store.ApprovalRow(Store.WaitingApprovalRow, deadline, "", ""));
      store.CreateApproval(runId, nid, deadline);
    }

    /** Decide one approval node: leave it, skip it, or open its approval. */
    method DecideApproval(nid: NodeId, around: Surroundings, ghost from: Engine)
      requires Fits(d, around)
      requires WellFormed(d) && Reachable(d, from) && Leads(d, from, Abs()) && ApprovalsMatch()
      requires (stage == Boundary || stage == Wave) && dirty == {} && nodeStates.Keys == d.nodes.Keys
      requires nid in d.nodes && d.nodes[nid].kind == Approval && nodeStates[nid].status == Pending
      modifies this`nodeStates, this`dirty, store`nodes, store`approvals
      ensures Leads(d, from, Abs()) && ApprovalsMatch()
      ensures nodeStates == if ApprovalOpen(d, old(nodeStates), nid)
                            then old(nodeStates)[nid := Opened(d, old(nodeStates), nid)] else old(nodeStates)
      ensures Abs() == old(Abs()).(mem := nodeStates, rows := Abs().rows)
      ensures OpenedRows(runId, OpeningRows(d, around), old(store.approvals), store.approvals, old(nodeStates),
              nodeStates)
    {
      hide Leads, Decide, ApprovalsMatch, HaltTriggered, Coherent, Reachable, OpenedRows;
      ghost var table, before := store.approvals, nodeStates;
      var decision := Decide(d.nodes[nid], nodeStates);
      if decision == Skip {
        MarkSkipped(nid, from, OpenApproval(nid));
        SkippedOpensNothing(runId, OpeningRows(d, around), table, before, nid);
      } else if decision == Ready {
        OpenOne(nid, around.openings[nid], from);
        OneIsOpened(runId, OpeningRows(d, around), table, before, nid);
      } else {
        NoneOpened(runId, OpeningRows(d, around), table, before);
      }
    }

    /** Decide every approval node that can be decided, in one sweep. */
    method ProcessApprovals(around: Surroundings, ghost from: Engine)
      requires Fits(d, around)
      requires WellFormed(d) && Reachable(d, from) && Leads(d, from, Abs()) && ApprovalsMatch()
      requires (stage == Boundary || stage == Wave) && dirty == {} && nodeStates.Keys == d.nodes.Keys
      modifies this`nodeStates, this`dirty, store`nodes, store`approvals
      ensures Leads(d, from, Abs()) && ApprovalsMatch()
      ensures nodeStates == ApprovalPass(d, old(nodeStates)) && nodeStates.Keys == d.nodes.Keys
      ensures Abs() == old(Abs()).(mem := nodeStates, rows := Abs().rows)
      ensures OpenedRows(runId, OpeningRows(d, around), old(store.approvals), store.approvals, old(nodeStates),
              nodeStates)
    {
      hide Leads, Decide, ApprovalsMatch, Coherent, Reachable, OpenedRows;
      OrderCoversGraph(d);
      NoneOpened(runId, OpeningRows(d, around), store.approvals, nodeStates);
      for i := 0 to |d.order|
        invariant Abs() == old(Abs()).(mem := nodeStates, rows := Abs().rows)
        invariant Leads(d, from, Abs()) && ApprovalsMatch()
        invariant nodeStates == ApprovalScan(d, old(nodeStates), i) && nodeStates.Keys == d.nodes.Keys
        invariant OpenedRows(runId, OpeningRows(d, around), old(store.approvals), store.approvals, old(nodeStates),
                  nodeStates)
      {
        var nid := d.order[i];
        if d.nodes[nid].kind == Approval && nodeStates[nid].status == Pending {
          ghost var before, rows := nodeStates, store.approvals;
          ApprovalScanAdvances(d, old(nodeStates), i);
          DecideApproval(nid, around, from);
          OpenedRowsOn(runId, OpeningRows(d, around), old(store.approvals), rows, store.approvals,
            old(nodeStates), before, nodeStates);
        }
      }
    }

    /** Alternate the two passes until neither changes a status. */
    method SettleBoundary(around: Surroundings, ghost from: Engine) returns (ghost passes: nat)
      requires Fits(d, around)
      requires WellFormed(d) && Reachable(d, from) && Leads(d, from, Abs()) && ApprovalsMatch()
      requires stage == Boundary && dirty == {} && nodeStates.Keys == d.nodes.Keys
      modifies this`nodeStates, this`dirty, store`nodes, store`approvals
      ensures Leads(d, from, Abs()) && ApprovalsMatch()
      ensures nodeStates == Settle(d, old(nodeStates)) && Settled(d, nodeStates)
      ensures nodeStates.Keys == d.nodes.Keys
      ensures Advances(old(nodeStates), nodeStates)
      ensures Abs() == old(Abs()).(mem := nodeStates, rows := Abs().rows)
      ensures OpenedRows(runId, OpeningRows(d, around), old(store.approvals), store.approvals, old(nodeStates),
              nodeStates)
      ensures passes + |PendingSet(nodeStates)| <= |PendingSet(old(nodeStates))| + 1
    {
      hide Leads, ApprovalsMatch, Coherent, Reachable, OpenedRows;
      hide ApprovalPass, SkipPass, Settled, Advances, HaltTriggered;
      passes := 0;
      SettleSettles(d, nodeStates) by { CoverOf(d); }
      NoneOpened(runId, OpeningRows(d, around), store.approvals, nodeStates);
      AdvancesNowhere(nodeStates);
      while true
        invariant Leads(d, from, Abs()) && ApprovalsMatch() && nodeStates.Keys == d.nodes.Keys
        invariant Settle(d, nodeStates) == Settle(d, old(nodeStates)) && Advances(old(nodeStates), nodeStates)
        invariant Abs() == old(Abs()).(mem := nodeStates, rows := Abs().rows)
        invariant OpenedRows(runId, OpeningRows(d, around), old(store.approvals), store.approvals, old(nodeStates),
                  nodeStates)
        invariant passes + |PendingSet(nodeStates)| <= |PendingSet(old(nodeStates))|
        decreases |PendingSet(nodeStates)|
      {
        var snapshot := nodeStates;
        ghost var rows := store.approvals;
        passes := passes + 1;
        RoundAdvances(d, nodeStates);
        ProcessApprovals(around, from);
        ghost var middle := nodeStates;
        ProcessSkips(from);
        AdvancesShrinks(snapshot, nodeStates);
        AdvancesOn(old(nodeStates), snapshot, nodeStates);
        SkipsOpenNothing(d, middle);
        OpenedRowsThenSkips(runId, OpeningRows(d, around), rows, store.approvals, snapshot, middle, nodeStates);
        OpenedRowsOn(runId, OpeningRows(d, around), old(store.approvals), rows, store.approvals,
          old(nodeStates), snapshot, nodeStates);
        if nodeStates == snapshot {
          break;
        }
      }
    }

    // -------------------------------------------------------------------------
    // Waves
    // -------------------------------------------------------------------------

    method ReadyNodes() returns (ready: seq<NodeId>)
      requires WellFormed(d) && nodeStates.Keys == d.nodes.Keys
      ensures forall n :: n in ready <==> InNextWave(d, nodeStates, n)
      ensures forall i, j | 0 <= i < j < |ready| :: ready[i] != ready[j]
    {
      OrderCoversGraph(d);
      CoverOf(d);
      hide Decide, WellFormed, InNextWave;
      ready := [];
      var halts := [];
      for i := 0 to |d.order|
        invariant Gathered(d, nodeStates, d.order[..i], ready, halts)
      {
        var nid := d.order[i];
        var node := d.nodes[nid];
        assert nid !in d.order[..i] && d.order[..i + 1] == d.order[..i] + [nid];
        ReadyIff(d, nodeStates, nid);
        GatherNext(d, nodeStates, d.order[..i], ready, halts, nid);
        hide Gathered, IsReady;
        if nodeStates[nid].status == Pending && node.kind != Approval {
          if Decide(node, nodeStates) == Ready {
            ready := ready + [nid];
            if node.kind == Halt {
              halts := halts + [nid];
            }
          }
        }
      }
      assert d.order[..|d.order|] == d.order;
      forall n
        ensures IsReady(d, nodeStates, n) ==> n in d.order
      {
        assert n in d.nodes ==> n in (set n | n in d.order);
      }
      NextWaveOf(d, nodeStates, ready, halts);
      if halts != [] {
        ready := halts;
      }
    }

    /** A wave task takes its turn: it looks again, and marks its node running if it may still run. */
    method BeginNode(nid: NodeId, ghost from: Engine) returns (started: bool)
      requires Reachable(d, from) && Leads(d, from, Abs()) && ApprovalsMatch() && dirty == {}
      requires Waves(Abs()) && nid in todo && nid in nodeStates && nid in d.nodes
      modifies this`nodeStates, this`dirty, this`todo, this`live, store`nodes
      ensures Leads(d, from, Abs()) && ApprovalsMatch()
      ensures Abs() == BegunStored(d, old(Abs()), nid)
      ensures started <==> old(nodeStates)[nid].status == Pending && Decide(d.nodes[nid], old(nodeStates)) == Ready
    {
      hide Leads, Decide, Reachable, Matches;
      ghost var t := Abs();
      LeadsBegun(d, from, t, nid);
      if t.mem[nid].status == Pending {
        LeadsToReachable(d, from, t);
        PendingWasNeverOpened(d, t, nid);
        UnkeptWasNeverOpened(runId, store.approvals, store.Rows(runId), verdicts, nid);
      }
      assert nid in d.nodes && nid in nodeStates;
      todo := todo - {nid};
      started := false;
      if nodeStates[nid].status == Pending {
        var decision := Decide(d.nodes[nid], nodeStates);
        if decision == Skip {
          StoreNode(nid, SKIP);
        } else if decision == Ready {
          live := live + {nid};
          started := true;
          StoreNode(nid, NodeState(Running, nodeStates[nid].output));
        }
      }
      BegunIsStored(d, t, nid);
      assert Abs() == BegunStored(d, t, nid);
    }

    /** A live task comes back: its output is checked, and its node ends done or failed. */
    method EndNode(nid: NodeId, r: RunnerResult, ghost from: Engine) returns (ok: bool)
      requires nid in d.nodes && (r.Raised? ==> d.nodes[nid].kind == Agent || d.nodes[nid].kind == Ticket)
      requires Reachable(d, from) && Leads(d, from, Abs()) && ApprovalsMatch() && dirty == {}
      requires Waves(Abs()) && nid in live && nid in nodeStates && nid in d.nodes
      modifies this`nodeStates, this`dirty, this`live, this`failed, this`stage, store`nodes
      ensures Leads(d, from, Abs()) && ApprovalsMatch()
      ensures Abs() == EndedStored(old(Abs()), nid, EndState(d.nodes[nid], r))
      ensures r.Raised? ==> nodeStates == old(nodeStates)[nid := NodeState(Failed, Null)]
      ensures r.Returned? ==> nodeStates == old(nodeStates)[nid := NodeState(if ok then Done else Failed, r.output)]
      ensures ok <==>
                && r.Returned?
                && !((d.nodes[nid].kind == Agent || d.nodes[nid].kind == Ticket)
                     && (Denied(d.nodes[nid].agent, r.output) || Undelivered(r.output)))
      ensures ok <==> EndState(d.nodes[nid], r).status == Done
    {
      hide Leads, Reachable, Refused, Matches;
      ghost var t := Abs();
      assert (runId, nid) !in store.approvals by {
        LeadsToReachable(d, from, t);
        LiveWasNeverOpened(d, t, nid);
        UnkeptWasNeverOpened(runId, store.approvals, store.Rows(runId), verdicts, nid);
      }
      ok := r.Returned? && !Refused(d.nodes[nid], r.output);
      var ns := if ok then NodeState(Done, r.output) else NodeState(Failed, if r.Returned? then r.output else Null);
      LeadsBack(d, from, t, nid, if r.Returned? then Some(r.output) else None);
      assert ns == CameBack(d.nodes[nid], if r.Returned? then Some(r.output) else None);
      CameBackIs(d.nodes[nid], r);
      hide CameBack, Waves, EndState;
      live := live - {nid};
      if !ok {
        failed := failed + [nid];
        stage := if stage == Wave then Broken else stage;
        assert (set n | n in failed) == t.failed + {nid};
      }
      StoreNode(nid, ns);
      assert Abs() == EndedStored(t, nid, ns);
    }

    /** One turn of a wave task that has not begun. */
    method TurnToBegin(nid: NodeId, tasks: set<NodeId>, running: set<NodeId>, ghost from: Engine)
      returns (tasks': set<NodeId>, running': set<NodeId>)
      requires Reachable(d, from) && Leads(d, from, Abs()) && ApprovalsMatch() && dirty == {}
      requires nodeStates.Keys == d.nodes.Keys && stage == Wave
      requires tasks == todo && running == live && nid in tasks && nid in d.nodes
      modifies this`nodeStates, this`dirty, this`todo, this`live, store`nodes
      ensures Leads(d, from, Abs()) && ApprovalsMatch() && dirty == {}
      ensures nodeStates.Keys == d.nodes.Keys
      ensures tasks' == todo == tasks - {nid} && running' == live && running' <= running + {nid}
      ensures Advances(old(nodeStates), nodeStates)
      ensures old(nodeStates)[nid].status == Pending && Decide(d.nodes[nid], old(nodeStates)) == Ready
              ==> nodeStates[nid].status == Running
    {
      hide Leads, Reachable, Matches, Decide;
      tasks' := tasks - {nid};
      var started := BeginNode(nid, from);
      running' := if started then running + {nid} else running;
    }

    /** One turn of a live task: it ends, and on success the approvals behind it are decided. */
    method TurnToEnd(nid: NodeId, running: set<NodeId>, around: Surroundings, ghost from: Engine)
      returns (running': set<NodeId>, ok: bool)
      requires Fits(d, around)
      requires WellFormed(d) && Reachable(d, from) && Leads(d, from, Abs()) && ApprovalsMatch() && dirty == {}
      requires nodeStates.Keys == d.nodes.Keys && stage == Wave && failed == []
      requires running == live && nid in running && nid in d.nodes
      modifies this`nodeStates, this`dirty, this`live, this`failed, this`stage, store`nodes, store`approvals
      ensures Leads(d, from, Abs()) && ApprovalsMatch() && dirty == {}
      ensures nodeStates.Keys == d.nodes.Keys && stage == (if ok then Wave else Broken)
      ensures running' == live == running - {nid}
      ensures PendingSet(nodeStates) <= PendingSet(old(nodeStates))
      ensures ok <==> failed == []
      ensures ok <==> EndState(d.nodes[nid], around.answers[nid]).status == Done
      ensures Advances(old(nodeStates)[nid := EndState(d.nodes[nid], around.answers[nid])], nodeStates)
    {
      hide Leads, Reachable, Matches, Decide, WellFormed, Refused, Advances, EndState;
      ghost var t := Abs();
      running' := running - {nid};
      SameEmptiness(failed, t.failed);
      ok := EndNode(nid, around.answers[nid], from);
      EndsSomehow(d.nodes[nid], around.answers[nid]);
      EndedPending(t, nid, nodeStates[nid]);
      AdvancesNowhere(nodeStates);
      ghost var middle := nodeStates;
      if ok {
        SameEmptiness(failed, Abs().failed);
        ProcessApprovals(around, from);
        ApprovalScanAdvances(d, middle, |d.order|);
        AdvancesShrinks(middle, ApprovalPass(d, middle));
      } else {
        assert nid in Abs().failed;
      }
    }

    /** Let the tasks of a wave take their turns and come back in any order, up to a failure. */
    method RunTasks(all: set<NodeId>, around: Surroundings, ghost from: Engine, ghost start: States) returns (ok: bool)
      requires Fits(d, around) && AsAnswered(d, around, start, nodeStates)
      requires WellFormed(d) && Reachable(d, from) && Leads(d, from, Abs()) && ApprovalsMatch()
      requires nodeStates.Keys == d.nodes.Keys && dirty == {} && stage == Wave && failed == []
      requires todo == all && live == {} && all != {} && all <= d.nodes.Keys
      requires forall n | n in all :: nodeStates[n].status == Pending && Decide(d.nodes[n], nodeStates) == Ready
      modifies this`nodeStates, this`dirty, this`todo, this`live, this`failed, this`stage, store`nodes, store`approvals
      ensures Leads(d, from, Abs()) && ApprovalsMatch()
      ensures nodeStates.Keys == d.nodes.Keys && dirty == {}
      ensures ok ==> stage == Wave && todo == {} && live == {} && failed == []
      ensures !ok ==> stage == Broken && failed != []
      ensures |PendingSet(nodeStates)| < |PendingSet(old(nodeStates))|
      ensures AsAnswered(d, around, start, nodeStates)
    {
      hide Leads, Reachable, Matches, WellFormed, Decide, Advances, PendingSet, AsAnswered, EndState, Fits;
      var tasks, running := all, {};
      ProgressAtFirst(nodeStates, all);
      hide Progress;
      while tasks != {} || running != {}
        invariant Leads(d, from, Abs()) && ApprovalsMatch()
        invariant nodeStates.Keys == d.nodes.Keys && dirty == {} && failed == [] && stage == Wave
        invariant tasks == todo && running == live && tasks <= all && running <= all
        invariant Progress(old(nodeStates), nodeStates, all, tasks, running)
        invariant AsAnswered(d, around, start, nodeStates)
        decreases |tasks|, |running|
      {
        ghost var before := nodeStates;
        var turn: bool := *;
        if tasks != {} && (running == {} || turn) {
          var nid :| nid in tasks;
          ghost var tasks0, running0 := tasks, running;
          tasks, running := TurnToBegin(nid, tasks, running, from);
          ProgressOnTurn(old(nodeStates), before, nodeStates, all, tasks0, running0, nid, tasks, running);
          StillAsAnswered(d, around, start, before, nodeStates);
        } else {
          var nid :| nid in running;
          var done;
          ghost var running0 := running;
          running, done := TurnToEnd(nid, running, around, from);
          IsAnswered(d, around, start, before, nodeStates, nid);
          ProgressOnEnd(old(nodeStates), before, nodeStates, all, tasks, running0, nid);
          if !done {
            return false;
          }
        }
      }
      ProgressAtLast(old(nodeStates), nodeStates, all);
      ok := true;
    }

    /** Run the ready nodes as one wave. After a failure the tasks still live are left behind. */
    method RunWave(ready: seq<NodeId>, around: Surroundings, ghost from: Engine, ghost start: States) returns (ok: bool)
      requires Fits(d, around) && AsAnswered(d, around, start, nodeStates)
      requires WellFormed(d) && Reachable(d, from) && Leads(d, from, Abs()) && ApprovalsMatch()
      requires nodeStates.Keys == d.nodes.Keys && todo == {} && live == {}
      requires Proceeds(d, Abs()) && ready != []
      requires forall n :: n in ready <==> InNextWave(d, nodeStates, n)
      modifies this`nodeStates, this`dirty, this`todo, this`live, this`failed, this`stage, store`nodes, store`approvals
      ensures Leads(d, from, Abs()) && ApprovalsMatch()
      ensures nodeStates.Keys == d.nodes.Keys && dirty == {}
      ensures ok ==> stage == Boundary && todo == {} && live == {} && failed == []
      ensures !ok ==> stage == Broken && failed != []
      ensures |PendingSet(nodeStates)| < |PendingSet(old(nodeStates))|
      ensures AsAnswered(d, around, start, nodeStates)
    {
      hide Leads, Reachable, Matches, WellFormed, Decide, Settled, InNextWave, RejectionAborts, PendingSet;
      hide AsAnswered, Fits;
      SameEmptiness(failed, Abs().failed);
      LeadsLaunch(d, from, Abs(), ready);
      forall n | n in ready
        ensures n in d.nodes && nodeStates[n].status == Pending && Decide(d.nodes[n], nodeStates) == Ready
      {
        WaveNodeIsNode(d, nodeStates, n);
      }
      stage := Wave;
      var all := set n | n in ready;
      todo := all;
      assert ready[0] in all;
      ok := RunTasks(all, around, from, start);
      if ok {
        SameEmptiness(failed, Abs().failed);
        LeadsEndWave(d, from, Abs());
        stage := Boundary;
      }
    }

    // -------------------------------------------------------------------------
    // The run loop
    // -------------------------------------------------------------------------

    /** The first approval, in node order, whose rejection aborts the run. */
    method RejectedAbortNode() returns (r: Option<NodeId>)
      requires WellFormed(d) && nodeStates.Keys == d.nodes.Keys
      ensures r.Some? ==> r.value in d.nodes && RejectionAborts(d, nodeStates, r.value)
      ensures r.None? ==> forall n | n in d.nodes :: !RejectionAborts(d, nodeStates, n)
      ensures r.Some? <==>
                exists n :: n in d.nodes && d.nodes[n].kind == Approval && d.nodes[n].abortOnReject
                            && nodeStates[n].status == Rejected
    {
      hide Acyclic;
      OrderCoversGraph(d);
      for i := 0 to |d.order|
        invariant forall n | n in d.order[..i] :: !RejectionAborts(d, nodeStates, n)
      {
        var nid := d.order[i];
        if d.nodes[nid].kind == Approval && d.nodes[nid].abortOnReject && nodeStates[nid].status == Rejected {
          return Some(nid);
        }
      }
      assert d.order[..|d.order|] == d.order;
      assert forall n | n in d.nodes :: n in d.order by {
        CoverOf(d);
        assert forall n | n in d.nodes :: n in (set n | n in d.order);
      }
      return None;
    }

    /** Settle the boundary, so that the run can go on or stop. */
    method ReachBoundary(around: Surroundings, ghost from: Engine, ghost start: States)
      requires Fits(d, around) && AsAnswered(d, around, start, nodeStates)
      requires WellFormed(d) && Reachable(d, from) && Leads(d, from, Abs()) && ApprovalsMatch()
      requires stage == Boundary && dirty == {} && nodeStates.Keys == d.nodes.Keys
      modifies this`nodeStates, this`dirty, store`nodes, store`approvals
      ensures Leads(d, from, Abs()) && ApprovalsMatch() && Reachable(d, Abs())
      ensures Quiet(d, Abs()) && Settled(d, nodeStates)
      ensures nodeStates.Keys == d.nodes.Keys && AsAnswered(d, around, start, nodeStates)
      ensures Abs() == old(Abs()).(mem := nodeStates, rows := Abs().rows)
      ensures |PendingSet(nodeStates)| <= |PendingSet(old(nodeStates))|
    {
      hide Leads, Reachable, Matches, WellFormed, Settled, PendingSet, Advances, OpenedRows, AsAnswered, Fits;
      ghost var passes := SettleBoundary(around, from);
      StillAsAnswered(d, around, start, old(nodeStates), nodeStates);
      AdvancesShrinks(old(nodeStates), nodeStates);
      SubsetSize(PendingSet(nodeStates), PendingSet(old(nodeStates)));
      LeadsToReachable(d, from, Abs());
      SettledIsQuiet(d, Abs());
    }

    method StopWith(result: Result, ghost from: Engine)
      requires Leads(d, from, Abs()) && Enabled(d, Abs(), Stop(result))
      modifies this`stage
      ensures Abs() == old(Abs()).(stage := Stopped(result)) && Leads(d, from, Abs())
    {
      hide Leads, Enabled;
      LeadsStop(d, from, Abs(), result);
      stage := Stopped(result);
    }

    /** A failure, an aborting rejection or a pause keeps the settled boundary from going on. */
    method StopBeforeWave(ghost from: Engine) returns (stop: Option<Result>)
      requires WellFormed(d) && Leads(d, from, Abs()) && Quiet(d, Abs()) && nodeStates.Keys == d.nodes.Keys
      modifies this`stage
      ensures stop.None? ==> Abs() == old(Abs()) && Proceeds(d, Abs()) && failed == []
      ensures stop.Some? ==> Abs() == old(Abs()).(stage := Stopped(stop.value)) && Leads(d, from, Abs())
      ensures failed != [] ==> stop == Some(FailedRun)
      ensures stop == Some(FailedRun) ==> failed != [] || exists n | n in d.nodes :: RejectionAborts(d, nodeStates, n)
      ensures stop == Some(Paused) ==> pauseRequested && !AllTerminal(nodeStates)
      ensures stop == None || stop == Some(FailedRun) || stop == Some(Paused)
      ensures stop != Some(FailedRun) ==> forall n | n in d.nodes :: !RejectionAborts(d, nodeStates, n)
    {
      hide Leads, WellFormed, Settled, RejectionAborts, Enabled, AllTerminal;
      SameEmptiness(failed, Abs().failed);
      if failed != [] {
        StopEnabledFailed(d, Abs());
        StopWith(FailedRun, from);
        return Some(FailedRun);
      }
      var rejected := RejectedAbortNode();
      if rejected.Some? {
        StopEnabledRejected(d, Abs(), rejected.value);
        StopWith(FailedRun, from);
        return Some(FailedRun);
      }
      if pauseRequested && !AllTerminal(nodeStates) {
        StopEnabledPaused(d, Abs());
        StopWith(Paused, from);
        return Some(Paused);
      }
      stop := None;
    }

    /** Nothing is left to schedule: the run waits for an approval or has come to its end. */
    method StopAfterWaves(ghost from: Engine) returns (result: Result)
      requires WellFormed(d) && Reachable(d, from) && Leads(d, from, Abs()) && nodeStates.Keys == d.nodes.Keys
      requires Proceeds(d, Abs()) && NothingReady(d, Abs())
      modifies this`stage
      ensures Abs() == old(Abs()).(stage := Stopped(result)) && Leads(d, from, Abs())
      ensures result == if SomeWaiting(nodeStates) then WaitingApproval else DoneRun
      ensures result == DoneRun ==> AllTerminal(nodeStates)
    {
      hide Leads, WellFormed, Reachable, Enabled, Proceeds, NothingReady, AllTerminal, SomeWaiting;
      LeadsToReachable(d, from, Abs());
      if SomeWaiting(nodeStates) {
        StopEnabledWaiting(d, Abs());
        StopWith(WaitingApproval, from);
        return WaitingApproval;
      }
      if AllTerminal(nodeStates) {
        StopEnabledDone(d, Abs());
        StopWith(DoneRun, from);
        return DoneRun;
      }
      NeverStalls(d, Abs());
      assert false;
    }

    /** Once around the loop: settle the boundary, stop there, or run a wave. */
    method OneRound(around: Surroundings, ghost from: Engine, ghost start: States)
      returns (stop: Option<Result>, ghost waves: nat)
      requires Fits(d, around) && AsAnswered(d, around, start, nodeStates)
      requires WellFormed(d) && Reachable(d, from) && Leads(d, from, Abs()) && ApprovalsMatch()
      requires stage == Boundary && dirty == {} && nodeStates.Keys == d.nodes.Keys
      modifies this`nodeStates, this`dirty, this`todo, this`live, this`failed, this`stage, store`nodes, store`approvals
      ensures Leads(d, from, Abs()) && ApprovalsMatch() && dirty == {} && nodeStates.Keys == d.nodes.Keys
      ensures AsAnswered(d, around, start, nodeStates)
      ensures waves + |PendingSet(nodeStates)| <= |PendingSet(old(nodeStates))|
      ensures stop.None? ==> stage == Boundary && waves == 1 && failed == [] && old(failed) == []
      ensures stop.Some? ==> stage == Stopped(stop.value)
      ensures old(failed) != [] ==> stop == Some(FailedRun) && waves == 0
      ensures pauseRequested ==> waves == 0 && stop.Some?
      ensures stop == Some(DoneRun) ==> AllTerminal(nodeStates) && failed == []
      ensures stop == Some(WaitingApproval) ==> SomeWaiting(nodeStates) && Settled(d, nodeStates)
      ensures stop == Some(Paused) ==> pauseRequested && !AllTerminal(nodeStates) && Settled(d, nodeStates)
      ensures stop == Some(FailedRun) ==> failed != [] || exists n | n in d.nodes :: RejectionAborts(d, nodeStates, n)
      ensures stop.Some? && stop != Some(FailedRun) ==> forall n | n in d.nodes :: !RejectionAborts(d, nodeStates, n)
    {
      hide Leads, Reachable, Matches, WellFormed, Decide, Settled, InNextWave, RejectionAborts, PendingSet;
      hide Advances, OpenedRows, Enabled, Proceeds, NothingReady, AllTerminal, SomeWaiting, Quiet, AsAnswered, Fits;
      waves := 0;
      ReachBoundary(around, from, start);
      stop := StopBeforeWave(from);
      if stop.Some? {
        return;
      }
      var ready := ReadyNodes();
      if ready == [] {
        NothingInWave(d, Abs(), ready);
        var result := StopAfterWaves(from);
        return Some(result), 0;
      }
      BoundaryIsIdle(d, Abs());
      SomethingToRun(d, Abs(), ready);
      var ok := RunWave(ready, around, from, start);
      waves := 1;
      if !ok {
        StopEnabledFailed(d, Abs());
        StopWith(FailedRun, from);
        stop := Some(FailedRun);
      }
    }

    /**
     Run to a point where the worker can let go. It always gets there: each wave takes a node out
     of the pending ones, and no settled boundary is without a way on. It may be called again once it
     has returned, also after a failure; then no wave is started.
     */
    method Run(around: Surroundings) returns (result: Result, ghost waves: nat)
      requires Fits(d, around)
      requires Valid() && dirty == {} && (stage == Boundary || (stage.Stopped? && todo == {} && live == {}))
      modifies this`nodeStates, this`dirty, this`todo, this`live, this`failed, this`stage, store`nodes, store`approvals
      ensures Valid() && Leads(d, old(Abs()).(stage := Boundary), Abs())
      ensures stage == Stopped(result) && dirty == {}
      ensures old(failed) != [] ==> result == FailedRun && waves == 0
      ensures pauseRequested ==> waves == 0
      ensures waves <= |PendingSet(old(nodeStates))|
      ensures AsAnswered(d, around, old(nodeStates), nodeStates)
      ensures result == DoneRun ==> AllTerminal(nodeStates) && failed == []
      ensures result == WaitingApproval ==> SomeWaiting(nodeStates) && Settled(d, nodeStates)
      ensures result == Paused ==> pauseRequested && !AllTerminal(nodeStates) && Settled(d, nodeStates)
      ensures result == FailedRun ==> failed != [] || exists n | n in d.nodes :: RejectionAborts(d, nodeStates, n)
      ensures result != FailedRun ==> forall n | n in d.nodes :: !RejectionAborts(d, nodeStates, n)
    {
      hide Leads, Reachable, Matches, WellFormed, Decide, Settled, InNextWave, RejectionAborts, PendingSet;
      hide Advances, OpenedRows, Enabled, Proceeds, NothingReady, AllTerminal, SomeWaiting, Quiet, AsAnswered, Fits;
      NothingAnswered(d, around, nodeStates);
      CalledOn(d, Abs());
      stage := Boundary;
      ghost var from := Abs();
      waves := 0;
      LeadsNowhere(d, from);
      MemoryCoversGraph(d, from);
      while true
        invariant Leads(d, from, Abs()) && ApprovalsMatch()
        invariant nodeStates.Keys == d.nodes.Keys && dirty == {} && stage == Boundary
        invariant failed == old(failed) && (failed != [] || pauseRequested ==> waves == 0)
        invariant AsAnswered(d, around, old(nodeStates), nodeStates)
        invariant waves + |PendingSet(nodeStates)| <= |PendingSet(from.mem)|
        decreases |PendingSet(nodeStates)|
      {
        var stop; ghost var more;
        stop, more := OneRound(around, from, old(nodeStates));
        waves := waves + more;
        if stop.Some? {
          result := stop.value;
          break;
        }
      }
      LeadsToReachable(d, from, Abs());
    }

    // -------------------------------------------------------------------------
    // Approvals
    // -------------------------------------------------------------------------

    /**
     Judge a waiting approval. The approvals table decides who wins: on a lost race nothing
     changes; on a win the row moves once, before its deadline, and the node takes the outcome.
     */
    method Approve(nid: NodeId, verdict: Verdict, now: Store.Time) returns (r: ApproveResult)
      requires Valid() && stage != Down && dirty == {} && nid in d.nodes && !verdict.TimeOut?
      modifies this`nodeStates, this`dirty, this`verdicts, store`nodes, store`approvals
      ensures Valid()
      ensures r == NotWaiting <==> !(nid in old(nodeStates) && old(nodeStates)[nid].status == Waiting)
      ensures r == Judged <==>
                && nid in old(nodeStates) && old(nodeStates)[nid].status == Waiting
                && Store.CasSucceeds(Store.Find(old(store.approvals), (runId, nid)),
                                     Store.WaitingApprovalRow, Store.RowStatus(verdict), now)
      ensures r == LostToTimeout <==>
                && r != NotWaiting && r != Judged
                && (runId, nid) in old(store.approvals)
                && old(store.approvals)[(runId, nid)].status == Store.TimedOut
      ensures r == Judged ==>
                && old(nodeStates)[nid] == OPEN
                && store.approvals == old(store.approvals)[(runId, nid) :=
                     Store.Advanced(old(store.approvals)[(runId, nid)], Store.RowStatus(verdict),
                                    Some(verdict.approver), Some(verdict.comment))]
                && Abs() == Stored(old(Abs()), nid, Outcome(verdict, UpstreamOutputs(d.nodes[nid], old(nodeStates))))
                              .(verdicts := old(verdicts)[nid := verdict])
      ensures r != Judged ==> Abs() == old(Abs()) && store.approvals == old(store.approvals)
    {
      hide Reachable, Matches, WellFormed;
      ghost var s := Abs();
      MemoryCoversGraph(d, s);
      if nodeStates[nid].status != Waiting {
        return NotWaiting;
      }
      ghost var table := store.approvals;
      var ok := store.CasUpdateApproval(
        (runId, nid), Store.WaitingApprovalRow, Store.RowStatus(verdict), Some(verdict.approver),
          Some(verdict.comment), now);
      if !ok {
        if (runId, nid) in store.approvals && store.approvals[(runId, nid)].status == Store.TimedOut {
          return LostToTimeout;
        }
        return LostRace;
      }
      var outcome := Outcome(verdict, UpstreamOutputs(d.nodes[nid], nodeStates));
      JudgeAndTake(d, s, runId, table, nid, verdict, UpstreamOutputs(d.nodes[nid], nodeStates));
      verdicts := verdicts[nid := verdict];
      MatchesJudge(runId, table, s.rows, s.verdicts, nid, store.approvals[(runId, nid)], verdict);
      StoreNode(nid, outcome);
      r := Judged;
    }
  }
}