/** The boundary passes over approvals and skips as functions, and runs between two states. */
module Passes {
  import opened Values
  import opened Sets
  import opened Dags
  import opened States
  import opened Runs

  // ---------------------------------------------------------------------------
  // Some run leads from one state to another
  // ---------------------------------------------------------------------------

  /** The actions that the executor takes itself, as opposed to crashes, resumes, callers and approvers. */
  predicate Own(a: Action) {
    match a
    case Crash => false
    case Restore => false
    case RequestPause => false
    case Judge(_, _) => false
    case WriteVerdict(_, _) => false
    case TakeVerdict(_, _) => false
    case Rerun => false
    case Switch(_) => false
    case _ => true
  }

  /** Actions of the executor alone lead from one state to the other. */
  ghost predicate Leads(d: Dag, s: Engine, t: Engine) {
    exists acts :: Valid(d, s, acts) && Exec(d, s, acts) == t && forall a | a in acts :: Own(a)
  }

  lemma LeadsNowhere(d: Dag, s: Engine)
    ensures Leads(d, s, s)
  {
    assert Valid(d, s, []) && Exec(d, s, []) == s;
  }

  lemma LeadsFurther(d: Dag, s: Engine, t: Engine, a: Action)
    requires Leads(d, s, t) && Enabled(d, t, a) && Own(a)
    ensures Leads(d, s, Apply(d, t, a))
  {
    hide Enabled, Apply;
    var acts :| Valid(d, s, acts) && Exec(d, s, acts) == t && forall a | a in acts :: Own(a);
    ExecSnoc(d, s, acts, a);
    assert forall b | b in acts + [a] :: Own(b);
  }

  lemma LeadsToReachable(d: Dag, s: Engine, t: Engine)
    requires Reachable(d, s) && Leads(d, s, t)
    ensures Reachable(d, t)
  {
    var first :| Valid(d, Init(d), first) && Exec(d, Init(d), first) == s;
    var acts :| Valid(d, s, acts) && Exec(d, s, acts) == t && forall a | a in acts :: Own(a);
    ExecConcat(d, Init(d), first, acts);
  }

  /** No row is outstanding. */
  predicate Clean(s: Engine) {
    s.dirty == {} && s.owes == {}
  }

  /** A node state set in memory and written to its row at once. */
  function Stored(s: Engine, n: NodeId, ns: NodeState): Engine {
    s.(mem := s.mem[n := ns], rows := s.rows[n := ns])
  }

  /** Take an action that sets a node, and persist the node. */
  lemma LeadsStored(d: Dag, s: Engine, t: Engine, a: Action, n: NodeId)
    requires Leads(d, s, t) && Enabled(d, t, a) && t.stage != Down && Clean(t)
    requires (a.OpenApproval? || a.SkipNode?) && a.n == n
    ensures n in Apply(d, t, a).mem && Leads(d, s, Stored(t, n, Apply(d, t, a).mem[n]))
  {
    hide Decide, Settled, Refused, HaltTriggered, Leads, Parked;
    var u := Apply(d, t, a);
    LeadsFurther(d, s, t, a);
    assert u.dirty == {n};
    LeadsFurther(d, s, u, Persist(n));
    assert Apply(d, u, Persist(n)) == Stored(t, n, u.mem[n]);
  }

  /** A wave task takes its turn and, if its node moved, writes the row. */
  function BegunStored(d: Dag, s: Engine, n: NodeId): Engine
    requires n in s.mem && n in d.nodes
  {
    var u := Begun(s, n, Decide(d.nodes[n], s.mem));
    u.(rows := if u.mem[n] == s.mem[n] then s.rows else s.rows[n := u.mem[n]], dirty := s.dirty, owes := s.owes)
  }

  lemma BegunIsStored(d: Dag, s: Engine, n: NodeId)
    requires n in s.mem && n in d.nodes && Clean(s)
    ensures var t := s.(todo := s.todo - {n});
            BegunStored(d, s, n) ==
              if s.mem[n].status != Pending then t
              else match Decide(d.nodes[n], s.mem)
                case Ready => Stored(t.(live := s.live + {n}, mine := s.mine + {n}), n,
                  NodeState(Running, s.mem[n].output))
                case Skip => Stored(t, n, SKIP)
                case Blocked => t
  {
    hide Decide;
    assert s.mem[n := s.mem[n]] == s.mem;
  }

  lemma LeadsBegun(d: Dag, s: Engine, t: Engine, n: NodeId)
    requires Leads(d, s, t) && Enabled(d, t, Begin(n)) && Clean(t)
    ensures Leads(d, s, BegunStored(d, t, n))
  {
    hide Decide, Leads;
    LeadsFurther(d, s, t, Begin(n));
    var u := Apply(d, t, Begin(n));
    if u.mem[n] != t.mem[n] {
      assert u.dirty == {n};
      LeadsFurther(d, s, u, Persist(n));
      assert Apply(d, u, Persist(n)) == BegunStored(d, t, n);
    } else {
      assert u == BegunStored(d, t, n);
    }
  }

  /** The node of a live task ends, done or failed, and its row is written. */
  function EndedStored(s: Engine, n: NodeId, ns: NodeState): Engine {
    var t := s.(mem := s.mem[n := ns], rows := s.rows[n := ns], live := s.live - {n}, mine := s.mine - {n});
    if ns.status == Failed
    then t.(failed := s.failed + {n}, stage := if s.stage == Wave then Broken else s.stage)
    else t
  }

  lemma LeadsEnded(d: Dag, s: Engine, t: Engine, a: Action, n: NodeId)
    requires Leads(d, s, t) && Enabled(d, t, a) && Clean(t)
    requires (a.Finish? || a.Break?) && a.n == n
    ensures n in Apply(d, t, a).mem && Leads(d, s, EndedStored(t, n, Apply(d, t, a).mem[n]))
  {
    hide Leads, Refused;
    LeadsFurther(d, s, t, a);
    var u := Apply(d, t, a);
    assert u.dirty == {n};
    LeadsFurther(d, s, u, Persist(n));
    assert Apply(d, u, Persist(n)) == EndedStored(t, n, u.mem[n]);
  }

  lemma LeadsFinished(d: Dag, s: Engine, t: Engine, n: NodeId, output: Value)
    requires Leads(d, s, t) && Clean(t)
    requires Waves(t) && n in t.live && n in t.mine && n in t.mem && n in d.nodes
    ensures Leads(d, s, EndedStored(t, n, NodeState(if Refused(d.nodes[n], output) then Failed else Done, output)))
  {
    hide Leads, Refused;
    LeadsEnded(d, s, t, Finish(n, output), n);
  }

  lemma LeadsBroken(d: Dag, s: Engine, t: Engine, n: NodeId)
    requires Leads(d, s, t) && Clean(t)
    requires Waves(t) && n in t.live && n in t.mine && n in t.mem && n in d.nodes
    requires d.nodes[n].kind == Agent || d.nodes[n].kind == Ticket
    ensures Leads(d, s, EndedStored(t, n, NodeState(Failed, Null)))
  {
    hide Leads, Refused;
    LeadsEnded(d, s, t, Break(n), n);
  }

  /** The state of a node whose task comes back, by output or by failure. */
  function CameBack(node: Node, output: Option<Value>): NodeState {
    match output
    case None => NodeState(Failed, Null)
    case Some(v) => NodeState(if Refused(node, v) then Failed else Done, v)
  }

  lemma LeadsBack(d: Dag, s: Engine, t: Engine, n: NodeId, output: Option<Value>)
    requires Leads(d, s, t) && Clean(t)
    requires Waves(t) && n in t.live && n in t.mine && n in t.mem && n in d.nodes
    requires output.None? ==> d.nodes[n].kind == Agent || d.nodes[n].kind == Ticket
    ensures Leads(d, s, EndedStored(t, n, CameBack(d.nodes[n], output)))
  {
    match output
    case None => LeadsBroken(d, s, t, n);
    case Some(v) => LeadsFinished(d, s, t, n, v);
  }

  lemma LeadsLaunch(d: Dag, s: Engine, t: Engine, ready: seq<NodeId>)
    requires Leads(d, s, t) && Proceeds(d, t) && t.live == {} && ready != []
    requires forall n :: n in ready <==> InNextWave(d, t.mem, n)
    ensures Leads(d, s, t.(stage := Wave, todo := set n | n in ready))
  {
    hide Leads, Settled, InNextWave, RejectionAborts;
    assert ready[0] in ready;
    assert ready[0] in d.nodes by { WaveNodeIsNode(d, t.mem, ready[0]); }
    LeadsFurther(d, s, t, Launch);
    assert (set n | n in ready) == (set n | n in d.nodes && InNextWave(d, t.mem, n)) by {
      forall n | n in ready
        ensures n in d.nodes
      {
        WaveNodeIsNode(d, t.mem, n);
      }
    }
  }

  lemma LeadsEndWave(d: Dag, s: Engine, t: Engine)
    requires Leads(d, s, t) && Enabled(d, t, EndWave)
    ensures Leads(d, s, t.(stage := Boundary))
  {
    hide Leads;
    LeadsFurther(d, s, t, EndWave);
  }

  lemma LeadsStop(d: Dag, s: Engine, t: Engine, result: Result)
    requires Leads(d, s, t) && Enabled(d, t, Stop(result))
    ensures Leads(d, s, t.(stage := Stopped(result)))
  {
    hide Leads, Enabled;
    LeadsFurther(d, s, t, Stop(result));
  }

  lemma StopEnabledRejected(d: Dag, s: Engine, n: NodeId)
    requires Quiet(d, s) && RejectionAborts(d, s.mem, n)
    ensures Enabled(d, s, Stop(FailedRun))
  {
    hide Settled;
  }

  lemma StopEnabledFailed(d: Dag, s: Engine)
    requires s.stage == Broken || (Quiet(d, s) && s.failed != {})
    ensures Enabled(d, s, Stop(FailedRun))
  {
  }

  lemma StopEnabledPaused(d: Dag, s: Engine)
    requires Quiet(d, s) && s.failed == {} && s.pause && !AllTerminal(s.mem)
    requires forall n | n in d.nodes :: !RejectionAborts(d, s.mem, n)
    ensures Enabled(d, s, Stop(Paused))
  {
    hide Settled, RejectionAborts;
  }

  lemma StopEnabledWaiting(d: Dag, s: Engine)
    requires Proceeds(d, s) && NothingReady(d, s) && SomeWaiting(s.mem)
    ensures Enabled(d, s, Stop(WaitingApproval))
  {
    hide Proceeds, NothingReady;
  }

  lemma StopEnabledDone(d: Dag, s: Engine)
    requires Proceeds(d, s) && NothingReady(d, s) && !SomeWaiting(s.mem) && AllTerminal(s.mem)
    ensures Enabled(d, s, Stop(DoneRun))
  {
    hide Proceeds, NothingReady;
  }

  lemma WaveNodeIsNode(d: Dag, st: States, n: NodeId)
    requires InNextWave(d, st, n)
    ensures n in d.nodes && n in st && st[n].status == Pending && Decide(d.nodes[n], st) == Ready
  {
  }

  // ---------------------------------------------------------------------------
  // The passes
  // ---------------------------------------------------------------------------

  function Opened(d: Dag, st: States, n: NodeId): NodeState
    requires n in d.nodes
  {
    if Decide(d.nodes[n], st) == Ready then OPEN else SKIP
  }

  lemma LeadsOpened(d: Dag, s: Engine, t: Engine, n: NodeId)
    requires Leads(d, s, t) && Clean(t) && (t.stage == Boundary || Waves(t))
    requires ApprovalOpen(d, t.mem, n)
    ensures Leads(d, s, Stored(t, n, Opened(d, t.mem, n)))
  {
    hide Leads, Decide;
    LeadsStored(d, s, t, OpenApproval(n), n);
  }

  /** Decide the approval nodes among the first `k`, one after the other. */
  function ApprovalScan(d: Dag, st: States, k: nat): States
    requires k <= |d.order|
  {
    if k == 0 then st
    else
      var p, n := ApprovalScan(d, st, k - 1), d.order[k - 1];
      if ApprovalOpen(d, p, n) then p[n := Opened(d, p, n)] else p
  }

  function ApprovalPass(d: Dag, st: States): States {
    ApprovalScan(d, st, |d.order|)
  }

  predicate SkipsOne(d: Dag, st: States, n: NodeId) {
    n in d.nodes && n in st && d.nodes[n].kind != Approval && st[n].status == Pending
    && Decide(d.nodes[n], st) == Skip
  }

  function SkipScan(d: Dag, st: States, k: nat): States
    requires k <= |d.order|
  {
    if k == 0 then st
    else
      var p, n := SkipScan(d, st, k - 1), d.order[k - 1];
      if SkipsOne(d, p, n) then p[n := SKIP] else p
  }

  /** After a halt every pending node among the first `k` is skipped, whatever its kind. */
  function HaltScan(d: Dag, st: States, k: nat): States
    requires k <= |d.order|
  {
    if k == 0 then st
    else
      var p, n := HaltScan(d, st, k - 1), d.order[k - 1];
      if n in p && p[n].status == Pending then p[n := SKIP] else p
  }

  lemma OrderCoversGraph(d: Dag)
    requires WellFormed(d)
    ensures forall i | 0 <= i < |d.order| :: d.order[i] in d.nodes
  {
    assert forall i | 0 <= i < |d.order| :: d.order[i] in (set n | n in d.order);
  }

  lemma HaltSkips(d: Dag, s: Engine, n: NodeId)
    requires HaltTriggered(d, s.mem) && s.stage == Boundary
    requires n in d.nodes && n in s.mem && s.mem[n].status == Pending
    ensures Enabled(d, s, SkipNode(n)) && HaltTriggered(d, s.mem[n := SKIP])
  {
    hide Decide;
    var h :| h in d.nodes && d.nodes[h].kind == Halt && h in s.mem && s.mem[h].status == Done;
    assert s.mem[n := SKIP][h].status == Done;
  }

  lemma TurnSkips(d: Dag, s: Engine, n: NodeId)
    requires SkipsOne(d, s.mem, n) && s.stage == Boundary
    ensures Enabled(d, s, SkipNode(n))
  {
    hide Decide, HaltTriggered;
  }

  function SkipPass(d: Dag, st: States): States {
    if HaltTriggered(d, st) then HaltScan(d, st, |d.order|) else SkipScan(d, st, |d.order|)
  }

  // ---------------------------------------------------------------------------
  // Pending nodes only get fewer
  // ---------------------------------------------------------------------------

  function PendingSet(st: States): set<NodeId> {
    set n | n in st && st[n].status == Pending
  }

  /** Only pending nodes changed, and none became pending. */
  predicate Advances(before: States, after: States) {
    && after.Keys == before.Keys
    && forall n | n in before ::
         || after[n] == before[n]
         || (before[n].status == Pending && (after[n] == OPEN || after[n] == SKIP || after[n].status == Running))
  }

  lemma AdvancesShrinks(before: States, after: States)
    requires Advances(before, after)
    ensures PendingSet(after) <= PendingSet(before)
    ensures after == before || |PendingSet(after)| < |PendingSet(before)|
  {
    if after != before {
      var n :| n in before && after[n] != before[n];
      assert n in PendingSet(before) && n !in PendingSet(after);
      ProperSubsetSize(PendingSet(after), PendingSet(before));
    }
  }

  /** The measure of the run loop: pending nodes never come back. */
  lemma PendingShrinks(before: States, after: States, n: NodeId)
    requires PendingSet(after) <= PendingSet(before)
    requires n in PendingSet(before) && n !in PendingSet(after)
    ensures |PendingSet(after)| < |PendingSet(before)|
  {
    ProperSubsetSize(PendingSet(after), PendingSet(before));
  }

  lemma EndedPending(s: Engine, n: NodeId, ns: NodeState)
    requires n in s.mem && ns.status != Pending
    ensures PendingSet(EndedStored(s, n, ns).mem) <= PendingSet(s.mem)
  {
  }

  lemma {:induction false} ApprovalScanAdvances(d: Dag, st: States, k: nat)
    requires k <= |d.order|
    ensures Advances(st, ApprovalScan(d, st, k))
  {
    hide Decide;
    if k > 0 {
      ApprovalScanAdvances(d, st, k - 1);
    }
  }

  lemma {:induction false} SkipScanAdvances(d: Dag, st: States, k: nat)
    requires k <= |d.order|
    ensures Advances(st, SkipScan(d, st, k)) && Advances(st, HaltScan(d, st, k))
  {
    hide Decide;
    if k > 0 {
      SkipScanAdvances(d, st, k - 1);
    }
  }

  lemma AdvancesNowhere(st: States)
    ensures Advances(st, st)
  {
  }

  lemma {:induction false} ScansSkip(d: Dag, st: States, k: nat)
    requires k <= |d.order|
    ensures SkipScan(d, st, k).Keys == HaltScan(d, st, k).Keys == st.Keys
    ensures forall n | n in st :: SkipScan(d, st, k)[n] == st[n] || SkipScan(d, st, k)[n] == SKIP
    ensures forall n | n in st :: HaltScan(d, st, k)[n] == st[n] || HaltScan(d, st, k)[n] == SKIP
  {
    hide Decide;
    if k > 0 {
      ScansSkip(d, st, k - 1);
    }
  }

  lemma SkipsOpenNothing(d: Dag, st: States)
    ensures SkipPass(d, st).Keys == st.Keys
    ensures forall n | n in st :: SkipPass(d, st)[n] == st[n] || SkipPass(d, st)[n] == SKIP
  {
    hide HaltTriggered;
    ScansSkip(d, st, |d.order|);
  }

  lemma CoverOf(d: Dag)
    requires WellFormed(d)
    ensures (set n | n in d.order) == d.nodes.Keys
  {
  }

  lemma AdvancesOn(a: States, b: States, c: States)
    requires Advances(a, b) && Advances(b, c)
    ensures Advances(a, c)
  {
  }

  lemma RoundAdvances(d: Dag, st: States)
    ensures Advances(st, ApprovalPass(d, st)) && Advances(st, SkipPass(d, ApprovalPass(d, st)))
    ensures Advances(ApprovalPass(d, st), SkipPass(d, ApprovalPass(d, st)))
  {
    hide HaltTriggered, Advances;
    ApprovalScanAdvances(d, st, |d.order|);
    SkipScanAdvances(d, ApprovalPass(d, st), |d.order|);
    AdvancesOn(st, ApprovalPass(d, st), SkipPass(d, ApprovalPass(d, st)));
  }

  /** Alternate the two passes until neither changes anything. */
  function Settle(d: Dag, st: States): States
    decreases |PendingSet(st)|
  {
    var next := SkipPass(d, ApprovalPass(d, st));
    if next == st then st
    else
      RoundAdvances(d, st);
      AdvancesShrinks(st, next);
      Settle(d, next)
  }

  // ---------------------------------------------------------------------------
  // A fixpoint is settled
  // ---------------------------------------------------------------------------

  /** A change that only advances cannot be undone by a later one. */
  lemma NoWayBack(a: States, b: States)
    requires Advances(a, b) && Advances(b, a)
    ensures a == b
  {
    assert forall n | n in a :: a[n] == b[n];
  }

  lemma {:induction false} ApprovalScanIdle(d: Dag, st: States, k: nat, i: nat)
    requires i < k <= |d.order| && ApprovalScan(d, st, k) == st
    ensures !ApprovalOpen(d, st, d.order[i])
  {
    hide Decide;
    var p := ApprovalScan(d, st, k - 1);
    ApprovalScanAdvances(d, st, k - 1);
    assert Advances(p, ApprovalScan(d, st, k));
    NoWayBack(st, p);
    if i < k - 1 {
      ApprovalScanIdle(d, st, k - 1, i);
    }
  }

  lemma {:induction false} SkipScanIdle(d: Dag, st: States, k: nat, i: nat)
    requires i < k <= |d.order| && SkipScan(d, st, k) == st
    ensures !SkipsOne(d, st, d.order[i])
  {
    hide Decide;
    var p := SkipScan(d, st, k - 1);
    SkipScanAdvances(d, st, k - 1);
    assert Advances(p, SkipScan(d, st, k));
    NoWayBack(st, p);
    if i < k - 1 {
      SkipScanIdle(d, st, k - 1, i);
    }
  }

  lemma {:induction false} HaltScanIdle(d: Dag, st: States, k: nat, i: nat)
    requires i < k <= |d.order| && HaltScan(d, st, k) == st
    ensures d.order[i] in st ==> st[d.order[i]].status != Pending
  {
    hide Decide;
    var p := HaltScan(d, st, k - 1);
    SkipScanAdvances(d, st, k - 1);
    assert Advances(p, HaltScan(d, st, k));
    NoWayBack(st, p);
    if i < k - 1 {
      HaltScanIdle(d, st, k - 1, i);
    }
  }

  lemma FixpointIsSettled(d: Dag, st: States)
    requires (set n | n in d.order) == d.nodes.Keys
    requires SkipPass(d, ApprovalPass(d, st)) == st
    ensures Settled(d, st)
  {
    hide Decide, HaltTriggered;
    RoundAdvances(d, st);
    NoWayBack(st, ApprovalPass(d, st));
    forall n | n in d.nodes
      ensures !ApprovalOpen(d, st, n) && !Skippable(d, st, n)
    {
      assert n in (set n | n in d.order);
      var i :| 0 <= i < |d.order| && d.order[i] == n;
      ApprovalScanIdle(d, st, |d.order|, i);
      if HaltTriggered(d, st) {
        HaltScanIdle(d, st, |d.order|, i);
      } else {
        SkipScanIdle(d, st, |d.order|, i);
      }
    }
  }

  /** Settling reaches a state in which no approval and no skip is left to decide. */
  lemma {:induction false} SettleSettles(d: Dag, st: States)
    requires (set n | n in d.order) == d.nodes.Keys
    ensures Settled(d, Settle(d, st)) && Advances(st, Settle(d, st))
    decreases |PendingSet(st)|
  {
    hide Settled, HaltTriggered, Decide;
    var next := SkipPass(d, ApprovalPass(d, st));
    RoundAdvances(d, st);
    if next == st {
      FixpointIsSettled(d, st);
    } else {
      AdvancesShrinks(st, next);
      SettleSettles(d, next);
      AdvancesOn(st, next, Settle(d, st));
    }
  }
}
