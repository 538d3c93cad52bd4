/**
 One run of a workflow as a transition system. The state holds the node states in the
 memory of the live executor, the node rows in the store, and where the executor stands.
 Every await of the executor is a point where another action may come in between, and
 any number of calls of `run` may be under way on the one executor.
 */
module Runs {
  import opened Values
  import opened Dags
  import opened States

  datatype Result = DoneRun | WaitingApproval | Paused | FailedRun

  /**
   Where a call of `run` stands. Boundary: it decides approvals and skips and picks the next wave.
   Wave: the nodes of a wave run concurrently; Broken: one of them has failed. Stopped: the call has
   returned or raised. Down: there is no executor.
   */
  datatype Stage = Boundary | Wave | Broken | Stopped(result: Result) | Down

  /** One call of `run`: the nodes of its wave whose task has not begun, and those that its tasks are executing. */
  datatype Loop = Loop(stage: Stage, todo: set<NodeId>, mine: set<NodeId>)

  /**
   `stage`, `todo` and `mine` are those of the call that has the event loop's attention, `aside`
   are the other calls that are still at work on the same executor. `live` are the nodes being
   executed by any call, `dirty` those whose memory state has not been written to its row, `owes`
   those among them that a call of `run` has to write, `failed` the failed nodes, and `verdicts`
   the approvals that have left WAITING in the approvals table.
   */
  datatype Engine = Engine(
    mem: States,
    rows: States,
    stage: Stage,
    todo: set<NodeId>,
    mine: set<NodeId>,
    aside: multiset<Loop>,
    live: set<NodeId>,
    dirty: set<NodeId>,
    owes: set<NodeId>,
    failed: set<NodeId>,
    pause: bool,
    verdicts: map<NodeId, Verdict>)

  datatype Action =
    | Begin(n: NodeId)                          // the task of a wave node takes its turn
    | Finish(n: NodeId, output: Value)          // its runner returns an output
    | Break(n: NodeId)                          // its runner fails for good
    | OpenApproval(n: NodeId)                   // decide an approval node
    | SkipNode(n: NodeId)                       // boundary pass over skips
    | Persist(n: NodeId)                        // write one node row
    | Launch                                    // start the next wave
    | EndWave                                   // all tasks of the wave have returned
    | Stop(result: Result)                      // `run` returns or raises
    | Crash                                     // the process dies
    | Restore                                   // rebuild an executor from the rows
    | RequestPause
    | Judge(n: NodeId, verdict: Verdict)        // an approval row leaves WAITING
    | WriteVerdict(n: NodeId, upstream: Value)  // API or sweeper writes the node row
    | TakeVerdict(n: NodeId, upstream: Value)   // the live executor takes the verdict in memory
    | Rerun                                     // `run` is called again on the same executor, at any time
    | Switch(other: Loop)                       // another call of `run` gets its turn

  function Init(d: Dag): Engine {
    Engine(map n | n in d.nodes :: FRESH, map[], Boundary, {}, {}, multiset{}, {}, {}, {}, {}, false, map[])
  }

  function Current(s: Engine): Loop {
    Loop(s.stage, s.todo, s.mine)
  }

  /** Nothing is left of the call: it has returned, and so have its tasks. */
  predicate Finished(l: Loop) {
    l.stage.Stopped? && l.todo == {} && l.mine == {}
  }

  /** The stages in which a call may have tasks. After a failure its other tasks go on. */
  predicate Busy(stage: Stage) {
    stage == Wave || stage == Broken || stage == Stopped(FailedRun)
  }

  predicate Waves(s: Engine) {
    Busy(s.stage)
  }

  /**
   A call goes on when the rows it has to write are written. Which row is whose is not recorded, so
   beside other calls no row holds a call up: more interleavings than there are, not fewer.
   */
  predicate Written(s: Engine) {
    s.aside == multiset{} ==> s.owes == {}
  }

  predicate Quiet(d: Dag, s: Engine) {
    s.stage == Boundary && Written(s) && Settled(d, s.mem)
  }

  /** The boundary goes on to schedule or to return, having found nothing to abort for. */
  predicate Proceeds(d: Dag, s: Engine) {
    && Quiet(d, s)
    && s.failed == {}
    && (forall n | n in d.nodes :: !RejectionAborts(d, s.mem, n))
    && (s.pause ==> AllTerminal(s.mem))
  }

  predicate NothingReady(d: Dag, s: Engine) {
    forall n | n in d.nodes :: !InNextWave(d, s.mem, n)
  }

  /** Where the stall error is raised. */
  predicate Stalls(d: Dag, s: Engine) {
    Proceeds(d, s) && NothingReady(d, s) && !SomeWaiting(s.mem) && !AllTerminal(s.mem)
  }

  /** Every call of `run` on this executor has returned or raised. */
  predicate AllReturned(s: Engine) {
    s.stage.Stopped? && forall l | l in s.aside :: l.stage.Stopped?
  }

  predicate Enabled(d: Dag, s: Engine, a: Action) {
    match a
    case Begin(n) => Waves(s) && n in s.todo && n in s.mem && n in d.nodes
    case Finish(n, _) => Waves(s) && n in s.mine && n in s.live && n in s.mem && n in d.nodes
    case Break(n) => Waves(s) && n in s.mine && n in s.live && n in s.mem && n in d.nodes
                     && (d.nodes[n].kind == Agent || d.nodes[n].kind == Ticket)
    case OpenApproval(n) => (s.stage == Boundary || Waves(s)) && ApprovalOpen(d, s.mem, n)
    case SkipNode(n) => s.stage == Boundary && Skippable(d, s.mem, n)
    case Persist(n) => s.stage != Down && n in s.dirty && n in s.mem
    case Launch => Proceeds(d, s) && !NothingReady(d, s)
    case EndWave => s.stage == Wave && s.todo == {} && s.mine == {} && Written(s)
    case Stop(DoneRun) => Proceeds(d, s) && NothingReady(d, s) && !SomeWaiting(s.mem) && AllTerminal(s.mem)
    case Stop(WaitingApproval) => Proceeds(d, s) && NothingReady(d, s) && SomeWaiting(s.mem)
    case Stop(Paused) => Quiet(d, s) && s.failed == {}
                         && (forall n | n in d.nodes :: !RejectionAborts(d, s.mem, n))
                         && s.pause && !AllTerminal(s.mem)
    case Stop(FailedRun) =>
      || s.stage == Broken
      || (Quiet(d, s) && (s.failed != {} || exists n | n in d.nodes :: RejectionAborts(d, s.mem, n)))
    case Crash => true
    case Restore => AllReturned(s) || s.stage == Down
    case RequestPause => s.stage != Down
    case Judge(n, _) => n in s.rows && s.rows[n].status == Waiting && n !in s.verdicts
    case WriteVerdict(n, _) => n in s.verdicts && n in s.rows && s.rows[n].status == Waiting
    case TakeVerdict(n, _) => s.stage != Down && n in s.verdicts && n in s.mem && s.mem[n].status == Waiting
    case Rerun => s.stage != Down
    case Switch(other) => s.stage != Down && other in s.aside
  }

  /** Change the memory state of a node; its row is then out of date, and a call of `run` has to write it. */
  function Set(s: Engine, n: NodeId, ns: NodeState): Engine {
    s.(mem := s.mem[n := ns], dirty := s.dirty + {n}, owes := s.owes + {n})
  }

  function Begun(s: Engine, n: NodeId, decision: Decision): Engine
    requires n in s.mem
  {
    var t := s.(todo := s.todo - {n});
    if s.mem[n].status != Pending then t
    else
      match decision
      case Ready => Set(t, n, NodeState(Running, s.mem[n].output)).(live := s.live + {n}, mine := s.mine + {n})
      case Skip => Set(t, n, SKIP)
      case Blocked => t
  }

  /** The task of a node ends, with its node done or failed. */
  function Ended(s: Engine, n: NodeId, ns: NodeState): Engine {
    var t := Set(s, n, ns).(live := s.live - {n}, mine := s.mine - {n});
    if ns.status == Failed
    then t.(failed := s.failed + {n}, stage := if s.stage == Wave then Broken else s.stage)
    else t
  }

  /** The other calls once this one gives way; one of which nothing is left is gone. */
  function Parked(s: Engine): multiset<Loop> {
    if Finished(Current(s)) then s.aside else s.aside + multiset{Current(s)}
  }

  function Attend(s: Engine, l: Loop, aside: multiset<Loop>): Engine {
    s.(stage := l.stage, todo := l.todo, mine := l.mine, aside := aside)
  }

  function Apply(d: Dag, s: Engine, a: Action): Engine
    requires Enabled(d, s, a)
  {
    match a
    case Begin(n) => Begun(s, n, Decide(d.nodes[n], s.mem))
    case Finish(n, output) => Ended(s, n, NodeState(if Refused(d.nodes[n], output) then Failed else Done, output))
    case Break(n) => Ended(s, n, NodeState(Failed, Null))
    case OpenApproval(n) =>
      Set(s, n, if Decide(d.nodes[n], s.mem) == Ready then OPEN else SKIP)
    case SkipNode(n) => Set(s, n, SKIP)
    case Persist(n) => s.(rows := s.rows[n := s.mem[n]], dirty := s.dirty - {n}, owes := s.owes - {n})
    case Launch => s.(stage := Wave, todo := set n | n in d.nodes && InNextWave(d, s.mem, n))
    case EndWave => s.(stage := Boundary)
    case Stop(result) => s.(stage := Stopped(result))
    case Crash =>
      s.(stage := Down, todo := {}, mine := {}, aside := multiset{},
         live := {}, dirty := {}, owes := {}, failed := {}, pause := false)
    case Restore => Init(d).(mem := Restored(d, s.rows), rows := s.rows, verdicts := s.verdicts)
    case RequestPause => s.(pause := true)
    case Judge(n, verdict) => s.(verdicts := s.verdicts[n := verdict])
    case WriteVerdict(n, upstream) => s.(rows := s.rows[n := Outcome(s.verdicts[n], upstream)])
    case TakeVerdict(n, upstream) =>
      // written by whoever judged it; no call of `run` waits for that
      s.(mem := s.mem[n := Outcome(s.verdicts[n], upstream)], dirty := s.dirty + {n})
    case Rerun => Attend(s, Loop(Boundary, {}, {}), Parked(s))
    case Switch(other) => Attend(s, other, Parked(s) - multiset{other})
  }

  ghost predicate Valid(d: Dag, s: Engine, acts: seq<Action>)
    decreases |acts|
  {
    acts == [] || (Enabled(d, s, acts[0]) && Valid(d, Apply(d, s, acts[0]), acts[1..]))
  }

  ghost function Exec(d: Dag, s: Engine, acts: seq<Action>): Engine
    requires Valid(d, s, acts)
    decreases |acts|
  {
    if acts == [] then s else Exec(d, Apply(d, s, acts[0]), acts[1..])
  }

  lemma {:induction false} ExecConcat(d: Dag, s: Engine, a: seq<Action>, b: seq<Action>)
    requires Valid(d, s, a)
    ensures Valid(d, s, a + b) <==> Valid(d, Exec(d, s, a), b)
    ensures Valid(d, s, a + b) ==> Exec(d, s, a + b) == Exec(d, Exec(d, s, a), b)
    decreases |a|
  {
    if a == [] {
      assert a + b == b;
    } else {
      assert (a + b)[1..] == a[1..] + b && (a + b)[0] == a[0];
      ExecConcat(d, Apply(d, s, a[0]), a[1..], b);
    }
  }

  /** One more action at the end of a valid run. */
  lemma ExecSnoc(d: Dag, s: Engine, acts: seq<Action>, a: Action)
    requires Valid(d, s, acts) && Enabled(d, Exec(d, s, acts), a)
    ensures Valid(d, s, acts + [a])
    ensures Exec(d, s, acts + [a]) == Apply(d, Exec(d, s, acts), a)
  {
    ExecConcat(d, s, acts, [a]);
    var t := Exec(d, s, acts);
    assert [a][1..] == [];
    assert Valid(d, t, [a]);
    assert Exec(d, t, [a]) == Exec(d, Apply(d, t, a), []);
  }

  /** The state reached by some valid run from the start. */
  ghost predicate Reachable(d: Dag, s: Engine) {
    exists acts :: Valid(d, Init(d), acts) && Exec(d, Init(d), acts) == s
  }
}
