/**
 Node states and the pure decisions of the executor: which edges are active, what a
 pending node may do next, and which outputs are refused after a node has run.
 */
module States {
  import opened Values
  import opened Dags

  datatype Status =
    | Pending | Running | Done | Skipped | Waiting | Rejected | RejectedCanceled | Failed | Cancelled

  datatype NodeState = NodeState(status: Status, output: Value)

  type States = map<NodeId, NodeState>

  const FRESH := NodeState(Pending, Null)
  const OPEN := NodeState(Waiting, Null)
  const SKIP := NodeState(Skipped, Null)

  datatype Decision = Ready | Skip | Blocked

  /** Failed is deliberately not terminal: a resume runs the node again. */
  predicate Terminal(s: Status) {
    s.Done? || s.Skipped? || s.Rejected? || s.RejectedCanceled?
  }

  /** The statuses that leave an output behind. */
  predicate Produced(s: Status) {
    s.Done? || s.Rejected? || s.RejectedCanceled?
  }

  predicate HoldsOn(c: Cond, output: Value) {
    LooseEqual(Lookup(output, c.path), c.literal) != c.negated
  }

  /** A reference to an output that is not there reads Null, so `!=` on it holds. */
  predicate Holds(c: Cond, st: States) {
    HoldsOn(c, if c.node in st then st[c.node].output else Null)
  }

  predicate EdgeActive(e: Edge, st: States) {
    && e.source in st
    && Produced(st[e.source].status)
    && (e.when.Some? ==> Holds(e.when.value, st))
  }

  predicate SourcesTerminal(node: Node, st: States) {
    forall e | e in node.inEdges :: e.source in st && Terminal(st[e.source].status)
  }

  function RequiredSources(node: Node): seq<NodeId> {
    if node.required != [] then node.required else Upstreams(node)
  }

  function Decide(node: Node, st: States): Decision {
    if node.inEdges == [] then Ready
    else if node.join.AllEdges? then
      if forall e | e in node.inEdges && e.source in RequiredSources(node) :: EdgeActive(e, st) then Ready
      else if SourcesTerminal(node, st) then Skip
      else Blocked
    else if exists e | e in node.inEdges :: EdgeActive(e, st) then Ready
    else if SourcesTerminal(node, st) then Skip
    else Blocked
  }

  predicate AllTerminal(st: States) {
    forall n | n in st :: Terminal(st[n].status)
  }

  predicate SomeWaiting(st: States) {
    exists n | n in st :: st[n].status == Waiting
  }

  /** The run counts as interrupted once a halt node has been executed. */
  predicate HaltTriggered(d: Dag, st: States) {
    exists n | n in d.nodes :: d.nodes[n].kind == Halt && n in st && st[n].status == Done
  }

  /** A rejected approval whose node says that a rejection aborts the run. */
  predicate RejectionAborts(d: Dag, st: States, n: NodeId) {
    n in d.nodes && n in st && d.nodes[n].kind == Approval && d.nodes[n].abortOnReject
    && st[n].status == Rejected
  }

  predicate IsReady(d: Dag, st: States, n: NodeId) {
    n in d.nodes && n in st && st[n].status == Pending && d.nodes[n].kind != Approval
    && Decide(d.nodes[n], st) == Ready
  }

  /** A ready halt node keeps every other node out of its wave. */
  predicate InNextWave(d: Dag, st: States, n: NodeId) {
    IsReady(d, st, n)
    && (d.nodes[n].kind == Halt || !exists h | h in d.nodes :: IsReady(d, st, h) && d.nodes[h].kind == Halt)
  }

  /** What the boundary passes may still change. */
  predicate ApprovalOpen(d: Dag, st: States, n: NodeId) {
    n in d.nodes && n in st && st[n].status == Pending && d.nodes[n].kind == Approval
    && Decide(d.nodes[n], st) != Blocked
  }

  predicate Skippable(d: Dag, st: States, n: NodeId) {
    n in d.nodes && n in st && st[n].status == Pending
    && (HaltTriggered(d, st) || (d.nodes[n].kind != Approval && Decide(d.nodes[n], st) == Skip))
  }

  predicate Settled(d: Dag, st: States) {
    forall n | n in d.nodes :: !ApprovalOpen(d, st, n) && !Skippable(d, st, n)
  }

  /** The checkpoint rules: terminal and waiting rows are kept, anything else starts over. */
  function Restored(d: Dag, rows: States): (r: States)
    ensures r.Keys == d.nodes.Keys
  {
    map n | n in d.nodes :: if n in rows && Kept(rows[n]) then rows[n] else FRESH
  }

  predicate Kept(ns: NodeState) {
    Terminal(ns.status) || ns.status == Waiting
  }

  // ---------------------------------------------------------------------------
  // Verdicts on an output
  // ---------------------------------------------------------------------------

  const VERDICT_FIELDS: map<string, string> := map[
    "tester" := "passed", "reviewer" := "approved", "ticket-done" := "delivered",
    "merger" := "merged", "ci-builder" := "built", "deployer" := "deployed",
    "smoke-tester" := "passed"]

  /** The agent's own verdict field is explicitly false. */
  predicate NegativeVerdict(agent: string, output: Value) {
    && agent in VERDICT_FIELDS
    && output.Obj?
    && VERDICT_FIELDS[agent] in output.fields
    && output.fields[VERDICT_FIELDS[agent]] == Bool(false)
  }

  /** The recorded health names a delivery tool that was called and never succeeded. */
  predicate UnmetDelivery(output: Value) {
    && output.Obj? && "_health" in output.fields
    && var health := output.fields["_health"];
    && health.Obj? && "unmet_delivery" in health.fields
    && match health.fields["unmet_delivery"]
       case List(items) => exists i | 0 <= i < |items| :: Truthy(items[i])
       case Str(s) => s != ""
       case Obj(fields) => exists k | k in fields :: k != ""
       case _ => false
  }

  predicate Refused(node: Node, output: Value) {
    (node.kind == Agent || node.kind == Ticket)
    && (UnmetDelivery(output) || NegativeVerdict(node.agent, output))
  }

  // ---------------------------------------------------------------------------
  // Approval outcomes
  // ---------------------------------------------------------------------------

  datatype Verdict = Approve(approver: string, comment: string) | Deny(approver: string, comment: string) | TimeOut

  /** The state an approval node takes; `upstream` is the collected output of its upstreams. */
  function Outcome(v: Verdict, upstream: Value): NodeState {
    match v
    case Approve(approver, comment) => NodeState(Done, Obj(map[
      "status" := Str("APPROVED"), "approved" := Bool(true), "approver" := Str(approver),
      "comment" := Str(comment), "upstream_output" := upstream]))
    case Deny(approver, comment) => NodeState(Rejected, Obj(map[
      "status" := Str("REJECTED"), "approved" := Bool(false), "approver" := Str(approver),
      "comment" := Str(comment), "upstream_output" := upstream]))
    case TimeOut => NodeState(RejectedCanceled, Obj(map[
      "approved" := Bool(false), "reason" := Str("timeout")]))
  }

  function UpstreamOutputs(node: Node, st: States): Value {
    Obj(map u | u in Upstreams(node) && u in st :: st[u].output)
  }
}
