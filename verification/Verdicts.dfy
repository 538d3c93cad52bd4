/** Which outputs let a node end as done, and what approvals put out, told by what the output says. */
module Verdicts {
  import opened Values
  import opened Dags
  import opened States
  import opened Runs
  import opened RunTheorems

  /** The output is an object that says so. */
  predicate Says(output: Value, field: string, v: Value) {
    output.Obj? && field in output.fields && output.fields[field] == v
  }

  /** The agent's own conclusion is an explicit no. */
  predicate Denied(agent: string, output: Value) {
    || ((agent == "tester" || agent == "smoke-tester") && Says(output, "passed", Bool(false)))
    || (agent == "reviewer" && Says(output, "approved", Bool(false)))
    || (agent == "ticket-done" && Says(output, "delivered", Bool(false)))
    || (agent == "merger" && Says(output, "merged", Bool(false)))
    || (agent == "ci-builder" && Says(output, "built", Bool(false)))
    || (agent == "deployer" && Says(output, "deployed", Bool(false)))
  }

  /** A list, a text or an object in which something is named. */
  predicate NamesSomething(v: Value) {
    match v
    case List(items) =>
      exists i | 0 <= i < |items| ::
        !(items[i] == Null || items[i] == Bool(false) || items[i] == Num(0.0) || items[i] == Str("")
          || items[i] == List([]) || items[i] == Obj(map[]))
    case Str(s) => |s| > 0
    case Obj(fields) => exists k | k in fields :: |k| > 0
    case _ => false
  }

  /** The health record names a delivery that was attempted and never succeeded. */
  predicate Undelivered(output: Value) {
    && output.Obj? && "_health" in output.fields && output.fields["_health"].Obj?
    && "unmet_delivery" in output.fields["_health"].fields
    && NamesSomething(output.fields["_health"].fields["unmet_delivery"])
  }

  lemma GuardsReject(node: Node, output: Value)
    ensures Refused(node, output) <==>
              (node.kind == Agent || node.kind == Ticket) && (Denied(node.agent, output) || Undelivered(output))
  {
    assert NegativeVerdict(node.agent, output) <==> Denied(node.agent, output);
    UnmetIsUndelivered(output);
  }

  lemma UnmetIsUndelivered(output: Value)
    ensures UnmetDelivery(output) <==> Undelivered(output)
  {
    forall v
      ensures Truthy(v) <==> !(v == Null || v == Bool(false) || v == Num(0.0) || v == Str("")
                               || v == List([]) || v == Obj(map[]))
    {
    }
  }

  /**
   In any state: a runner that comes back with an output ends its node as done exactly if the output is
   neither denied nor undelivered.
   */
  lemma FinishIsDoneIff(d: Dag, s: Engine, n: NodeId, output: Value)
    requires Enabled(d, s, Finish(n, output))
    ensures var after := Apply(d, s, Finish(n, output)).mem;
            var kind := d.nodes[n].kind;
            n in after && after[n] == NodeState(
              if (kind == Agent || kind == Ticket) && (Denied(d.nodes[n].agent, output) || Undelivered(output))
              then Failed else Done,
              output)
  {
    GuardsReject(d.nodes[n], output);
    hide Refused, Denied, Undelivered;
  }

  /**
   Only an explicit no is one: an output without a health record whose conclusions are missing, null or
   anything but false is accepted.
   */
  lemma AnythingButFalseIsAccepted(d: Dag, s: Engine, n: NodeId, fields: map<string, Value>)
    requires Enabled(d, s, Finish(n, Obj(fields))) && "_health" !in fields
    requires forall k | k in {"passed", "approved", "delivered", "merged", "built", "deployed"} && k in fields ::
               fields[k] != Bool(false)
    ensures n in Apply(d, s, Finish(n, Obj(fields))).mem
    ensures Apply(d, s, Finish(n, Obj(fields))).mem[n] == NodeState(Done, Obj(fields))
  {
    FinishIsDoneIff(d, s, n, Obj(fields));
    hide Enabled, Apply;
  }

  /** An output on which an agent or ticket node stands as done. */
  predicate Affirmed(agent: string, output: Value) {
    && (agent == "tester" || agent == "smoke-tester" ==> !Says(output, "passed", Bool(false)))
    && (agent == "reviewer" ==> !Says(output, "approved", Bool(false)))
    && (agent == "ticket-done" ==> !Says(output, "delivered", Bool(false)))
    && (agent == "merger" ==> !Says(output, "merged", Bool(false)))
    && (agent == "ci-builder" ==> !Says(output, "built", Bool(false)))
    && (agent == "deployer" ==> !Says(output, "deployed", Bool(false)))
    && !Undelivered(output)
  }

  /**
   In every state that a run can be in, overlapping calls, crashes and restarts included: an agent or ticket node
   that stands as done, in memory or in the store, has an output that does not deny its success and names no
   unmet delivery.
   */
  lemma DoneOutputsAreAffirmed(d: Dag, s: Engine, n: NodeId)
    requires Reachable(d, s) && n in d.nodes && (d.nodes[n].kind == Agent || d.nodes[n].kind == Ticket)
    ensures n in s.mem && (s.mem[n].status == Done ==> Affirmed(d.nodes[n].agent, s.mem[n].output))
    ensures n in s.rows && s.rows[n].status == Done ==> Affirmed(d.nodes[n].agent, s.rows[n].output)
  {
    NoRefusedOutputIsDone(d, s, n);
    GuardsReject(d.nodes[n], s.mem[n].output);
    if n in s.rows {
      GuardsReject(d.nodes[n], s.rows[n].output);
    }
    hide Reachable, Refused, Undelivered;
  }

  // ---------------------------------------------------------------------------
  // What approvals put out
  // ---------------------------------------------------------------------------

  /** A judged approval says who judged it, how and why, and passes on what was given to it; a time-out says no. */
  lemma OutcomeSays(approver: string, comment: string, upstream: Value)
    ensures var yes := Outcome(Approve(approver, comment), upstream);
            && yes.status == Done
            && Says(yes.output, "status", Str("APPROVED")) && Says(yes.output, "approved", Bool(true))
            && Says(yes.output, "approver", Str(approver)) && Says(yes.output, "comment", Str(comment))
            && Says(yes.output, "upstream_output", upstream)
    ensures var no := Outcome(Deny(approver, comment), upstream);
            && no.status == Rejected
            && Says(no.output, "status", Str("REJECTED")) && Says(no.output, "approved", Bool(false))
            && Says(no.output, "approver", Str(approver)) && Says(no.output, "comment", Str(comment))
            && Says(no.output, "upstream_output", upstream)
    ensures var late := Outcome(TimeOut, upstream);
            && late.status == RejectedCanceled
            && Says(late.output, "approved", Bool(false)) && Says(late.output, "reason", Str("timeout"))
            && late.output.fields.Keys <= {"approved", "reason"}
  {
  }

  /** What an approval passes on: of each source of an in-edge its output, by the source's name, and nothing else. */
  lemma UpstreamsAreSources(node: Node, st: States, u: NodeId)
    ensures UpstreamOutputs(node, st).Obj?
    ensures u in UpstreamOutputs(node, st).fields <==> u in st && exists e :: e in node.inEdges && e.source == u
    ensures u in st && (exists e :: e in node.inEdges && e.source == u) ==>
              Says(UpstreamOutputs(node, st), u, st[u].output)
  {
    UpstreamMember(node, u);
    hide Upstreams;
  }
}
