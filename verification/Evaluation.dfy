/**
 The meaning of a workflow: the node states that one pass in topological order gives,
 once the output of every node and the verdict on every approval are fixed.
 */
module Evaluation {
  import opened Values
  import opened Dags
  import opened States

  /** What the outside world answers, for every node. */
  datatype World = World(outputs: map<NodeId, Value>, verdicts: map<NodeId, Verdict>)

  predicate Covers(w: World, d: Dag) {
    forall n | n in d.nodes :: n in w.outputs && n in w.verdicts
  }

  /**
   Every condition reads the output of its own edge's source, compares with a scalar, and
   does not look at the upstream outputs an approval records (those depend on timing).
   */
  ghost predicate SelfConditioned(d: Dag) {
    forall e | e in d.edges && e.when.Some? :: OwnCondition(d, e)
  }

  ghost predicate OwnCondition(d: Dag, e: Edge)
    requires e.when.Some?
  {
    && e.when.value.node == e.source
    && Scalar(e.when.value.literal)
    && (e.source in d.nodes && d.nodes[e.source].kind == Approval && e.when.value.path != [] ==>
          e.when.value.path[0] != "upstream_output")
  }

  function Masked(v: Value): Value {
    if v.Obj? then Obj(v.fields - {"upstream_output"}) else v
  }

  /** Equal outputs, up to the upstream outputs recorded by an approval. */
  predicate Similar(d: Dag, n: NodeId, a: Value, b: Value)
    requires n in d.nodes
  {
    if d.nodes[n].kind == Approval then Masked(a) == Masked(b) else a == b
  }

  /** The state a node takes when it runs. */
  function Ran(d: Dag, w: World, n: NodeId): NodeState
    requires Covers(w, d) && n in d.nodes
  {
    if d.nodes[n].kind == Approval then Outcome(w.verdicts[n], Null) else NodeState(Done, w.outputs[n])
  }

  function Evaluate(d: Dag, w: World, st: States, n: NodeId): NodeState
    requires Covers(w, d) && n in d.nodes
  {
    if Decide(d.nodes[n], st) == Ready then Ran(d, w, n) else SKIP
  }

  /** One pass over the nodes in the given order. */
  function OnePass(d: Dag, w: World, order: seq<NodeId>): States
    requires Covers(w, d) && forall n | n in order :: n in d.nodes
  {
    if order == [] then map[]
    else
      var init, last := order[..|order| - 1], order[|order| - 1];
      var st := OnePass(d, w, init);
      st[last := Evaluate(d, w, st, last)]
  }

  /** A solution of the evaluation equations, one equation per node. */
  ghost predicate Solves(d: Dag, w: World, f: States)
    requires Covers(w, d)
  {
    f.Keys == d.nodes.Keys && forall n | n in d.nodes :: f[n] == Evaluate(d, w, f, n)
  }

  /** The decision about a node depends on the states of its sources alone. */
  lemma DecideIsLocal(d: Dag, n: NodeId, a: States, b: States)
    requires Coherent(d) && SelfConditioned(d) && n in d.nodes
    requires forall e | e in d.nodes[n].inEdges :: e.source in a && e.source in b && a[e.source] == b[e.source]
    ensures Decide(d.nodes[n], a) == Decide(d.nodes[n], b)
  {
    var node := d.nodes[n];
    forall e | e in node.inEdges
      ensures EdgeActive(e, a) == EdgeActive(e, b)
    {
      InEdgesOf(d, n, e);
      if e.when.Some? {
        assert OwnCondition(d, e);
      }
    }
    assert SourcesTerminal(node, a) == SourcesTerminal(node, b);
  }

  lemma SourcesComeFirst(d: Dag, order: seq<NodeId>, k: nat)
    requires Coherent(d) && Topological(d.edges, order) && k < |order| && order[k] in d.nodes
    ensures forall e | e in d.nodes[order[k]].inEdges :: e.source in order[..k]
  {
    forall e | e in d.nodes[order[k]].inEdges
      ensures e.source in order[..k]
    {
      InEdgesOf(d, order[k], e);
    }
  }

  lemma TopologicalPrefix(edges: seq<Edge>, order: seq<NodeId>, k: nat)
    requires Topological(edges, order) && k <= |order|
    ensures Topological(edges, order[..k])
  {
    var init := order[..k];
    forall i, e | 0 <= i < |init| && e in edges && e.target == init[i]
      ensures e.source in init[..i]
    {
      assert e.target == order[i] && e.source in order[..i];
      assert init[..i] == order[..i];
    }
  }

  /** Evaluating one more node does not disturb the equations of the nodes before it. */
  lemma OnePassStep(d: Dag, w: World, order: seq<NodeId>, init: seq<NodeId>, st: States, k: nat)
    requires Coherent(d) && SelfConditioned(d) && Covers(w, d)
    requires Topological(d.edges, order) && k < |order| && forall n | n in order :: n in d.nodes
    requires init == order[..|order| - 1] && st.Keys == set n | n in init
    requires k < |order| - 1 ==> st[order[k]] == Evaluate(d, w, st, order[k])
    ensures var last := order[|order| - 1];
            var full := st[last := Evaluate(d, w, st, last)];
            full[order[k]] == Evaluate(d, w, full, order[k])
  {
    var last := order[|order| - 1];
    var full := st[last := Evaluate(d, w, st, last)];
    SourcesComeFirst(d, order, k);
    assert forall n | n in order[..k] :: n in init && n != last;
    DecideIsLocal(d, order[k], st, full);
    if k < |order| - 1 {
      assert order[k] == init[k];
    }
  }

  lemma {:induction false} OnePassSolves(d: Dag, w: World, order: seq<NodeId>)
    requires Coherent(d) && SelfConditioned(d) && Covers(w, d)
    requires Topological(d.edges, order) && forall n | n in order :: n in d.nodes
    ensures OnePass(d, w, order).Keys == set n | n in order
    ensures forall n | n in order :: OnePass(d, w, order)[n] == Evaluate(d, w, OnePass(d, w, order), n)
  {
    hide Evaluate, Topological, Coherent, SelfConditioned;
    if order != [] {
      var init, last := order[..|order| - 1], order[|order| - 1];
      TopologicalPrefix(d.edges, order, |order| - 1);
      OnePassSolves(d, w, init);
      assert order == init + [last];
      assert forall n :: n in order <==> n in init || n == last;
      forall n | n in order
        ensures OnePass(d, w, order)[n] == Evaluate(d, w, OnePass(d, w, order), n)
      {
        var k :| 0 <= k < |order| && order[k] == n;
        assert k < |init| ==> init[k] in init;
        OnePassStep(d, w, order, init, OnePass(d, w, init), k);
      }
    }
  }

  lemma {:induction false} SolutionsAgreeUpTo(d: Dag, w: World, f: States, g: States, order: seq<NodeId>)
    requires Coherent(d) && SelfConditioned(d) && Covers(w, d)
    requires Solves(d, w, f) && Solves(d, w, g)
    requires Topological(d.edges, order) && forall n | n in order :: n in d.nodes
    ensures forall n | n in order :: f[n] == g[n]
  {
    if order != [] {
      var init, last := order[..|order| - 1], order[|order| - 1];
      TopologicalPrefix(d.edges, order, |order| - 1);
      assert order == init + [last];
      SolutionsAgreeUpTo(d, w, f, g, init);
      SourcesComeFirst(d, order, |order| - 1);
      DecideIsLocal(d, last, f, g);
    }
  }

  lemma WellFormedIsCoherent(d: Dag)
    requires WellFormed(d)
    ensures Coherent(d)
  {
  }

  /**
   The evaluation equations of an acyclic graph have exactly one solution, and one pass over
   the nodes computes it, whichever topological order the pass follows.
   */
  lemma OnePassIsTheSolution(d: Dag, w: World, order: seq<NodeId>, f: States)
    requires WellFormed(d) && SelfConditioned(d) && Covers(w, d)
    requires Topological(d.edges, order) && (set n | n in order) == d.nodes.Keys
    ensures Solves(d, w, f) <==> f == OnePass(d, w, order)
  {
    hide OnePass, Evaluate, Topological, WellFormed, SelfConditioned;
    assert Coherent(d) by { WellFormedIsCoherent(d); }
    assert forall n :: n in order <==> n in (set n | n in order);
    OnePassSolves(d, w, order);
    var g := OnePass(d, w, order);
    assert Solves(d, w, g);
    if Solves(d, w, f) {
      SolutionsAgreeUpTo(d, w, f, g, order);
      assert forall n | n in f :: n in order;
      assert f == g;
    }
  }

  /**
   Why conditions must read their own source. Let the source of a node's only in-edge be done, and let
   the condition name another node, one that has not run. Whether the decision on the target changes
   when that node puts out something is a matter of the condition alone: it does exactly if the
   condition says of the output something else than of Null.
   */
  lemma ForeignConditionFlipsIff(node: Node, e: Edge, st: States, output: Value)
    requires node.inEdges == [e] && node.join.AnyEdge? && e.when.Some? && e.when.value.node != e.source
    requires e.source in st && st[e.source].status == Done
    requires e.when.value.node in st && st[e.when.value.node] == FRESH
    ensures var c := e.when.value;
            Decide(node, st) != Decide(node, st[c.node := NodeState(Done, output)])
            <==> HoldsOn(c, Null) != HoldsOn(c, output)
  {
    assert e in node.inEdges && forall f | f in node.inEdges :: f == e;
    hide HoldsOn;
  }

  lemma SolutionExists(d: Dag, w: World) returns (f: States)
    requires WellFormed(d) && SelfConditioned(d) && Covers(w, d)
    ensures Solves(d, w, f)
  {
    var order := AcyclicHasOrder(d.nodes.Keys, d.edges);
    assert (set n | n in order) == d.nodes.Keys;
    f := OnePass(d, w, order);
    OnePassIsTheSolution(d, w, order, f);
  }

  // ---------------------------------------------------------------------------
  // Partial states that agree with a solution
  // ---------------------------------------------------------------------------

  /**
   A node state a run may hold on the way to the solution `f`: what is terminal agrees with
   `f`, what is running or waiting will run in `f`, and anything else may be any state at all.
   */
  predicate RowAgrees(d: Dag, f: States, n: NodeId, ns: NodeState)
    requires n in d.nodes && n in f
  {
    match ns.status
    case Done => f[n].status == Done && Similar(d, n, ns.output, f[n].output)
    case Rejected => f[n].status == Rejected && Similar(d, n, ns.output, f[n].output)
    case RejectedCanceled => f[n].status == RejectedCanceled && Similar(d, n, ns.output, f[n].output)
    case Skipped => ns == f[n] == SKIP
    case Running => f[n].status != Skipped && d.nodes[n].kind != Approval
    case Waiting => f[n].status != Skipped && d.nodes[n].kind == Approval
    case _ => true
  }

  ghost predicate Agrees(d: Dag, f: States, st: States) {
    forall n | n in st :: n in d.nodes && n in f && RowAgrees(d, f, n, st[n])
  }

  lemma ConditionSeesSimilar(d: Dag, e: Edge, a: Value, b: Value)
    requires e.when.Some? && OwnCondition(d, e) && e.source in d.nodes
    requires Similar(d, e.source, a, b)
    ensures HoldsOn(e.when.value, a) == HoldsOn(e.when.value, b)
  {
    var c := e.when.value;
    if d.nodes[e.source].kind == Approval {
      if a.Obj? {
        assert b.Obj?;
        assert a.fields - {"upstream_output"} == b.fields - {"upstream_output"};
        if c.path != [] {
          var k := c.path[0];
          assert k in a.fields <==> k in (a.fields - {"upstream_output"});
          assert k in b.fields <==> k in (b.fields - {"upstream_output"});
          if k in a.fields {
            assert a.fields[k] == (a.fields - {"upstream_output"})[k];
            assert b.fields[k] == (b.fields - {"upstream_output"})[k];
          }
        }
      } else {
        assert !b.Obj?;
      }
    }
  }

  lemma ActiveAgrees(d: Dag, f: States, st: States, e: Edge)
    requires SelfConditioned(d) && Agrees(d, f, st) && e in d.edges && e.source in st
    ensures EdgeActive(e, st) ==> EdgeActive(e, f)
    ensures Terminal(st[e.source].status) ==> EdgeActive(e, st) == EdgeActive(e, f)
  {
    assert RowAgrees(d, f, e.source, st[e.source]);
    if e.when.Some? && Produced(st[e.source].status) {
      assert OwnCondition(d, e);
      ConditionSeesSimilar(d, e, st[e.source].output, f[e.source].output);
    }
  }

  /** A decision taken on any agreeing partial state is the decision of the solution. */
  lemma DecisionAgrees(d: Dag, f: States, st: States, n: NodeId)
    requires Coherent(d) && SelfConditioned(d) && n in d.nodes
    requires d.nodes.Keys <= st.Keys && Agrees(d, f, st)
    requires Decide(d.nodes[n], st) != Blocked
    ensures Decide(d.nodes[n], f) == Decide(d.nodes[n], st)
  {
    var node := d.nodes[n];
    forall e | e in node.inEdges
      ensures e.source in st && e.source in f
      ensures EdgeActive(e, st) ==> EdgeActive(e, f)
      ensures Terminal(st[e.source].status) ==> EdgeActive(e, st) == EdgeActive(e, f)
      ensures Terminal(st[e.source].status) ==> Terminal(f[e.source].status)
    {
      InEdgesOf(d, n, e);
      ActiveAgrees(d, f, st, e);
      assert RowAgrees(d, f, e.source, st[e.source]);
    }
  }

  /** An agreeing state in which everything is terminal is the solution. */
  lemma TerminalAgrees(d: Dag, f: States, st: States)
    requires Agrees(d, f, st) && AllTerminal(st)
    ensures forall n | n in st :: st[n].status == f[n].status && Similar(d, n, st[n].output, f[n].output)
  {
    forall n | n in st
      ensures st[n].status == f[n].status && Similar(d, n, st[n].output, f[n].output)
    {
      assert RowAgrees(d, f, n, st[n]);
    }
  }
}
