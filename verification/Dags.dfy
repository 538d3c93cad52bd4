/**
 The workflow graph and its static checks: binding of edges to nodes, Kahn's cycle
 check, join consistency, and the transitive upstreams of a node.
 */
module Dags {
  import opened Values
  import opened Sets

  type NodeId = string

  /** `$.nodes.<node>.output.<path> == literal`, or `!=` when negated. */
  datatype Cond = Cond(node: NodeId, path: seq<string>, negated: bool, literal: Value)

  datatype Edge = Edge(source: NodeId, target: NodeId, when: Option<Cond>)

  datatype Kind = Agent | Approval | Halt | Ticket | Closed

  datatype Join = AnyEdge | AllEdges | OtherJoin(name: string)

  datatype Node = Node(
    kind: Kind,
    agent: string,
    join: Join,
    required: seq<NodeId>,
    when: Option<Cond>,
    abortOnReject: bool,
    params: Value,
    inEdges: seq<Edge>)

  /** `order` is the iteration order of the node dictionary. */
  datatype Dag = Dag(order: seq<NodeId>, nodes: map<NodeId, Node>, edges: seq<Edge>)

  datatype BuildResult = Built(dag: Dag) | UnknownNode(edge: Edge) | Cyclic | BadJoin

  // ---------------------------------------------------------------------------
  // Paths and cycles
  // ---------------------------------------------------------------------------

  predicate HasEdge(edges: seq<Edge>, a: NodeId, b: NodeId) {
    exists e | e in edges :: e.source == a && e.target == b
  }

  ghost predicate IsPath(edges: seq<Edge>, p: seq<NodeId>) {
    |p| >= 1 && forall i, j | 0 <= i < j < |p| && j == i + 1 :: HasEdge(edges, p[i], p[j])
  }

  /** A path over at least one edge. */
  ghost predicate Connects(edges: seq<Edge>, p: seq<NodeId>, a: NodeId, b: NodeId) {
    IsPath(edges, p) && |p| >= 2 && p[0] == a && p[|p| - 1] == b
  }

  ghost predicate Above(edges: seq<Edge>, a: NodeId, b: NodeId) {
    exists p :: Connects(edges, p, a, b)
  }

  ghost predicate Acyclic(edges: seq<Edge>) {
    forall n :: !Above(edges, n, n)
  }

  /** A numbering that grows along every edge. */
  ghost predicate Ranked(edges: seq<Edge>, nodes: set<NodeId>, rank: map<NodeId, nat>) {
    && nodes <= rank.Keys
    && forall e | e in edges ::
         e.source in rank && e.target in rank && rank[e.source] < rank[e.target]
  }

  predicate ClosedEdges(nodes: set<NodeId>, edges: seq<Edge>) {
    forall e | e in edges :: e.source in nodes && e.target in nodes
  }

  lemma RankGrowsAlongPath(edges: seq<Edge>, nodes: set<NodeId>, rank: map<NodeId, nat>, p: seq<NodeId>)
    requires Ranked(edges, nodes, rank) && IsPath(edges, p) && |p| >= 2
    ensures p[0] in rank && p[|p| - 1] in rank && rank[p[0]] < rank[p[|p| - 1]]
  {
    assert HasEdge(edges, p[0], p[1]);
    if |p| > 2 {
      var q := p[1..];
      assert forall i | 0 <= i < |q| :: q[i] == p[i + 1];
      RankGrowsAlongPath(edges, nodes, rank, q);
    }
  }

  lemma RankedIsAcyclic(edges: seq<Edge>, nodes: set<NodeId>, rank: map<NodeId, nat>)
    requires Ranked(edges, nodes, rank)
    ensures Acyclic(edges)
  {
    forall n, p | Connects(edges, p, n, n)
      ensures false
    {
      RankGrowsAlongPath(edges, nodes, rank, p);
    }
  }

  lemma Prepend(edges: seq<Edge>, m: NodeId, p: seq<NodeId>)
    requires IsPath(edges, p) && HasEdge(edges, m, p[0])
    ensures IsPath(edges, [m] + p)
  {
    var q := [m] + p;
    assert forall i | 0 < i < |q| :: q[i] == p[i - 1];
  }

  lemma CloseCycle(edges: seq<Edge>, m: NodeId, p: seq<NodeId>, j: nat)
    requires IsPath(edges, p) && HasEdge(edges, m, p[0]) && j < |p| && p[j] == m
    ensures !Acyclic(edges)
  {
    var front := p[..j + 1];
    assert IsPath(edges, front);
    Prepend(edges, m, front);
    assert Connects(edges, [m] + front, m, m);
    assert Above(edges, m, m);
  }

  ghost predicate HasPredecessor(edges: seq<Edge>, s: set<NodeId>, n: NodeId) {
    exists m :: m in s && HasEdge(edges, m, n)
  }

  function Unvisited(s: set<NodeId>, p: seq<NodeId>): set<NodeId> {
    set n | n in s && n !in p
  }

  /** Walking backwards inside a finite set in which every node has a predecessor closes a cycle. */
  lemma {:induction false} WalkBackwards(edges: seq<Edge>, s: set<NodeId>, p: seq<NodeId>)
    requires IsPath(edges, p) && p[0] in s
    requires forall n {:trigger HasPredecessor(edges, s, n)} | n in s :: HasPredecessor(edges, s, n)
    ensures !Acyclic(edges)
    decreases Unvisited(s, p)
  {
    assert HasPredecessor(edges, s, p[0]);
    var m :| m in s && HasEdge(edges, m, p[0]);
    if m in p {
      var j :| 0 <= j < |p| && p[j] == m;
      CloseCycle(edges, m, p, j);
    } else {
      Prepend(edges, m, p);
      var q := [m] + p;
      assert m in Unvisited(s, p) && m !in Unvisited(s, q);
      assert Unvisited(s, q) <= Unvisited(s, p) by {
        assert forall n | n in p :: n in q;
      }
      assert q[0] in s;
      WalkBackwards(edges, s, q);
    }
  }

  /** A set closed under having a predecessor contains a cycle. */
  lemma NoSourceMeansCycle(edges: seq<Edge>, s: set<NodeId>)
    requires s != {}
    requires forall n {:trigger HasPredecessor(edges, s, n)} | n in s :: HasPredecessor(edges, s, n)
    ensures !Acyclic(edges)
  {
    var n :| n in s;
    WalkBackwards(edges, s, [n]);
  }

  /** Every node of the sequence comes once, after the sources of its in-edges. */
  ghost predicate Topological(edges: seq<Edge>, order: seq<NodeId>) {
    && (forall i, j | 0 <= i < j < |order| :: order[i] != order[j])
    && forall i, e | 0 <= i < |order| && e in edges && e.target == order[i] :: e.source in order[..i]
  }

  /** Extend a topological order by peeling one source node after the other off the rest `s`. */
  lemma {:induction false} PeelSources(edges: seq<Edge>, s: set<NodeId>, order: seq<NodeId>)
    returns (full: seq<NodeId>)
    requires Acyclic(edges)
    requires Topological(edges, order)
    requires forall n | n in order :: n !in s
    requires forall e | e in edges && e.target in s :: e.source in s || e.source in order
    ensures Topological(edges, full)
    ensures forall n :: n in full <==> n in s || n in order
    decreases s
  {
    if s == {} {
      full := order;
    } else {
      if forall n {:trigger HasPredecessor(edges, s, n)} | n in s :: HasPredecessor(edges, s, n) {
        NoSourceMeansCycle(edges, s);
      }
      var n :| n in s && !HasPredecessor(edges, s, n);
      forall e | e in edges && e.target == n
        ensures e.source in order
      {
        assert HasEdge(edges, e.source, n);
      }
      var longer := order + [n];
      assert forall i | 0 <= i <= |order| :: longer[..i] == order[..i];
      assert longer[..|order|] == order;
      full := PeelSources(edges, s - {n}, longer);
    }
  }

  lemma AcyclicHasOrder(nodes: set<NodeId>, edges: seq<Edge>) returns (order: seq<NodeId>)
    requires ClosedEdges(nodes, edges) && Acyclic(edges)
    ensures Topological(edges, order)
    ensures forall n :: n in order <==> n in nodes
  {
    order := PeelSources(edges, nodes, []);
  }

  // ---------------------------------------------------------------------------
  // Kahn's algorithm
  // ---------------------------------------------------------------------------

  /** The targets of the edges that leave `n`, with repetitions. */
  function Targets(edges: seq<Edge>, n: NodeId): seq<NodeId> {
    if edges == [] then []
    else
      var last := edges[|edges| - 1];
      Targets(edges[..|edges| - 1], n) + if last.source == n then [last.target] else []
  }

  /** How many edges enter `m` from a node that is not in `gone`. */
  function InDegree(edges: seq<Edge>, m: NodeId, gone: set<NodeId>): nat {
    if edges == [] then 0
    else
      var last := edges[|edges| - 1];
      InDegree(edges[..|edges| - 1], m, gone)
      + if last.target == m && last.source !in gone then 1 else 0
  }

  lemma {:induction false} RemovingANode(edges: seq<Edge>, m: NodeId, gone: set<NodeId>, n: NodeId)
    requires n !in gone
    ensures InDegree(edges, m, gone) ==
            InDegree(edges, m, gone + {n}) + multiset(Targets(edges, n))[m]
  {
    if edges != [] {
      RemovingANode(edges[..|edges| - 1], m, gone, n);
    }
  }

  lemma {:induction false} InDegreeZero(edges: seq<Edge>, m: NodeId, gone: set<NodeId>)
    ensures InDegree(edges, m, gone) == 0 <==>
            forall e | e in edges && e.target == m :: e.source in gone
  {
    if edges != [] {
      var init := edges[..|edges| - 1];
      InDegreeZero(init, m, gone);
      assert edges == init + [edges[|edges| - 1]];
      assert forall e :: e in edges <==> e in init || e == edges[|edges| - 1];
    }
  }

  lemma {:induction false} TargetsAreNodes(edges: seq<Edge>, nodes: set<NodeId>, n: NodeId)
    requires ClosedEdges(nodes, edges)
    ensures forall m | m in Targets(edges, n) :: m in nodes
  {
    if edges != [] {
      var init := edges[..|edges| - 1];
      assert forall e | e in init :: e in edges;
      TargetsAreNodes(init, nodes, n);
    }
  }

  lemma OneMoreEdge(edges: seq<Edge>, i: nat, n: NodeId)
    requires i < |edges|
    ensures InDegree(edges[..i + 1], n, {}) == InDegree(edges[..i], n, {}) + if edges[i].target == n then 1 else 0
    ensures Targets(edges[..i + 1], n) == Targets(edges[..i], n) + if edges[i].source == n then [edges[i].target]
            else []
  {
    assert edges[..i + 1][..i] == edges[..i];
  }

  method CountEdges(order: seq<NodeId>, edges: seq<Edge>)
    returns (indeg: map<NodeId, nat>, adj: map<NodeId, seq<NodeId>>)
    requires ClosedEdges((set n | n in order), edges)
    ensures indeg.Keys == adj.Keys == set n | n in order
    ensures forall n | n in order :: indeg[n] == InDegree(edges, n, {}) && adj[n] == Targets(edges, n)
  {
    ghost var nodes := set n | n in order;
    assert forall n | n in nodes :: InDegree([], n, {}) == 0 && Targets([], n) == [];
    hide InDegree, Targets;
    assert edges[..0] == [];
    indeg := map n | n in order :: 0;
    adj := map n | n in order :: [];
    for i := 0 to |edges|
      invariant indeg.Keys == adj.Keys == nodes
      invariant forall n | n in nodes ::
                  indeg[n] == InDegree(edges[..i], n, {}) && adj[n] == Targets(edges[..i], n)
    {
      var e := edges[i];
      assert e in edges;
      forall n | n in nodes
        ensures InDegree(edges[..i + 1], n, {}) == InDegree(edges[..i], n, {}) + if e.target == n then 1 else 0
        ensures Targets(edges[..i + 1], n) == Targets(edges[..i], n) + if e.source == n then [e.target] else []
      {
        OneMoreEdge(edges, i, n);
      }
      adj := adj[e.source := adj[e.source] + [e.target]];
      indeg := indeg[e.target := indeg[e.target] + 1];
    }
    assert edges[..|edges|] == edges;
  }

  /** Lower the in-degree of each successor of a dequeued node, queueing those that reach zero. */
  method Release(targets: seq<NodeId>, indeg0: map<NodeId, nat>, q0: seq<NodeId>)
    returns (indeg: map<NodeId, nat>, q: seq<NodeId>)
    requires forall m | m in targets :: m in indeg0
    requires forall m | m in indeg0 :: multiset(targets)[m] <= indeg0[m]
    requires forall i, j | 0 <= i < j < |q0| :: q0[i] != q0[j]
    requires forall m | m in q0 :: m in indeg0 && indeg0[m] == 0
    ensures indeg.Keys == indeg0.Keys
    ensures forall m | m in indeg :: indeg[m] + multiset(targets)[m] == indeg0[m]
    ensures forall i, j | 0 <= i < j < |q| :: q[i] != q[j]
    ensures forall m :: m in q <==> m in q0 || (m in indeg && indeg0[m] > 0 && indeg[m] == 0)
  {
    indeg, q := indeg0, q0;
    for j := 0 to |targets|
      invariant indeg.Keys == indeg0.Keys
      invariant forall m | m in indeg :: indeg[m] + multiset(targets[..j])[m] == indeg0[m]
      invariant forall i, k | 0 <= i < k < |q| :: q[i] != q[k]
      invariant forall m :: m in q <==> m in q0 || (m in indeg && indeg0[m] > 0 && indeg[m] == 0)
    {
      var m := targets[j];
      assert targets[..j + 1] == targets[..j] + [m];
      assert targets == targets[..j + 1] + targets[j + 1..];
      indeg := indeg[m := indeg[m] - 1];
      if indeg[m] == 0 {
        q := q + [m];
      }
    }
    assert targets[..|targets|] == targets;
  }

  /** What holds between two dequeues: `gone` are the nodes dequeued so far, ranked in that order. */
  ghost predicate KahnInvariant(
    nodes: set<NodeId>, edges: seq<Edge>, indeg: map<NodeId, nat>, q: seq<NodeId>,
    gone: set<NodeId>, rank: map<NodeId, nat>)
  {
    && gone <= nodes && indeg.Keys == nodes && rank.Keys == gone
    && (forall n | n in gone :: rank[n] < |gone|)
    && (forall m | m in nodes :: indeg[m] == InDegree(edges, m, gone))
    && (forall i, j | 0 <= i < j < |q| :: q[i] != q[j])
    && (forall m :: m in q <==> m in nodes && m !in gone && indeg[m] == 0)
    && (forall e | e in edges && e.target in gone ::
          e.source in gone && rank[e.source] < rank[e.target])
  }

  lemma KahnRanks(
    nodes: set<NodeId>, edges: seq<Edge>, indeg: map<NodeId, nat>, q: seq<NodeId>,
    gone: set<NodeId>, rank: map<NodeId, nat>, nid: NodeId)
    requires KahnInvariant(nodes, edges, indeg, q, gone, rank) && nid in q
    ensures var gone', rank' := gone + {nid}, rank[nid := |gone|];
            && |gone'| == |gone| + 1
            && (forall n | n in gone' :: rank'[n] < |gone'|)
            && (forall e | e in edges && e.target in gone' ::
                  e.source in gone' && rank'[e.source] < rank'[e.target])
  {
    InDegreeZero(edges, nid, gone);
  }

  /** When the queue runs dry early, every node that is left has a predecessor that is left. */
  lemma LeftoversHaveACycle(
    nodes: set<NodeId>, edges: seq<Edge>, indeg: map<NodeId, nat>,
    gone: set<NodeId>, rank: map<NodeId, nat>)
    requires ClosedEdges(nodes, edges) && nodes - gone != {}
    requires KahnInvariant(nodes, edges, indeg, [], gone, rank)
    ensures !Acyclic(edges)
  {
    hide Acyclic;
    var left := nodes - gone;
    forall n | n in left
      ensures HasPredecessor(edges, left, n)
    {
      assert indeg[n] != 0;
      InDegreeZero(edges, n, gone);
      var e :| e in edges && e.target == n && e.source !in gone;
      assert e.source in left && HasEdge(edges, e.source, n);
    }
    NoSourceMeansCycle(edges, left);
  }

  lemma KahnFinish(
    nodes: set<NodeId>, edges: seq<Edge>, indeg: map<NodeId, nat>,
    gone: set<NodeId>, rank: map<NodeId, nat>)
    requires ClosedEdges(nodes, edges)
    requires KahnInvariant(nodes, edges, indeg, [], gone, rank)
    ensures |gone| == |nodes| <==> Acyclic(edges)
  {
    hide Acyclic;
    if |gone| == |nodes| {
      SameSizeSubset(gone, nodes);
      RankedIsAcyclic(edges, nodes, rank);
    } else {
      assert |nodes| == |gone| + |nodes - gone| by { assert nodes == gone + (nodes - gone); }
      LeftoversHaveACycle(nodes, edges, indeg, gone, rank);
    }
  }

  /** Kahn's check accepts exactly the acyclic graphs. */
  method CheckCycle(order: seq<NodeId>, edges: seq<Edge>) returns (ok: bool)
    requires forall i, j | 0 <= i < j < |order| :: order[i] != order[j]
    requires ClosedEdges((set n | n in order), edges)
    ensures ok <==> Acyclic(edges)
  {
    var indeg, adj := CountEdges(order, edges);
    var q := [];
    for i := 0 to |order|
      invariant forall n :: n in q <==> n in order[..i] && indeg[n] == 0
      invariant forall j, k | 0 <= j < k < |q| :: q[j] != q[k]
    {
      assert order[i] !in order[..i];
      if indeg[order[i]] == 0 {
        q := q + [order[i]];
      }
    }
    assert order[..|order|] == order;
    var seen := 0;
    ghost var nodes := set n | n in order;
    ghost var gone: set<NodeId> := {};
    ghost var rank: map<NodeId, nat> := map[];
    while q != []
      invariant seen == |gone|
      invariant adj.Keys == nodes && forall n | n in nodes :: adj[n] == Targets(edges, n)
      invariant KahnInvariant(nodes, edges, indeg, q, gone, rank)
      decreases nodes - gone
    {
      var nid := q[0];
      seen := seen + 1;
      indeg, q, gone, rank := Dequeue(nodes, edges, indeg, q, adj[nid], gone, rank);
    }
    OrderSize(order);
    KahnFinish(nodes, edges, indeg, gone, rank);
    ok := seen == |order|;
  }

  /** One turn of Kahn's loop. */
  method Dequeue(
    ghost nodes: set<NodeId>, ghost edges: seq<Edge>, indeg0: map<NodeId, nat>, q0: seq<NodeId>,
    targets: seq<NodeId>, ghost gone0: set<NodeId>, ghost rank0: map<NodeId, nat>)
    returns (indeg: map<NodeId, nat>, q: seq<NodeId>, ghost gone: set<NodeId>, ghost rank: map<NodeId, nat>)
    requires ClosedEdges(nodes, edges)
    requires KahnInvariant(nodes, edges, indeg0, q0, gone0, rank0)
    requires q0 != [] && targets == Targets(edges, q0[0])
    ensures KahnInvariant(nodes, edges, indeg, q, gone, rank)
    ensures gone == gone0 + {q0[0]} && |gone| == |gone0| + 1
    ensures q0[0] in nodes - gone0
  {
    hide InDegree, Targets;
    ghost var nid := q0[0];
    assert nid in q0;
    gone := gone0 + {nid};
    rank := rank0[nid := |gone0|];
    DegreesSplit(nodes, edges, indeg0, q0, gone0, rank0, nid);
    TargetsAreNodes(edges, nodes, nid);
    assert indeg0.Keys == nodes && nid in nodes - gone0 && |gone| == |gone0| + 1;
    assert forall m | m in q0[1..] :: m in q0;
    indeg, q := Release(targets, indeg0, q0[1..]);
    hide KahnInvariant;
    KahnAfter(nodes, edges, indeg0, q0, gone0, rank0, indeg, q);
  }

  lemma KahnAfter(
    nodes: set<NodeId>, edges: seq<Edge>, indeg0: map<NodeId, nat>, q0: seq<NodeId>,
    gone: set<NodeId>, rank: map<NodeId, nat>, indeg: map<NodeId, nat>, q: seq<NodeId>)
    requires KahnInvariant(nodes, edges, indeg0, q0, gone, rank) && q0 != []
    requires indeg.Keys == indeg0.Keys
    requires forall m | m in indeg :: indeg[m] + multiset(Targets(edges, q0[0]))[m] == indeg0[m]
    requires forall i, j | 0 <= i < j < |q| :: q[i] != q[j]
    requires forall m :: m in q <==> m in q0[1..] || (m in indeg && indeg0[m] > 0 && indeg[m] == 0)
    ensures KahnInvariant(nodes, edges, indeg, q, gone + {q0[0]}, rank[q0[0] := |gone|])
  {
    hide InDegree, Targets;
    assert q0[0] in q0;
    KahnRanks(nodes, edges, indeg0, q0, gone, rank, q0[0]);
    DegreesSplit(nodes, edges, indeg0, q0, gone, rank, q0[0]);
    assert forall m :: m in q0[1..] <==> m in q0 && m != q0[0];
  }

  /** What a dequeue takes away: a node's degree is what remains of it plus the edges from the dequeued node. */
  lemma DegreesSplit(
    nodes: set<NodeId>, edges: seq<Edge>, indeg: map<NodeId, nat>, q: seq<NodeId>,
    gone: set<NodeId>, rank: map<NodeId, nat>, nid: NodeId)
    requires KahnInvariant(nodes, edges, indeg, q, gone, rank) && nid in q
    ensures forall m | m in nodes :: indeg[m] == InDegree(edges, m, gone + {nid}) + multiset(Targets(edges, nid))[m]
    ensures forall m | m in gone + {nid} :: m in nodes && indeg[m] == 0
  {
    hide InDegree, Targets;
    forall m | m in nodes
      ensures indeg[m] == InDegree(edges, m, gone + {nid}) + multiset(Targets(edges, nid))[m]
    {
      RemovingANode(edges, m, gone, nid);
    }
    forall m | m in gone
      ensures indeg[m] == 0
    {
      InDegreeZero(edges, m, gone);
    }
  }

  lemma {:induction false} OrderSize(order: seq<NodeId>)
    requires forall i, j | 0 <= i < j < |order| :: order[i] != order[j]
    ensures |set n | n in order| == |order|
  {
    if order != [] {
      var init, last := order[..|order| - 1], order[|order| - 1];
      OrderSize(init);
      assert (set n | n in order) == (set n | n in init) + {last};
      assert last !in init;
    }
  }

  // ---------------------------------------------------------------------------
  // Binding edges to nodes, join consistency
  // ---------------------------------------------------------------------------

  function EdgesInto(edges: seq<Edge>, n: NodeId): seq<Edge> {
    if edges == [] then []
    else
      var last := edges[|edges| - 1];
      EdgesInto(edges[..|edges| - 1], n) + if last.target == n then [last] else []
  }

  lemma {:induction false} EdgesIntoMember(edges: seq<Edge>, n: NodeId, e: Edge)
    ensures e in EdgesInto(edges, n) <==> e in edges && e.target == n
  {
    if edges != [] {
      EdgesIntoMember(edges[..|edges| - 1], n, e);
      assert edges == edges[..|edges| - 1] + [edges[|edges| - 1]];
    }
  }

  predicate JoinConsistent(node: Node) {
    match node.join
    case AllEdges => node.required != [] && forall u | u in node.required :: u in Upstreams(node)
    case AnyEdge => node.required == []
    case OtherJoin(_) => false
  }

  function Upstreams(node: Node): seq<NodeId> {
    seq(|node.inEdges|, i requires 0 <= i < |node.inEdges| => node.inEdges[i].source)
  }

  lemma UpstreamMember(node: Node, u: NodeId)
    ensures u in Upstreams(node) <==> exists e :: e in node.inEdges && e.source == u
  {
    if u in Upstreams(node) {
      var i :| 0 <= i < |Upstreams(node)| && Upstreams(node)[i] == u;
      assert node.inEdges[i] in node.inEdges;
    }
    if e :| e in node.inEdges && e.source == u {
      var i :| 0 <= i < |node.inEdges| && node.inEdges[i] == e;
      assert Upstreams(node)[i] == u;
    }
  }

  /** What every loaded graph looks like. */
  ghost predicate Coherent(d: Dag) {
    && (forall i, j | 0 <= i < j < |d.order| :: d.order[i] != d.order[j])
    && (set n | n in d.order) == d.nodes.Keys
    && ClosedEdges(d.nodes.Keys, d.edges)
    && forall n | n in d.nodes :: d.nodes[n].inEdges == EdgesInto(d.edges, n)
  }

  ghost predicate WellFormed(d: Dag) {
    && Coherent(d)
    && Acyclic(d.edges)
    && forall n | n in d.nodes :: JoinConsistent(d.nodes[n])
  }

  lemma InEdgesOf(d: Dag, n: NodeId, e: Edge)
    requires Coherent(d) && n in d.nodes
    ensures e in d.nodes[n].inEdges <==> e in d.edges && e.target == n
  {
    EdgesIntoMember(d.edges, n, e);
  }

  /** The node-level `when` shorthand: it fills the only in-edge when that edge carries none. */
  function FillWhen(edges: seq<Edge>, nodes: map<NodeId, Node>, e: Edge): Edge {
    if e.target in nodes && nodes[e.target].when.Some? && |EdgesInto(edges, e.target)| == 1 && e.when.None?
    then e.(when := nodes[e.target].when)
    else e
  }

  function FillAll(edges: seq<Edge>, nodes: map<NodeId, Node>): (r: seq<Edge>)
    ensures |r| == |edges|
    ensures forall i | 0 <= i < |r| :: r[i] == FillWhen(edges, nodes, edges[i])
  {
    seq(|edges|, i requires 0 <= i < |edges| => FillWhen(edges, nodes, edges[i]))
  }

  lemma FillKeepsEndpoints(edges: seq<Edge>, nodes: map<NodeId, Node>, a: NodeId, b: NodeId)
    ensures HasEdge(FillAll(edges, nodes), a, b) <==> HasEdge(edges, a, b)
  {
    var r := FillAll(edges, nodes);
    if HasEdge(edges, a, b) {
      var e :| e in edges && e.source == a && e.target == b;
      var i :| 0 <= i < |edges| && edges[i] == e;
      assert r[i] in r;
    }
    if HasEdge(r, a, b) {
      var e :| e in r && e.source == a && e.target == b;
      var i :| 0 <= i < |r| && r[i] == e;
      assert edges[i] in edges;
    }
  }

  lemma FillKeepsAcyclic(edges: seq<Edge>, nodes: map<NodeId, Node>)
    ensures Acyclic(FillAll(edges, nodes)) <==> Acyclic(edges)
  {
    var r := FillAll(edges, nodes);
    forall a, b
      ensures HasEdge(r, a, b) <==> HasEdge(edges, a, b)
    {
      FillKeepsEndpoints(edges, nodes, a, b);
    }
    assert forall p :: IsPath(r, p) <==> IsPath(edges, p);
    assert forall p, n :: Connects(r, p, n, n) <==> Connects(edges, p, n, n);
    assert forall n :: Above(r, n, n) <==> Above(edges, n, n) by {
      forall n
        ensures Above(r, n, n) <==> Above(edges, n, n)
      {
        if p :| Connects(r, p, n, n) { assert Connects(edges, p, n, n); }
        if p :| Connects(edges, p, n, n) { assert Connects(r, p, n, n); }
      }
    }
  }

  function Bind(order: seq<NodeId>, nodes: map<NodeId, Node>, edges: seq<Edge>): Dag {
    var filled := FillAll(edges, nodes);
    Dag(order, map n | n in nodes :: nodes[n].(inEdges := EdgesInto(filled, n)), filled)
  }

  // ---------------------------------------------------------------------------
  // What loading makes of edges and conditions
  // ---------------------------------------------------------------------------

  /** No other edge leads to the same node. */
  predicate OnlyInEdge(edges: seq<Edge>, i: nat)
    requires i < |edges|
  {
    forall j | 0 <= j < |edges| && j != i :: edges[j].target != edges[i].target
  }

  /** An edge keeps its ends and the condition that it has; one without takes its target's, if it is alone there. */
  predicate EdgeLoaded(nodes: map<NodeId, Node>, edges: seq<Edge>, i: nat, e: Edge)
    requires i < |edges|
  {
    && e.source == edges[i].source && e.target == edges[i].target
    && e.when == if edges[i].when.None? && OnlyInEdge(edges, i) && edges[i].target in nodes
                 then nodes[edges[i].target].when else edges[i].when
  }

  /** A node keeps all that it has, and its in-edges are the edges that lead to it. */
  ghost predicate NodeLoaded(before: Node, after: Node, edges: seq<Edge>, n: NodeId) {
    && after == before.(inEdges := after.inEdges)
    && forall e :: multiset(after.inEdges)[e] == if e.target == n then multiset(edges)[e] else 0
  }

  ghost predicate LoadedFrom(order: seq<NodeId>, nodes: map<NodeId, Node>, edges: seq<Edge>, d: Dag) {
    && d.order == order && d.nodes.Keys == nodes.Keys && |d.edges| == |edges|
    && (forall i | 0 <= i < |edges| :: EdgeLoaded(nodes, edges, i, d.edges[i]))
    && (forall n | n in nodes :: NodeLoaded(nodes[n], d.nodes[n], d.edges, n))
  }

  lemma {:induction false} EdgesIntoCounts(edges: seq<Edge>, n: NodeId, e: Edge)
    ensures multiset(EdgesInto(edges, n))[e] == if e.target == n then multiset(edges)[e] else 0
  {
    if edges != [] {
      EdgesIntoCounts(edges[..|edges| - 1], n, e);
      assert edges == edges[..|edges| - 1] + [edges[|edges| - 1]];
    }
  }

  lemma {:induction false} NoEdgesInto(edges: seq<Edge>, n: NodeId)
    ensures EdgesInto(edges, n) == [] <==> forall i | 0 <= i < |edges| :: edges[i].target != n
  {
    if edges != [] {
      NoEdgesInto(edges[..|edges| - 1], n);
      assert edges[|edges| - 1].target != n ==> forall i | 0 <= i < |edges| - 1 :: edges[..|edges| - 1][i] == edges[i];
    }
  }

  lemma {:induction false} OneEdgeInto(edges: seq<Edge>, i: nat)
    requires i < |edges|
    ensures |EdgesInto(edges, edges[i].target)| == 1 <==> OnlyInEdge(edges, i)
  {
    var rest, k, n := edges[..|edges| - 1], |edges| - 1, edges[i].target;
    if i == k {
      NoEdgesInto(rest, n);
      assert (forall j | 0 <= j < |rest| :: rest[j].target != n) <==> OnlyInEdge(edges, i);
    } else {
      OneEdgeInto(rest, i);
      NoEdgesInto(rest, n);
      assert rest[i] == edges[i] && edges[i].target == n;
      if edges[k].target != n {
        assert OnlyInEdge(rest, i) <==> OnlyInEdge(edges, i);
      }
    }
  }

  lemma FillLoads(nodes: map<NodeId, Node>, edges: seq<Edge>, i: nat)
    requires i < |edges|
    ensures EdgeLoaded(nodes, edges, i, FillWhen(edges, nodes, edges[i]))
  {
    OneEdgeInto(edges, i);
    hide EdgesInto, OnlyInEdge;
  }

  lemma BindLoads(order: seq<NodeId>, nodes: map<NodeId, Node>, edges: seq<Edge>)
    ensures LoadedFrom(order, nodes, edges, Bind(order, nodes, edges))
  {
    var d := Bind(order, nodes, edges);
    forall i | 0 <= i < |edges|
      ensures EdgeLoaded(nodes, edges, i, d.edges[i])
    {
      FillLoads(nodes, edges, i);
      hide EdgeLoaded, FillWhen;
    }
    forall n | n in nodes
      ensures NodeLoaded(nodes[n], d.nodes[n], d.edges, n)
    {
      NodeIsLoaded(nodes[n], d.edges, n);
      hide NodeLoaded, EdgesInto, FillAll;
    }
    hide EdgeLoaded, NodeLoaded, EdgesInto, FillWhen;
  }

  lemma NodeIsLoaded(node: Node, edges: seq<Edge>, n: NodeId)
    ensures NodeLoaded(node, node.(inEdges := EdgesInto(edges, n)), edges, n)
  {
    forall e
      ensures multiset(EdgesInto(edges, n))[e] == if e.target == n then multiset(edges)[e] else 0
    {
      EdgesIntoCounts(edges, n, e);
    }
    hide EdgesInto;
  }

  lemma BindIsCoherent(order: seq<NodeId>, nodes: map<NodeId, Node>, edges: seq<Edge>)
    requires forall i, j | 0 <= i < j < |order| :: order[i] != order[j]
    requires (set n | n in order) == nodes.Keys && ClosedEdges(nodes.Keys, edges)
    ensures var d := Bind(order, nodes, edges);
            && Coherent(d) && d.order == order && d.nodes.Keys == nodes.Keys
            && (Acyclic(d.edges) <==> Acyclic(edges))
  {
    var d := Bind(order, nodes, edges);
    FillKeepsAcyclic(edges, nodes);
    forall e | e in d.edges
      ensures e.source in nodes && e.target in nodes
    {
      var i :| 0 <= i < |d.edges| && d.edges[i] == e;
      assert edges[i] in edges;
    }
    hide EdgesInto, Acyclic;
  }

  /** Loading is the same whether a condition stands on a node or on the only edge that leads to it. */
  lemma ConditionMayStandOnEither(
    order: seq<NodeId>, nodes: map<NodeId, Node>, edges: seq<Edge>, i: nat, d: Dag, d': Dag)
    requires i < |edges| && edges[i].when.None? && OnlyInEdge(edges, i) && edges[i].target in nodes
    requires LoadedFrom(order, nodes, edges, d) && Coherent(d)
    requires LoadedFrom(order, nodes, edges[i := edges[i].(when := nodes[edges[i].target].when)], d') && Coherent(d')
    ensures d == d'
  {
    hide EdgesInto, LoadedFrom, Coherent;
    var edges' := edges[i := edges[i].(when := nodes[edges[i].target].when)];
    SameLoadedEdges(order, nodes, edges, i, d, d');
    forall n | n in nodes
      ensures n in d.nodes && n in d'.nodes && d.nodes[n] == d'.nodes[n]
    {
      LoadedNode(order, nodes, edges, d, n);
      LoadedNode(order, nodes, edges', d', n);
    }
    LoadedKeys(order, nodes, edges, d);
    LoadedKeys(order, nodes, edges', d');
    assert d.nodes == d'.nodes;
  }

  lemma LoadedKeys(order: seq<NodeId>, nodes: map<NodeId, Node>, edges: seq<Edge>, d: Dag)
    requires LoadedFrom(order, nodes, edges, d)
    ensures d.order == order && d.nodes.Keys == nodes.Keys
  {
  }

  lemma LoadedNode(order: seq<NodeId>, nodes: map<NodeId, Node>, edges: seq<Edge>, d: Dag, n: NodeId)
    requires LoadedFrom(order, nodes, edges, d) && Coherent(d) && n in nodes
    ensures n in d.nodes && d.nodes[n] == nodes[n].(inEdges := EdgesInto(d.edges, n))
  {
    hide EdgeLoaded, OnlyInEdge, EdgesInto;
    assert NodeLoaded(nodes[n], d.nodes[n], d.edges, n);
  }

  lemma SameLoadedEdges(
    order: seq<NodeId>, nodes: map<NodeId, Node>, edges: seq<Edge>, i: nat, d: Dag, d': Dag)
    requires i < |edges| && edges[i].when.None? && OnlyInEdge(edges, i) && edges[i].target in nodes
    requires LoadedFrom(order, nodes, edges, d)
    requires LoadedFrom(order, nodes, edges[i := edges[i].(when := nodes[edges[i].target].when)], d')
    ensures d.edges == d'.edges
  {
    hide EdgeLoaded, NodeLoaded, OnlyInEdge;
    forall j | 0 <= j < |edges|
      ensures d.edges[j] == d'.edges[j]
    {
      EitherEdge(nodes, edges, i, j, d.edges[j], d'.edges[j]);
    }
  }

  lemma EitherEdge(nodes: map<NodeId, Node>, edges: seq<Edge>, i: nat, j: nat, e: Edge, e': Edge)
    requires i < |edges| && edges[i].when.None? && OnlyInEdge(edges, i) && edges[i].target in nodes && j < |edges|
    requires EdgeLoaded(nodes, edges, j, e)
    requires EdgeLoaded(nodes, edges[i := edges[i].(when := nodes[edges[i].target].when)], j, e')
    ensures e == e'
  {
    var edges' := edges[i := edges[i].(when := nodes[edges[i].target].when)];
    assert OnlyInEdge(edges, j) <==> OnlyInEdge(edges', j) by {
      assert forall k | 0 <= k < |edges| :: edges'[k].target == edges[k].target;
    }
    hide OnlyInEdge;
  }

  method CheckJoins(d: Dag) returns (ok: bool)
    requires (set n | n in d.order) == d.nodes.Keys
    ensures ok <==> forall n | n in d.nodes :: JoinConsistent(d.nodes[n])
  {
    for i := 0 to |d.order|
      invariant forall n | n in d.order[..i] :: n in d.nodes && JoinConsistent(d.nodes[n])
    {
      assert d.order[i] in d.order;
      var node := d.nodes[d.order[i]];
      var bad;
      match node.join {
        case AllEdges =>
          bad := node.required == [];
          for k := 0 to |node.required|
            invariant bad <==> node.required == [] || exists u | u in node.required[..k] :: u !in Upstreams(node)
          {
            if node.required[k] !in Upstreams(node) {
              bad := true;
            }
          }
        case AnyEdge => bad := node.required != [];
        case OtherJoin(_) => bad := true;
      }
      if bad {
        return false;
      }
    }
    return true;
  }

  /**
   Loading a graph succeeds exactly when every edge joins known nodes, the graph is
   acyclic and every join is consistent; the loaded graph is then the bound one.
   */
  method Build(order: seq<NodeId>, nodes: map<NodeId, Node>, edges: seq<Edge>) returns (r: BuildResult)
    requires forall i, j | 0 <= i < j < |order| :: order[i] != order[j]
    requires (set n | n in order) == nodes.Keys
    ensures r.Built? <==>
              && ClosedEdges(nodes.Keys, edges)
              && Acyclic(edges)
              && forall n | n in nodes :: JoinConsistent(Bind(order, nodes, edges).nodes[n])
    ensures r.Built? ==> r.dag == Bind(order, nodes, edges) && WellFormed(r.dag)
    ensures r.Built? ==> LoadedFrom(order, nodes, edges, r.dag)
    ensures r.UnknownNode? ==> r.edge in edges && !(r.edge.source in nodes && r.edge.target in nodes)
    ensures r.Cyclic? ==> ClosedEdges(nodes.Keys, edges) && !Acyclic(edges)
  {
    hide LoadedFrom, FillAll, EdgesInto, Acyclic;
    for i := 0 to |edges|
      invariant ClosedEdges(nodes.Keys, edges[..i])
    {
      if edges[i].target !in nodes || edges[i].source !in nodes {
        return UnknownNode(edges[i]);
      }
    }
    assert edges[..|edges|] == edges;
    var d := Bind(order, nodes, edges);
    BindLoads(order, nodes, edges);
    BindIsCoherent(order, nodes, edges);
    hide Bind, ClosedEdges, JoinConsistent;
    var acyclic := CheckCycle(order, d.edges);
    if !acyclic {
      return Cyclic;
    }
    var joins := CheckJoins(d);
    if !joins {
      return BadJoin;
    }
    return Built(d);
  }

  // ---------------------------------------------------------------------------
  // Transitive upstreams
  // ---------------------------------------------------------------------------

  lemma StepUp(edges: seq<Edge>, a: NodeId, b: NodeId, c: NodeId)
    requires HasEdge(edges, a, b) && Above(edges, b, c)
    ensures Above(edges, a, c)
  {
    var p :| Connects(edges, p, b, c);
    Prepend(edges, a, p);
    assert Connects(edges, [a] + p, a, c);
  }

  lemma OneStep(edges: seq<Edge>, a: NodeId, b: NodeId)
    requires HasEdge(edges, a, b)
    ensures Above(edges, a, b)
  {
    assert Connects(edges, [a, b], a, b);
  }

  /** A set that holds the direct upstreams of `b` and of each of its members holds all ancestors. */
  lemma ClosedUpwards(edges: seq<Edge>, s: set<NodeId>, b: NodeId, p: seq<NodeId>)
    requires forall m | HasEdge(edges, m, b) :: m in s
    requires forall m, n | n in s && HasEdge(edges, m, n) :: m in s
    requires IsPath(edges, p) && |p| >= 2 && p[|p| - 1] == b
    ensures p[0] in s
  {
    assert HasEdge(edges, p[0], p[1]);
    if |p| > 2 {
      var q := p[1..];
      assert forall i | 0 <= i < |q| :: q[i] == p[i + 1];
      ClosedUpwards(edges, s, b, q);
    }
  }

  lemma UpstreamIsEdge(d: Dag, n: NodeId, u: NodeId)
    requires Coherent(d) && n in d.nodes
    ensures u in Upstreams(d.nodes[n]) <==> HasEdge(d.edges, u, n)
  {
    UpstreamMember(d.nodes[n], u);
    forall e
      ensures e in d.nodes[n].inEdges <==> e in d.edges && e.target == n
    {
      InEdgesOf(d, n, e);
    }
  }

  /** Exactly the strict ancestors of a node. */
  method TransitiveUpstreams(d: Dag, nid: NodeId) returns (seen: set<NodeId>)
    requires Coherent(d) && nid in d.nodes
    ensures forall m :: m in seen <==> Above(d.edges, m, nid)
  {
    seen := {};
    var stack := Upstreams(d.nodes[nid]);
    forall m | m in stack
      ensures Above(d.edges, m, nid) && m in d.nodes
    {
      UpstreamIsEdge(d, nid, m);
      OneStep(d.edges, m, nid);
    }
    assert forall m | HasEdge(d.edges, m, nid) :: m in stack by {
      forall m | HasEdge(d.edges, m, nid)
        ensures m in stack
      {
        UpstreamIsEdge(d, nid, m);
      }
    }
    while stack != []
      invariant seen <= d.nodes.Keys
      invariant forall m | m in stack || m in seen :: Above(d.edges, m, nid) && m in d.nodes
      invariant forall m | HasEdge(d.edges, m, nid) :: m in stack || m in seen
      invariant forall m, n | n in seen && HasEdge(d.edges, m, n) :: m in stack || m in seen
      decreases d.nodes.Keys - seen, |stack|
    {
      var u := stack[|stack| - 1];
      ghost var before := stack;
      stack := stack[..|stack| - 1];
      assert forall m :: m in before <==> m in stack || m == u;
      if u !in seen {
        seen := seen + {u};
        ghost var rest := stack;
        stack := stack + Upstreams(d.nodes[u]);
        forall m | m in Upstreams(d.nodes[u])
          ensures Above(d.edges, m, nid) && m in d.nodes
        {
          UpstreamIsEdge(d, u, m);
          StepUp(d.edges, m, u, nid);
        }
        forall m | HasEdge(d.edges, m, u)
          ensures m in stack
        {
          UpstreamIsEdge(d, u, m);
        }
      }
    }
    forall m | Above(d.edges, m, nid)
      ensures m in seen
    {
      var p :| Connects(d.edges, p, m, nid);
      ClosedUpwards(d.edges, seen, nid, p);
    }
  }
}
