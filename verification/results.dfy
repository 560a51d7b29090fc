/** What the fraud analyzer reports (backend/app/graph_analyzer.py,
    `_generate_results` and `get_account_context`): a view of every node, a
    view of every edge in the graph library's edge order, the high-risk
    nodes sorted by score, and summary counts. */
module FraudResults {
  import opened Wrappers
  import opened Seqs
  import opened Sorting
  import opened FraudGraph
  import opened FraudSignals

  datatype NodeView = NodeView(
    id: NodeId,
    kind: NodeKind,
    riskScore: real,
    signals: seq<Signal>,
    deviceId: string,
    ip: string,
    country: string)

  datatype EdgeView = EdgeView(source: NodeId, target: NodeId, count: nat, totalAmount: real)

  datatype Summary = Summary(totalAccounts: nat, totalUsers: nat, totalTransactions: nat, highRiskCount: nat)

  datatype Report = Report(
    nodes: seq<NodeView>,
    edges: seq<EdgeView>,
    highRiskAccounts: seq<NodeView>,
    summary: Summary)

  const HighRiskScore: real := 5.0

  /** Attributes of a node; an id that is not a node reads as an account
      without attributes, the defaults the report falls back to. */
  function NodeAt(g: Graph, n: NodeId): Node {
    if n in g.nodes then g.nodes[n] else Node(AccountNode, "", "", "")
  }

  function ViewNode(g: Graph, sigs: Signals, n: NodeId): (v: NodeView)
    ensures v.id == n && v.signals == SignalsAt(sigs, n) && v.riskScore == RiskScore(g, sigs, n)
  {
    var d := NodeAt(g, n);
    NodeView(n, d.kind, RiskScore(g, sigs, n), SignalsAt(sigs, n), d.deviceId, d.ip, d.country)
  }

  /** One view per node, in node order. */
  function NodeViews(g: Graph, sigs: Signals, ns: seq<NodeId>): (r: seq<NodeView>)
    ensures |r| == |ns|
    ensures forall i :: 0 <= i < |ns| ==> r[i] == ViewNode(g, sigs, ns[i])
  {
    if ns == [] then [] else [ViewNode(g, sigs, ns[0])] + NodeViews(g, sigs, ns[1..])
  }

  // ---------------------------------------------------------------------
  // Edge order

  function Neighbours(g: Graph, n: NodeId): seq<NodeId> {
    if n in g.adj then g.adj[n] else []
  }

  function ViewEdge(g: Graph, n: NodeId, m: NodeId): EdgeView {
    var p := PairOf(n, m);
    var d := if p in g.edges then g.edges[p] else EdgeData(1, 0.0, []);
    EdgeView(n, m, d.count, d.totalAmount)
  }

  function PairOfView(e: EdgeView): Pair { PairOf(e.source, e.target) }

  /** The edges reported while visiting `n`: one per neighbour not visited
      yet, in neighbour order. */
  function NewEdges(g: Graph, n: NodeId, done: set<NodeId>, nbrs: seq<NodeId>): (r: seq<EdgeView>)
    ensures forall e :: e in r ==> e.source == n && e.target in nbrs && e.target !in done && e == ViewEdge(g, n, e.target)
    ensures forall m :: m in nbrs && m !in done ==> ViewEdge(g, n, m) in r
  {
    if nbrs == [] then []
    else
      var rest := NewEdges(g, n, done, nbrs[1..]);
      (if nbrs[0] !in done then [ViewEdge(g, n, nbrs[0])] else []) + rest
  }

  /** networkx's undirected edge walk: nodes in order, each reporting its
      edges to neighbours not visited before it, so every edge is reported
      once, from its endpoint that comes first. */
  function EdgeWalk(g: Graph, done: set<NodeId>, ns: seq<NodeId>): seq<EdgeView>
    decreases |ns|
  {
    if ns == [] then []
    else NewEdges(g, ns[0], done, Neighbours(g, ns[0])) + EdgeWalk(g, done + {ns[0]}, ns[1..])
  }

  function EdgeViews(g: Graph): seq<EdgeView> {
    EdgeWalk(g, {}, g.order)
  }

  /** No endpoint pair is reported twice. */
  predicate DistinctPairs(es: seq<EdgeView>) {
    forall i, j :: 0 <= i < j < |es| ==> PairOfView(es[i]) != PairOfView(es[j])
  }

  lemma DistinctPairsConcat(xs: seq<EdgeView>, ys: seq<EdgeView>)
    requires DistinctPairs(xs) && DistinctPairs(ys)
    requires forall x, y :: x in xs && y in ys ==> PairOfView(x) != PairOfView(y)
    ensures DistinctPairs(xs + ys)
  {
    var r := xs + ys;
    forall i, j | 0 <= i < j < |r| ensures PairOfView(r[i]) != PairOfView(r[j]) {
      if j >= |xs| {
        if i >= |xs| {
          assert r[i] == ys[i - |xs|] && r[j] == ys[j - |xs|];
        } else {
          assert r[i] in xs && r[j] == ys[j - |xs|] && r[j] in ys;
        }
      }
    }
  }

  /** The edges reported at one node join it to distinct neighbours, so
      their pairs differ. */
  lemma {:induction false} NewEdgesDistinct(g: Graph, n: NodeId, done: set<NodeId>, nbrs: seq<NodeId>)
    requires Distinct(nbrs)
    ensures DistinctPairs(NewEdges(g, n, done, nbrs))
  {
    if nbrs != [] {
      var rest := nbrs[1..];
      assert Distinct(rest) by {
        forall i, j | 0 <= i < j < |rest| ensures rest[i] != rest[j] {
          assert rest[i] == nbrs[i + 1] && rest[j] == nbrs[j + 1];
        }
      }
      NewEdgesDistinct(g, n, done, rest);
      if nbrs[0] !in done {
        forall x, y | x in [ViewEdge(g, n, nbrs[0])] && y in NewEdges(g, n, done, rest)
          ensures PairOfView(x) != PairOfView(y)
        {
          assert y.target in rest;
          assert y.target != nbrs[0] by {
            var k :| 0 <= k < |rest| && rest[k] == y.target;
            assert nbrs[k + 1] == y.target;
          }
          PairsDiffer(n, nbrs[0], y.target);
        }
        DistinctPairsConcat([ViewEdge(g, n, nbrs[0])], NewEdges(g, n, done, rest));
      }
    }
  }

  /** Two pairs at one node differ when the other endpoints do. */
  lemma PairsDiffer(n: NodeId, a: NodeId, b: NodeId)
    requires a != b
    ensures PairOf(n, a) != PairOf(n, b)
  {
    if a == n {
      assert b in PairOf(n, b);
    } else {
      assert a in PairOf(n, a);
    }
  }

  /** Each reported pair is an edge not touching a visited node, and it
      carries that edge's count and amount. */
  lemma {:induction false} EdgeWalkSound(g: Graph, done: set<NodeId>, ns: seq<NodeId>)
    requires AdjWf(g) && Distinct(ns)
    requires forall x :: x in ns ==> x !in done
    ensures forall e :: e in EdgeWalk(g, done, ns) ==>
      && PairOfView(e) in g.edges
      && e.count == g.edges[PairOfView(e)].count
      && e.totalAmount == g.edges[PairOfView(e)].totalAmount
      && e.source !in done && e.target !in done
    decreases |ns|
  {
    if ns != [] {
      var n := ns[0];
      var rest := ns[1..];
      DistinctTail(ns);
      EdgeWalkSound(g, done + {n}, rest);
      forall e | e in NewEdges(g, n, done, Neighbours(g, n))
        ensures PairOfView(e) in g.edges
      {
        assert n in g.adj;
      }
    }
  }

  /** Some entry reports pair `p`. */
  predicate ReportedIn(es: seq<EdgeView>, p: Pair) {
    exists e :: e in es && PairOfView(e) == p
  }

  /** An edge whose endpoints are both unvisited is reported, provided the
      visited and remaining nodes cover the graph. */
  lemma {:induction false} EdgeWalkCovers(g: Graph, done: set<NodeId>, ns: seq<NodeId>, a: NodeId, b: NodeId)
    requires AdjWf(g)
    requires forall x :: x in g.nodes ==> x in done || x in ns
    requires a in g.adj && b in g.adj[a] && a !in done && b !in done
    ensures ReportedIn(EdgeWalk(g, done, ns), PairOf(a, b))
    decreases |ns|
  {
    var n := ns[0];
    var here := NewEdges(g, n, done, Neighbours(g, n));
    var later := EdgeWalk(g, done + {n}, ns[1..]);
    assert EdgeWalk(g, done, ns) == here + later;
    if a == n {
      assert ViewEdge(g, n, b) in here;
      assert PairOfView(ViewEdge(g, n, b)) == PairOf(a, b);
      assert ViewEdge(g, n, b) in EdgeWalk(g, done, ns);
    } else if b == n {
      assert a in g.adj[b];
      assert ViewEdge(g, n, a) in here;
      assert PairOfView(ViewEdge(g, n, a)) == PairOf(a, b);
      assert ViewEdge(g, n, a) in EdgeWalk(g, done, ns);
    } else {
      EdgeWalkCovers(g, done + {n}, ns[1..], a, b);
      var e :| e in later && PairOfView(e) == PairOf(a, b);
      assert e in EdgeWalk(g, done, ns);
    }
  }

  /** No pair is reported twice. */
  lemma {:induction false} EdgeWalkDistinct(g: Graph, done: set<NodeId>, ns: seq<NodeId>)
    requires AdjWf(g) && Distinct(ns)
    requires forall x :: x in ns ==> x !in done
    ensures DistinctPairs(EdgeWalk(g, done, ns))
    decreases |ns|
  {
    if ns != [] {
      var n := ns[0];
      var rest := ns[1..];
      var here := NewEdges(g, n, done, Neighbours(g, n));
      var later := EdgeWalk(g, done + {n}, rest);
      DistinctTail(ns);
      EdgeWalkDistinct(g, done + {n}, rest);
      EdgeWalkSound(g, done + {n}, rest);
      NewEdgesDistinct(g, n, done, Neighbours(g, n));
      forall x, y | x in here && y in later ensures PairOfView(x) != PairOfView(y) {
        assert n in PairOfView(x);
        assert y.source != n && y.target != n;
      }
      DistinctPairsConcat(here, later);
    }
  }

  /** A duplicate-free list of edge views has as many distinct pairs as
      entries. */
  lemma PairCount(es: seq<EdgeView>)
    requires DistinctPairs(es)
    ensures |set e | e in es :: PairOfView(e)| == |es|
  {
    var ps := MapSeq(es, PairOfView);
    assert Distinct(ps);
    DistinctCard(ps);
    assert (set e | e in es :: PairOfView(e)) == (set q | q in ps) by {
      forall q | q in ps ensures q in set e | e in es :: PairOfView(e) {
        var i :| 0 <= i < |ps| && ps[i] == q;
        assert es[i] in es;
      }
      forall e | e in es ensures PairOfView(e) in ps {
        var i :| 0 <= i < |es| && es[i] == e;
        assert ps[i] == PairOfView(e);
      }
    }
  }

  /** Every edge of the graph is reported. */
  lemma EdgeViewsCover(g: Graph)
    requires Wf(g) && EdgesWf(g)
    ensures forall p :: p in g.edges ==> ReportedIn(EdgeViews(g), p)
  {
    forall p | p in g.edges ensures ReportedIn(EdgeViews(g), p) {
      var a, b :| a in g.adj && b in g.adj[a] && p == PairOf(a, b);
      EdgeWalkCovers(g, {}, g.order, a, b);
    }
  }

  /** The reported pairs are exactly the edge keys. */
  lemma ReportedPairs(g: Graph)
    requires Wf(g) && EdgesWf(g)
    ensures (set e | e in EdgeViews(g) :: PairOfView(e)) == g.edges.Keys
  {
    EdgeWalkSound(g, {}, g.order);
    EdgeViewsCover(g);
    PairsAreKeys(EdgeViews(g), g.edges.Keys);
  }

  /** Reported views whose pairs are keys, covering every key, report
      exactly the keys. */
  lemma PairsAreKeys(es: seq<EdgeView>, keys: set<Pair>)
    requires forall e :: e in es ==> PairOfView(e) in keys
    requires forall p :: p in keys ==> ReportedIn(es, p)
    ensures (set e | e in es :: PairOfView(e)) == keys
  {
    forall p | p in keys ensures p in (set e | e in es :: PairOfView(e)) {
      var e :| e in es && PairOfView(e) == p;
    }
  }

  /** Every edge is reported exactly once, with its count and amount: the
      number of reported edges is the number of linked pairs. */
  lemma EdgeViewsComplete(g: Graph)
    requires Wf(g) && EdgesWf(g)
    ensures forall e :: e in EdgeViews(g) ==>
      PairOfView(e) in g.edges && e.count == g.edges[PairOfView(e)].count
      && e.totalAmount == g.edges[PairOfView(e)].totalAmount
    ensures forall p :: p in g.edges ==> ReportedIn(EdgeViews(g), p)
    ensures DistinctPairs(EdgeViews(g))
    ensures |EdgeViews(g)| == |g.edges|
  {
    EdgeWalkSound(g, {}, g.order);
    EdgeWalkDistinct(g, {}, g.order);
    EdgeViewsCover(g);
    PairCount(EdgeViews(g));
    ReportedPairs(g);
  }

  // ---------------------------------------------------------------------
  // Report

  function RiskOf(v: NodeView): real { v.riskScore }

  predicate IsHighRisk(v: NodeView) { v.riskScore > HighRiskScore }

  predicate IsAccountView(v: NodeView) { v.kind == AccountNode }

  predicate IsUserView(v: NodeView) { v.kind == UserNode }

  /** `_generate_results`. */
  function GenerateReport(g: Graph, sigs: Signals): (r: Report)
    ensures SortedDesc(r.highRiskAccounts, RiskOf)
    ensures multiset(r.highRiskAccounts) == multiset(Filter(r.nodes, IsHighRisk))
    ensures forall v :: v in r.highRiskAccounts <==> v in r.nodes && v.riskScore > HighRiskScore
    ensures r.summary.totalAccounts + r.summary.totalUsers == |r.nodes| == |g.order|
    ensures r.summary.highRiskCount == |r.highRiskAccounts|
    ensures r.summary.totalTransactions == |r.edges|
    ensures forall i :: 0 <= i < |g.order| ==> r.nodes[i] == ViewNode(g, sigs, g.order[i])
    ensures r.edges == EdgeViews(g)
  {
    var nodes := NodeViews(g, sigs, g.order);
    var edges := EdgeViews(g);
    var high := SortDesc(Filter(nodes, IsHighRisk), RiskOf);
    SortDescMembers(Filter(nodes, IsHighRisk), RiskOf);
    FilterPartition(nodes, IsAccountView, IsUserView);
    Report(nodes, edges, high,
      Summary(|Filter(nodes, IsAccountView)|, |Filter(nodes, IsUserView)|, |edges|, |high|))
  }

  /** Every high-risk entry carries at least two signals. */
  lemma HighRiskHasTwoSignals(g: Graph, sigs: Signals)
    ensures forall v :: v in GenerateReport(g, sigs).highRiskAccounts ==> |v.signals| >= 2
  {
    var r := GenerateReport(g, sigs);
    HighViewsHaveTwo(g, sigs, r.nodes, r.highRiskAccounts);
  }

  /** `nodes` are the views of the graph's nodes, in node order. */
  predicate ViewsOf(g: Graph, sigs: Signals, nodes: seq<NodeView>) {
    |nodes| == |g.order| && forall i :: 0 <= i < |nodes| ==> nodes[i] == ViewNode(g, sigs, g.order[i])
  }

  lemma HighViewsHaveTwo(g: Graph, sigs: Signals, nodes: seq<NodeView>, high: seq<NodeView>)
    requires ViewsOf(g, sigs, nodes)
    requires forall v :: v in high ==> v in nodes && IsHighRisk(v)
    ensures forall v :: v in high ==> |v.signals| >= 2
  {
    forall v | v in high ensures |v.signals| >= 2 {
      var i :| 0 <= i < |nodes| && nodes[i] == v;
      HighRiskNeedsTwoSignals(g, sigs, g.order[i]);
    }
  }

  /** The node count of a well-formed graph is the number of nodes, and for a
      built graph the transaction count is the number of linked pairs. */
  lemma ReportCounts(g: Graph, sigs: Signals)
    requires Wf(g) && EdgesWf(g)
    ensures var r := GenerateReport(g, sigs);
      && r.summary.totalAccounts + r.summary.totalUsers == |g.nodes|
      && r.summary.totalTransactions == |g.edges|
  {
    EdgeViewsComplete(g);
    OrderCountsNodes(g);
  }

  /** A consistent graph lists each node once in its order. */
  lemma OrderCountsNodes(g: Graph)
    requires OrderWf(g)
    ensures |g.order| == |g.nodes|
  {
    DistinctCard(g.order);
    assert (set n | n in g.order) == g.nodes.Keys;
  }

  /** The analyzer end to end: build the graph, run the detectors with the
      graph's enumerated simple cycles, and report. */
  function Analyze(users: seq<UserRow>, txns: seq<TxnRow>, cycles: seq<seq<NodeId>>): (r: Report)
    ensures r.summary.totalTransactions == |Build(users, txns).edges|
    ensures r.summary.totalAccounts + r.summary.totalUsers == |Build(users, txns).nodes|
    ensures var g := Build(users, txns);
      && r == GenerateReport(g, DetectAll(g, cycles))
      && r.edges == EdgeViews(g)
      && forall i :: 0 <= i < |g.order| ==> r.nodes[i] == ViewNode(g, DetectAll(g, cycles), g.order[i])
  {
    var g := Build(users, txns);
    BuildEdgesWf(users, txns);
    ReportCounts(g, DetectAll(g, cycles));
    GenerateReport(g, DetectAll(g, cycles))
  }

  // ---------------------------------------------------------------------
  // Account context

  datatype Counterparty = Counterparty(to: NodeId, count: nat, totalAmount: real)

  datatype AccountContext = AccountContext(
    accountId: NodeId,
    riskScore: real,
    signals: seq<Signal>,
    transactionCount: nat,
    connectedAccounts: nat,
    transactions: seq<Counterparty>)

  const ContextLimit: nat := 10

  /** One entry per neighbour that has an edge, in neighbour order. */
  function Counterparties(g: Graph, n: NodeId, nbrs: seq<NodeId>): (r: seq<Counterparty>)
    ensures |r| <= |nbrs|
    ensures forall c :: c in r ==>
      && c.to in nbrs && PairOf(n, c.to) in g.edges
      && c.count == g.edges[PairOf(n, c.to)].count && c.totalAmount == g.edges[PairOf(n, c.to)].totalAmount
    ensures (forall m :: m in nbrs ==> PairOf(n, m) in g.edges) ==> |r| == |nbrs|
  {
    if nbrs == [] then []
    else
      var p := PairOf(n, nbrs[0]);
      (if p in g.edges then [Counterparty(nbrs[0], g.edges[p].count, g.edges[p].totalAmount)] else [])
        + Counterparties(g, n, nbrs[1..])
  }

  /** `get_account_context`: nothing for an unknown id; otherwise the node's
      score and signals, how many counterparties it has, and the first ten
      of them. */
  function AccountContextOf(g: Graph, sigs: Signals, id: NodeId): (r: Option<AccountContext>)
    ensures r.None? <==> id !in g.nodes
    ensures r.Some? ==>
      && r.value.accountId == id
      && r.value.riskScore == RiskScore(g, sigs, id)
      && r.value.signals == SignalsAt(sigs, id)
      && |r.value.transactions| <= ContextLimit
      && r.value.transactionCount <= r.value.connectedAccounts == |Neighbours(g, id)|
      && (forall c :: c in r.value.transactions ==> c.to in Neighbours(g, id) && PairOf(id, c.to) in g.edges)
      && r.value.transactionCount == |Counterparties(g, id, Neighbours(g, id))|
      && r.value.transactions == Take(Counterparties(g, id, Neighbours(g, id)), ContextLimit)
  {
    if id !in g.nodes then None
    else
      var nbrs := Neighbours(g, id);
      var all := Counterparties(g, id, nbrs);
      var shown := Take(all, ContextLimit);
      assert forall c :: c in shown ==> c in all by {
        forall c | c in shown ensures c in all {
          var i :| 0 <= i < |shown| && shown[i] == c;
          assert all[i] == c;
        }
      }
      Some(AccountContext(id, RiskScore(g, sigs, id), SignalsAt(sigs, id), |all|, |nbrs|, shown))
  }

  /** In a well-formed graph every neighbour has an edge, so the context
      counts every counterparty and its degree without self-loops. */
  lemma ContextCountsNeighbours(g: Graph, sigs: Signals, id: NodeId)
    requires Wf(g) && id in g.nodes
    ensures var c := AccountContextOf(g, sigs, id).value;
      c.transactionCount == c.connectedAccounts == |g.adj[id]|
  {
  }
}
