/** The undirected transaction graph of the fraud analyzer
    (backend/app/graph_analyzer.py, `build_graph`): user nodes from the KYC
    rows, account nodes for transaction endpoints not already present, and one
    edge per unordered endpoint pair that aggregates every transaction between
    them. Neighbour lists keep insertion order, as the graph library's
    adjacency dictionaries do. */
module FraudGraph {
  import opened Seqs

  type NodeId = string

  datatype NodeKind = UserNode | AccountNode

  /** Node attributes; account nodes carry empty attribute strings. */
  datatype Node = Node(kind: NodeKind, deviceId: string, ip: string, country: string)

  /** One transaction as stored on an edge; `timestamp` is the timestamp
      string's position in lexicographic order. */
  datatype EdgeTxn = EdgeTxn(amount: real, timestamp: int, device: string, ip: string)

  datatype EdgeData = EdgeData(count: nat, totalAmount: real, transactions: seq<EdgeTxn>)

  /** An edge is keyed by the set of its endpoints: `{a, b}`, or `{a}` for a
      self-loop. */
  type Pair = set<NodeId>

  datatype Graph = Graph(
    order: seq<NodeId>,
    nodes: map<NodeId, Node>,
    adj: map<NodeId, seq<NodeId>>,
    edges: map<Pair, EdgeData>)

  datatype UserRow = UserRow(userId: string, deviceId: string, ip: string, country: string)

  datatype TxnRow = TxnRow(src: string, dst: string, amount: real, timestamp: int, deviceId: string, ip: string)

  function PairOf(a: NodeId, b: NodeId): Pair { {a, b} }

  const EmptyGraph: Graph := Graph([], map[], map[], map[])

  // ---------------------------------------------------------------------
  // Well-formedness

  /** The node order lists every node exactly once. */
  ghost predicate OrderWf(g: Graph) {
    && Distinct(g.order)
    && (forall n :: n in g.order <==> n in g.nodes)
  }

  /** Every node has a duplicate-free neighbour list, adjacency is
      symmetric, and an adjacency exists exactly where an edge does. */
  ghost predicate AdjWf(g: Graph) {
    && (forall n :: n in g.adj <==> n in g.nodes)
    && (forall n :: n in g.adj ==> Distinct(g.adj[n]))
    && Symmetric(g)
    && (forall n, m :: n in g.adj && PairOf(n, m) in g.edges ==> m in g.adj[n])
    && (forall p, n :: p in g.edges && n in p ==> n in g.adj)
  }

  /** Every edge key is the endpoint pair of some adjacency. */
  ghost predicate EdgesWf(g: Graph) {
    forall p :: p in g.edges ==> exists a, b :: a in g.adj && b in g.adj[a] && p == PairOf(a, b)
  }

  ghost predicate Wf(g: Graph) {
    OrderWf(g) && AdjWf(g)
  }

  /** networkx's degree: incident edges, a self-loop counting twice. */
  function Degree(g: Graph, n: NodeId): (d: nat)
    ensures n !in g.adj ==> d == 0
  {
    if n !in g.adj then 0
    else |g.adj[n]| + (if n in g.adj[n] then 1 else 0)
  }

  // ---------------------------------------------------------------------
  // Construction

  /** `add_node(user_id, node_type='user', ...)`: a new user node is
      appended; an existing node keeps its place and takes the new
      attributes. */
  function AddUser(g: Graph, u: UserRow): (r: Graph)
    ensures r.nodes == g.nodes[u.userId := Node(UserNode, u.deviceId, u.ip, u.country)]
    ensures r.edges == g.edges
    ensures u.userId in g.nodes ==> r.order == g.order && r.adj == g.adj
  {
    var node := Node(UserNode, u.deviceId, u.ip, u.country);
    if u.userId in g.nodes then g.(nodes := g.nodes[u.userId := node])
    else Graph(g.order + [u.userId], g.nodes[u.userId := node], g.adj[u.userId := []], g.edges)
  }

  /** A transaction endpoint becomes an account node unless the id is
      already a node. */
  function AddEndpoint(g: Graph, a: NodeId): (r: Graph)
    ensures a in g.nodes ==> r == g
    ensures a !in g.nodes ==> r.nodes == g.nodes[a := Node(AccountNode, "", "", "")]
    ensures r.edges == g.edges
  {
    if a in g.nodes then g
    else Graph(g.order + [a], g.nodes[a := Node(AccountNode, "", "", "")], g.adj[a := []], g.edges)
  }

  function TxnOf(t: TxnRow): EdgeTxn {
    EdgeTxn(t.amount, t.timestamp, t.deviceId, t.ip)
  }

  /** Records one transaction on the edge between its endpoints: merged into
      an existing edge (one more, amount added, transaction appended) or a
      new edge linking the two endpoints. Endpoint nodes are left alone. */
  function Link(g: Graph, t: TxnRow): (r: Graph)
    requires t.src in g.adj && t.dst in g.adj
    ensures r.nodes == g.nodes && r.order == g.order
    ensures var p := PairOf(t.src, t.dst);
      && r.edges.Keys == g.edges.Keys + {p}
      && (forall q :: q in g.edges && q != p ==> r.edges[q] == g.edges[q])
      && (p in g.edges ==> r.edges[p] == EdgeData(g.edges[p].count + 1,
            g.edges[p].totalAmount + t.amount, g.edges[p].transactions + [TxnOf(t)]))
      && (p !in g.edges ==> r.edges[p] == EdgeData(1, t.amount, [TxnOf(t)]))
  {
    var a := t.src;
    var b := t.dst;
    var p := PairOf(a, b);
    if p in g.edges then
      var e := g.edges[p];
      g.(edges := g.edges[p := EdgeData(e.count + 1, e.totalAmount + t.amount, e.transactions + [TxnOf(t)])])
    else
      var adj1 := g.adj[a := g.adj[a] + [b]];
      var adj2 := if a == b then adj1 else adj1[b := adj1[b] + [a]];
      Graph(g.order, g.nodes, adj2, g.edges[p := EdgeData(1, t.amount, [TxnOf(t)])])
  }

  /** One transaction row: both endpoints ensured, then the edge updated. */
  function AddTxn(g: Graph, t: TxnRow): (r: Graph)
    requires Wf(g)
  {
    var g1 := AddEndpoint(AddEndpoint(g, t.src), t.dst);
    AddEndpointWf(g, t.src);
    AddEndpointWf(AddEndpoint(g, t.src), t.dst);
    Link(g1, t)
  }

  function AddUsers(g: Graph, users: seq<UserRow>): (r: Graph)
    requires Wf(g)
    ensures Wf(r)
    ensures r.edges == g.edges
  {
    if users == [] then g
    else
      var prev := AddUsers(g, users[..|users| - 1]);
      AddUserWf(prev, users[|users| - 1]);
      AddUser(prev, users[|users| - 1])
  }

  function AddTxns(g: Graph, txns: seq<TxnRow>): (r: Graph)
    requires Wf(g)
    ensures Wf(r)
  {
    if txns == [] then g
    else
      var prev := AddTxns(g, txns[..|txns| - 1]);
      AddTxnWf(prev, txns[|txns| - 1]);
      AddTxn(prev, txns[|txns| - 1])
  }

  /** `build_graph` up to the analyses: a fresh graph, the user rows, then the
      transaction rows. */
  function Build(users: seq<UserRow>, txns: seq<TxnRow>): (g: Graph)
    ensures Wf(g)
  {
    AddTxns(AddUsers(EmptyGraph, users), txns)
  }

  // ---------------------------------------------------------------------
  // Well-formedness is preserved

  lemma AddUserWf(g: Graph, u: UserRow)
    requires Wf(g)
    ensures Wf(AddUser(g, u))
  {
    if u.userId !in g.nodes {
      AddIsolatedWf(g, u.userId, Node(UserNode, u.deviceId, u.ip, u.country));
    } else {
      SameShapeWf(g, AddUser(g, u));
    }
  }

  /** Well-formedness does not look at node attributes. */
  lemma SameShapeWf(g: Graph, r: Graph)
    requires Wf(g)
    requires r.order == g.order && r.adj == g.adj && r.edges == g.edges && r.nodes.Keys == g.nodes.Keys
    ensures Wf(r)
  {
  }

  lemma AddEndpointWf(g: Graph, a: NodeId)
    requires Wf(g)
    ensures Wf(AddEndpoint(g, a))
    ensures a in AddEndpoint(g, a).adj
    ensures forall n :: n in g.adj ==> n in AddEndpoint(g, a).adj
  {
    if a !in g.nodes {
      AddIsolatedWf(g, a, Node(AccountNode, "", "", ""));
    }
  }

  /** A new node without neighbours keeps the graph well formed. */
  lemma AddIsolatedWf(g: Graph, a: NodeId, node: Node)
    requires Wf(g) && a !in g.nodes
    ensures Wf(Graph(g.order + [a], g.nodes[a := node], g.adj[a := []], g.edges))
  {
    var r := Graph(g.order + [a], g.nodes[a := node], g.adj[a := []], g.edges);
    assert a !in g.order;
    DistinctSnoc(g.order, a);
    forall n, m | n in r.adj && m in r.adj[n]
      ensures m in r.adj && n in r.adj[m] && PairOf(n, m) in r.edges
    {
      assert n != a;
    }
    forall n, m | n in r.adj && PairOf(n, m) in r.edges ensures m in r.adj[n] {
      assert n in PairOf(n, m);
    }
  }

  lemma LinkWf(g: Graph, t: TxnRow)
    requires Wf(g) && t.src in g.adj && t.dst in g.adj
    ensures Wf(Link(g, t))
  {
    if PairOf(t.src, t.dst) !in g.edges {
      var r := Link(g, t);
      assert r.adj.Keys == g.adj.Keys;
      LinkNewDistinct(g, t);
      LinkNewSymmetric(g, t);
      LinkNewEdgeAdjacent(g, t);
    }
  }

  /** The adjacency lists after linking a new pair: each endpoint gains the
      other once. */
  lemma LinkNewAdj(g: Graph, t: TxnRow)
    requires Wf(g) && t.src in g.adj && t.dst in g.adj && PairOf(t.src, t.dst) !in g.edges
    ensures var r := Link(g, t);
      && r.adj.Keys == g.adj.Keys
      && r.adj[t.src] == g.adj[t.src] + [t.dst]
      && (t.src != t.dst ==> r.adj[t.dst] == g.adj[t.dst] + [t.src])
      && (forall n :: n in g.adj && n != t.src && n != t.dst ==> r.adj[n] == g.adj[n])
      && t.dst !in g.adj[t.src] && t.src !in g.adj[t.dst]
  {
  }

  lemma LinkNewDistinct(g: Graph, t: TxnRow)
    requires Wf(g) && t.src in g.adj && t.dst in g.adj && PairOf(t.src, t.dst) !in g.edges
    ensures forall n :: n in Link(g, t).adj ==> Distinct(Link(g, t).adj[n])
  {
    LinkNewAdj(g, t);
    var r := Link(g, t);
    forall n | n in r.adj ensures Distinct(r.adj[n]) {
      if n == t.src {
        DistinctSnoc(g.adj[n], t.dst);
      } else if n == t.dst {
        DistinctSnoc(g.adj[n], t.src);
      }
    }
  }

  lemma LinkNewSymmetric(g: Graph, t: TxnRow)
    requires Wf(g) && t.src in g.adj && t.dst in g.adj && PairOf(t.src, t.dst) !in g.edges
    ensures Symmetric(Link(g, t))
  {
    LinkNewAdjCases(g, t);
    SymmetricAfterLink(g, Link(g, t), t.src, t.dst);
  }

  /** Each neighbour relation goes both ways and has its edge. */
  ghost predicate Symmetric(g: Graph) {
    forall n, m :: n in g.adj && m in g.adj[n] ==> m in g.adj && n in g.adj[m] && PairOf(n, m) in g.edges
  }

  /** `r` is `g` with `a` and `b` made neighbours and their pair linked. */
  ghost predicate AdjExtended(g: Graph, r: Graph, a: NodeId, b: NodeId) {
    && r.adj.Keys == g.adj.Keys && a in g.adj && b in g.adj
    && b in r.adj[a] && a in r.adj[b]
    && (forall n, m :: n in r.adj && m in r.adj[n] ==> m in g.adj[n] || (n == a && m == b) || (n == b && m == a))
    && (forall n, m :: n in g.adj && m in g.adj[n] ==> m in r.adj[n])
    && PairOf(a, b) in r.edges && PairOf(b, a) in r.edges
    && (forall q :: q in g.edges ==> q in r.edges)
  }

  /** Symmetry survives making `a` and `b` neighbours. */
  lemma SymmetricAfterLink(g: Graph, r: Graph, a: NodeId, b: NodeId)
    requires Symmetric(g) && AdjExtended(g, r, a, b)
    ensures Symmetric(r)
  {
    forall n, m | n in r.adj && m in r.adj[n]
      ensures m in r.adj && n in r.adj[m] && PairOf(n, m) in r.edges
    {
      if m in g.adj[n] {
        assert n in g.adj[m];
      }
    }
  }

  /** After linking a new pair, a neighbour is an old neighbour or the
      other endpoint of the new pair, and old neighbours stay. */
  lemma LinkNewAdjCases(g: Graph, t: TxnRow)
    requires Wf(g) && t.src in g.adj && t.dst in g.adj && PairOf(t.src, t.dst) !in g.edges
    ensures AdjExtended(g, Link(g, t), t.src, t.dst)
  {
    LinkNewAdj(g, t);
    assert PairOf(t.dst, t.src) == PairOf(t.src, t.dst);
  }

  lemma LinkNewEdgeAdjacent(g: Graph, t: TxnRow)
    requires Wf(g) && t.src in g.adj && t.dst in g.adj && PairOf(t.src, t.dst) !in g.edges
    ensures var r := Link(g, t);
      && (forall n, m :: n in r.adj && PairOf(n, m) in r.edges ==> m in r.adj[n])
      && (forall q, n :: q in r.edges && n in q ==> n in r.adj)
  {
    LinkNewAdj(g, t);
    var r := Link(g, t);
    var p := PairOf(t.src, t.dst);
    forall n, m | n in r.adj && PairOf(n, m) in r.edges ensures m in r.adj[n] {
      if PairOf(n, m) == p {
        assert n in p && m in p;
      } else {
        assert PairOf(n, m) in g.edges;
      }
    }
    forall q, n | q in r.edges && n in q ensures n in r.adj {
      if q == p {
        assert n == t.src || n == t.dst;
      }
    }
  }

  lemma AddTxnWf(g: Graph, t: TxnRow)
    requires Wf(g)
    ensures Wf(AddTxn(g, t))
  {
    var g1 := AddEndpoint(g, t.src);
    AddEndpointWf(g, t.src);
    var g2 := AddEndpoint(g1, t.dst);
    AddEndpointWf(g1, t.dst);
    LinkWf(g2, t);
  }

  // ---------------------------------------------------------------------
  // What the built graph holds

  /** The transactions between the endpoints of `p`, in row order: the
      reference the edge data is compared against. */
  function OnPair(txns: seq<TxnRow>, p: Pair): seq<EdgeTxn>
  {
    if txns == [] then []
    else
      var t := txns[|txns| - 1];
      OnPair(txns[..|txns| - 1], p) + (if PairOf(t.src, t.dst) == p then [TxnOf(t)] else [])
  }

  /** Sum of the signed amounts, accumulated in order. */
  function TotalAmount(ts: seq<EdgeTxn>): real
  {
    if ts == [] then 0.0 else TotalAmount(ts[..|ts| - 1]) + ts[|ts| - 1].amount
  }

  /** The edge record a sequence of transactions on one pair adds up to. */
  function Aggregate(ts: seq<EdgeTxn>): EdgeData {
    EdgeData(|ts|, TotalAmount(ts), ts)
  }

  /** The edge map holds one record per pair some row connects, and that
      record aggregates exactly the rows on the pair. */
  ghost predicate Aggregates(edges: map<Pair, EdgeData>, txns: seq<TxnRow>) {
    forall p ::
      && (p in edges <==> OnPair(txns, p) != [])
      && (p in edges ==> edges[p] == Aggregate(OnPair(txns, p)))
  }

  /** `after` is `before` with row `t` merged into its pair's record, or a
      fresh record for it. */
  ghost predicate Merged(before: map<Pair, EdgeData>, after: map<Pair, EdgeData>, t: TxnRow) {
    var p := PairOf(t.src, t.dst);
    && after.Keys == before.Keys + {p}
    && (forall q :: q in before && q != p ==> after[q] == before[q])
    && (p in before ==> after[p] == EdgeData(before[p].count + 1,
          before[p].totalAmount + t.amount, before[p].transactions + [TxnOf(t)]))
    && (p !in before ==> after[p] == EdgeData(1, t.amount, [TxnOf(t)]))
  }

  /** Adding a row merges it into the edge map. */
  lemma AddTxnMerged(g: Graph, t: TxnRow)
    requires Wf(g)
    ensures Merged(g.edges, AddTxn(g, t).edges, t)
  {
    var g1 := AddEndpoint(g, t.src);
    AddEndpointWf(g, t.src);
    var g2 := AddEndpoint(g1, t.dst);
    AddEndpointWf(g1, t.dst);
    assert AddTxn(g, t) == Link(g2, t);
  }

  /** The rows on a pair after one more row. */
  lemma OnPairSnoc(txns: seq<TxnRow>, t: TxnRow, p: Pair)
    ensures OnPair(txns + [t], p) == OnPair(txns, p) + (if PairOf(t.src, t.dst) == p then [TxnOf(t)] else [])
  {
    assert (txns + [t])[..|txns|] == txns;
  }

  /** Merging one more row keeps the record of pair `p` aggregated. */
  lemma MergedAt(before: map<Pair, EdgeData>, after: map<Pair, EdgeData>, txns: seq<TxnRow>, t: TxnRow, p: Pair)
    requires Merged(before, after, t)
    requires p in before <==> OnPair(txns, p) != []
    requires p in before ==> before[p] == Aggregate(OnPair(txns, p))
    ensures p in after <==> OnPair(txns + [t], p) != []
    ensures p in after ==> after[p] == Aggregate(OnPair(txns + [t], p))
  {
    OnPairSnoc(txns, t, p);
    var on := OnPair(txns, p);
    var q := PairOf(t.src, t.dst);
    assert p in after <==> p in before || p == q by {
      assert p in after.Keys <==> p in before.Keys + {q};
    }
    if p == q {
      if p in before {
        AggregateSnoc(before[p], on, TxnOf(t));
      } else {
        assert on == [];
        AggregateSingle(TxnOf(t));
      }
    } else {
      assert on + [] == on;
      if p in after {
        assert p in before;
        assert after[p] == before[p];
      }
    }
  }

  /** One more transaction on an aggregated pair. */
  lemma AggregateSnoc(e: EdgeData, ts: seq<EdgeTxn>, x: EdgeTxn)
    requires e == Aggregate(ts)
    ensures EdgeData(e.count + 1, e.totalAmount + x.amount, e.transactions + [x]) == Aggregate(ts + [x])
  {
    assert (ts + [x])[..|ts|] == ts;
  }

  /** The first transaction on a pair. */
  lemma AggregateSingle(x: EdgeTxn)
    ensures EdgeData(1, x.amount, [x]) == Aggregate([] + [x])
  {
    assert [] + [x] == [x];
    assert [x][..0] == [];
    assert TotalAmount([x]) == TotalAmount([]) + x.amount;
  }

  /** Starting from a graph without edges, an edge exists exactly for the
      endpoint pairs some transaction connects, and it holds those
      transactions in order, their number and their summed amount. */
  lemma {:induction false} EdgesAggregate(g: Graph, txns: seq<TxnRow>)
    requires Wf(g) && g.edges == map[]
    ensures Aggregates(AddTxns(g, txns).edges, txns)
  {
    if txns != [] {
      var init := txns[..|txns| - 1];
      var t := txns[|txns| - 1];
      EdgesAggregate(g, init);
      var prev := AddTxns(g, init);
      assert AddTxns(g, txns) == AddTxn(prev, t);
      AddTxnMerged(prev, t);
      AggregatesStep(prev.edges, AddTxns(g, txns).edges, txns);
    }
  }

  /** Merging one more row keeps the whole edge map aggregated. */
  lemma AggregatesStep(before: map<Pair, EdgeData>, after: map<Pair, EdgeData>, txns: seq<TxnRow>)
    requires txns != []
    requires Merged(before, after, txns[|txns| - 1])
    requires Aggregates(before, txns[..|txns| - 1])
    ensures Aggregates(after, txns)
  {
    var init := txns[..|txns| - 1];
    var t := txns[|txns| - 1];
    assert txns == init + [t];
    AggregatesSnoc(before, after, init, t);
  }

  lemma AggregatesSnoc(before: map<Pair, EdgeData>, after: map<Pair, EdgeData>, init: seq<TxnRow>, t: TxnRow)
    requires Merged(before, after, t)
    requires Aggregates(before, init)
    ensures Aggregates(after, init + [t])
  {
    forall p
      ensures p in after <==> OnPair(init + [t], p) != []
      ensures p in after ==> after[p] == Aggregate(OnPair(init + [t], p))
    {
      MergedAt(before, after, init, t, p);
    }
  }

  predicate IsUserId(users: seq<UserRow>, n: NodeId) {
    exists u :: u in users && u.userId == n
  }

  predicate IsEndpoint(txns: seq<TxnRow>, n: NodeId) {
    exists t :: t in txns && (t.src == n || t.dst == n)
  }

  /** The last user row for `n`, whose attributes the node ends up with. */
  function LastRow(users: seq<UserRow>, n: NodeId): (u: UserRow)
    requires IsUserId(users, n)
    ensures u in users && u.userId == n
  {
    var last := users[|users| - 1];
    if last.userId == n then last
    else
      assert users == users[..|users| - 1] + [last];
      assert IsUserId(users[..|users| - 1], n) by {
        var w :| w in users && w.userId == n;
        assert w in users[..|users| - 1];
      }
      LastRow(users[..|users| - 1], n)
  }

  function UserNodeOf(u: UserRow): Node { Node(UserNode, u.deviceId, u.ip, u.country) }

  /** After the user rows, the nodes are exactly the user ids, each with the
      attributes of its last row. */
  lemma {:induction false} UsersNodes(users: seq<UserRow>)
    ensures var g := AddUsers(EmptyGraph, users);
      && (forall n :: n in g.nodes <==> IsUserId(users, n))
      && (forall n :: n in g.nodes ==> g.nodes[n] == UserNodeOf(LastRow(users, n)))
  {
    if users != [] {
      var init := users[..|users| - 1];
      var u := users[|users| - 1];
      UsersNodes(init);
      assert users == init + [u];
      var prev := AddUsers(EmptyGraph, init);
      var g := AddUsers(EmptyGraph, users);
      assert g == AddUser(prev, u);
      UserIdSnoc(init, u);
      forall n | n in g.nodes ensures g.nodes[n] == UserNodeOf(LastRow(users, n)) {
        LastRowSnoc(init, u, n);
      }
    }
  }

  lemma UserIdSnoc(users: seq<UserRow>, u: UserRow)
    ensures forall n :: IsUserId(users + [u], n) <==> IsUserId(users, n) || n == u.userId
  {
    forall n | IsUserId(users + [u], n) && n != u.userId ensures IsUserId(users, n) {
      var w :| w in users + [u] && w.userId == n;
      assert w in users;
    }
    forall n | IsUserId(users, n) ensures IsUserId(users + [u], n) {
      var w :| w in users && w.userId == n;
      assert w in users + [u];
    }
    assert u in users + [u];
  }

  lemma LastRowSnoc(users: seq<UserRow>, u: UserRow, n: NodeId)
    requires IsUserId(users + [u], n)
    ensures n != u.userId ==> IsUserId(users, n)
    ensures LastRow(users + [u], n) == if n == u.userId then u else LastRow(users, n)
  {
    UserIdSnoc(users, u);
    assert (users + [u])[..|users|] == users;
  }

  /** One transaction row adds its endpoints, as account nodes, when they are
      not nodes yet. */
  lemma AddTxnNodes(g: Graph, t: TxnRow)
    requires Wf(g)
    ensures var r := AddTxn(g, t);
      && (forall n :: n in r.nodes <==> n in g.nodes || n == t.src || n == t.dst)
      && (forall n :: n in g.nodes ==> r.nodes[n] == g.nodes[n])
      && (forall n :: n in r.nodes && n !in g.nodes ==> r.nodes[n] == Node(AccountNode, "", "", ""))
  {
    var g1 := AddEndpoint(g, t.src);
    var g2 := AddEndpoint(g1, t.dst);
    assert AddTxn(g, t).nodes == g2.nodes;
    EndpointNodes(g, t.src);
    EndpointNodes(g1, t.dst);
  }

  /** An endpoint adds at most itself, as an account node. */
  lemma EndpointNodes(g: Graph, a: NodeId)
    ensures var r := AddEndpoint(g, a);
      && (forall n :: n in r.nodes <==> n in g.nodes || n == a)
      && (forall n :: n in g.nodes ==> r.nodes[n] == g.nodes[n])
      && (forall n :: n in r.nodes && n !in g.nodes ==> r.nodes[n] == Node(AccountNode, "", "", ""))
  {
  }

  /** Transaction rows add an account node for each endpoint not already a
      node and never change an existing node. */
  lemma {:induction false} TxnsNodes(g: Graph, txns: seq<TxnRow>)
    requires Wf(g)
    ensures var r := AddTxns(g, txns);
      && (forall n :: n in r.nodes <==> n in g.nodes || IsEndpoint(txns, n))
      && (forall n :: n in g.nodes ==> r.nodes[n] == g.nodes[n])
      && (forall n :: n in r.nodes && n !in g.nodes ==> r.nodes[n] == Node(AccountNode, "", "", ""))
  {
    if txns != [] {
      var init := txns[..|txns| - 1];
      var t := txns[|txns| - 1];
      TxnsNodes(g, init);
      assert txns == init + [t];
      var prev := AddTxns(g, init);
      var r := AddTxns(g, txns);
      assert r == AddTxn(prev, t);
      AddTxnNodes(prev, t);
      EndpointSnoc(init, t);
    }
  }

  /** The endpoints of one more row are the earlier ones and its own two. */
  lemma EndpointSnoc(txns: seq<TxnRow>, t: TxnRow)
    ensures forall n :: IsEndpoint(txns + [t], n) <==> IsEndpoint(txns, n) || n == t.src || n == t.dst
  {
    forall n | IsEndpoint(txns + [t], n) && n != t.src && n != t.dst ensures IsEndpoint(txns, n) {
      var w :| w in txns + [t] && (w.src == n || w.dst == n);
      assert w in txns;
    }
    forall n | IsEndpoint(txns, n) ensures IsEndpoint(txns + [t], n) {
      var w :| w in txns && (w.src == n || w.dst == n);
      assert w in txns + [t];
    }
    assert t in txns + [t];
  }

  /** The nodes of the built graph: the user ids, as user nodes carrying
      their last row's attributes, and every other transaction endpoint, as
      an account node without attributes. */
  lemma BuildNodes(users: seq<UserRow>, txns: seq<TxnRow>)
    ensures var g := Build(users, txns);
      && (forall n :: n in g.nodes <==> IsUserId(users, n) || IsEndpoint(txns, n))
      && (forall n :: IsUserId(users, n) ==> g.nodes[n] == UserNodeOf(LastRow(users, n)))
      && (forall n :: n in g.nodes && !IsUserId(users, n) ==> g.nodes[n] == Node(AccountNode, "", "", ""))
  {
    UsersNodes(users);
    TxnsNodes(AddUsers(EmptyGraph, users), txns);
  }

  /** Edge data of the built graph, in terms of the transaction rows. */
  lemma BuildEdges(users: seq<UserRow>, txns: seq<TxnRow>)
    ensures var g := Build(users, txns);
      && (forall p :: p in g.edges <==> OnPair(txns, p) != [])
      && (forall p :: p in g.edges ==> g.edges[p] == Aggregate(OnPair(txns, p)))
  {
    EdgesAggregate(AddUsers(EmptyGraph, users), txns);
  }

  /** A pair with transactions on it has a transaction row linking it. */
  lemma {:induction false} OnPairWitness(txns: seq<TxnRow>, p: Pair)
    requires OnPair(txns, p) != []
    ensures exists t :: t in txns && PairOf(t.src, t.dst) == p
  {
    var t := txns[|txns| - 1];
    if PairOf(t.src, t.dst) != p {
      OnPairWitness(txns[..|txns| - 1], p);
      var w :| w in txns[..|txns| - 1] && PairOf(w.src, w.dst) == p;
      assert w in txns;
    }
  }

  /** Every edge of a built graph joins two adjacent nodes. */
  lemma BuildEdgesWf(users: seq<UserRow>, txns: seq<TxnRow>)
    ensures EdgesWf(Build(users, txns))
  {
    var g := Build(users, txns);
    BuildEdges(users, txns);
    forall p | p in g.edges ensures exists a, b :: a in g.adj && b in g.adj[a] && p == PairOf(a, b) {
      OnPairWitness(txns, p);
      var t :| t in txns && PairOf(t.src, t.dst) == p;
      assert t.src in p;
      assert t.dst in g.adj[t.src];
    }
  }
}
