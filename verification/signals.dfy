/** The fraud-pattern detectors and the per-node risk score
    (backend/app/graph_analyzer.py, `_detect_*` and `_calculate_risk_scores`).
    Signals are kept per node, as the analyzer's dictionary of lists: a node
    that never received a signal reads as the empty list. */
module FraudSignals {
  import opened Wrappers
  import opened Seqs
  import opened Sorting
  import opened FraudGraph

  datatype Signal =
    | SharedDevice(device: string, relatedUsers: seq<NodeId>)
    | SharedIp(ip: string, relatedUsers: seq<NodeId>)
    | Structuring(transactionCount: nat, amounts: seq<real>)
    | CircularFlow(cycleLength: nat)

  datatype Severity = High | Medium

  /** A shared IP is the only medium-severity signal. */
  function SeverityOf(s: Signal): (r: Severity)
    ensures r == Medium <==> s.SharedIp?
  {
    if s.SharedIp? then Medium else High
  }

  type Signals = map<NodeId, seq<Signal>>

  /** `fraud_signals.get(n, [])`. */
  function SignalsAt(sigs: Signals, n: NodeId): seq<Signal> {
    if n in sigs then sigs[n] else []
  }

  // ---------------------------------------------------------------------
  // Shared device / shared IP

  /** Which user attribute a sharing detector groups by. */
  datatype Attr = DeviceAttr | IpAttr

  /** The grouping attribute of a user node; empty for accounts and unknown
      ids, which the detectors skip like an empty attribute. */
  function UserAttr(g: Graph, a: Attr, n: NodeId): string {
    if n in g.nodes && g.nodes[n].kind == UserNode then
      (match a case DeviceAttr => g.nodes[n].deviceId case IpAttr => g.nodes[n].ip)
    else ""
  }

  /** Holds of the user nodes whose attribute is the non-empty value `v`. */
  function SharesValue(g: Graph, a: Attr, v: string): NodeId -> bool {
    n => v != "" && UserAttr(g, a, n) == v
  }

  /** The users sharing value `v`, in node order: the reference for the
      grouping dictionary. */
  function Members(g: Graph, a: Attr, v: string): seq<NodeId> {
    Filter(g.order, SharesValue(g, a, v))
  }

  /** The `defaultdict(list)` built by walking the nodes in order and
      appending each user to the list of its non-empty attribute value. */
  function Groups(g: Graph, a: Attr, ns: seq<NodeId>): map<string, seq<NodeId>>
  {
    if ns == [] then map[]
    else
      var m := Groups(g, a, ns[..|ns| - 1]);
      var n := ns[|ns| - 1];
      var v := UserAttr(g, a, n);
      if v != "" then m[v := (if v in m then m[v] else []) + [n]] else m
  }

  /** A value has a group exactly when some walked user carries it, and the
      group lists those users in walk order. */
  lemma {:induction false} GroupsAreFilters(g: Graph, a: Attr, ns: seq<NodeId>)
    ensures forall v :: v in Groups(g, a, ns) <==> Filter(ns, SharesValue(g, a, v)) != []
    ensures forall v :: v in Groups(g, a, ns) ==> Groups(g, a, ns)[v] == Filter(ns, SharesValue(g, a, v))
  {
    if ns != [] {
      var init := ns[..|ns| - 1];
      var n := ns[|ns| - 1];
      GroupsAreFilters(g, a, init);
      forall v ensures v in Groups(g, a, ns) <==> Filter(ns, SharesValue(g, a, v)) != []
        ensures v in Groups(g, a, ns) ==> Groups(g, a, ns)[v] == Filter(ns, SharesValue(g, a, v))
      {
        GroupStep(g, a, ns, v);
      }
    }
  }

  /** One more walked node extends exactly the group of its own value. */
  lemma GroupStep(g: Graph, a: Attr, ns: seq<NodeId>, v: string)
    requires ns != []
    requires var init := ns[..|ns| - 1];
      && (v in Groups(g, a, init) <==> Filter(init, SharesValue(g, a, v)) != [])
      && (v in Groups(g, a, init) ==> Groups(g, a, init)[v] == Filter(init, SharesValue(g, a, v)))
    ensures v in Groups(g, a, ns) <==> Filter(ns, SharesValue(g, a, v)) != []
    ensures v in Groups(g, a, ns) ==> Groups(g, a, ns)[v] == Filter(ns, SharesValue(g, a, v))
  {
    var init := ns[..|ns| - 1];
    var n := ns[|ns| - 1];
    assert ns == init + [n];
    FilterSnoc(init, n, SharesValue(g, a, v));
    GroupsSnoc(g, a, ns, v);
  }

  /** The group of `v` after one more node: extended by that node when it
      carries `v`, otherwise unchanged. */
  lemma GroupsSnoc(g: Graph, a: Attr, ns: seq<NodeId>, v: string)
    requires ns != []
    ensures var m := Groups(g, a, ns[..|ns| - 1]);
      var n := ns[|ns| - 1];
      if UserAttr(g, a, n) == v && v != "" then
        v in Groups(g, a, ns) && Groups(g, a, ns)[v] == (if v in m then m[v] else []) + [n]
      else
        (v in Groups(g, a, ns) <==> v in m) && (v in m ==> Groups(g, a, ns)[v] == m[v])
  {
  }

  function MakeShared(a: Attr, v: string, related: seq<NodeId>): Signal {
    match a
    case DeviceAttr => SharedDevice(v, related)
    case IpAttr => SharedIp(v, related)
  }

  /** The signal a sharing detector gives node `n`, stated with the
      reference member list: one signal, naming the other members, when more
      than one user shares `n`'s value. */
  function ExpectedShared(g: Graph, a: Attr, n: NodeId): seq<Signal> {
    var v := UserAttr(g, a, n);
    var ms := Members(g, a, v);
    if v != "" && |ms| > 1 then [MakeShared(a, v, Filter(ms, Others(n)))] else []
  }

  /** `_detect_shared_devices` / `_detect_shared_ips`: group the users, then
      give every member of a group of two or more one signal. */
  function DetectShared(g: Graph, sigs: Signals, a: Attr): (r: Signals)
    ensures forall n :: SignalsAt(r, n) == SignalsAt(sigs, n) + ExpectedShared(g, a, n)
  {
    var groups := Groups(g, a, g.order);
    var r := map n | n in sigs.Keys + g.nodes.Keys :: SignalsAt(sigs, n) + SharedAt(groups, a, UserAttr(g, a, n), n);
    assert forall n :: SignalsAt(r, n) == SignalsAt(sigs, n) + ExpectedShared(g, a, n) by {
      forall n ensures SignalsAt(r, n) == SignalsAt(sigs, n) + ExpectedShared(g, a, n) {
        SharedAtExpected(g, a, n);
        if n !in r {
          assert SignalsAt(sigs, n) + ExpectedShared(g, a, n) == [];
        }
      }
    }
    r
  }

  /** The group found by walking the nodes gives the reference signal. */
  lemma SharedAtExpected(g: Graph, a: Attr, n: NodeId)
    ensures SharedAt(Groups(g, a, g.order), a, UserAttr(g, a, n), n) == ExpectedShared(g, a, n)
  {
    GroupsAreFilters(g, a, g.order);
  }

  function SharedAt(groups: map<string, seq<NodeId>>, a: Attr, v: string, n: NodeId): seq<Signal> {
    if v != "" && v in groups && |groups[v]| > 1 then [MakeShared(a, v, Filter(groups[v], Others(n)))] else []
  }

  /** A sharing signal names exactly the other users with the same value,
      and there is one fewer of them than members of the group. */
  lemma SharedRelated(g: Graph, a: Attr, n: NodeId)
    requires OrderWf(g)
    ensures var v := UserAttr(g, a, n);
      ExpectedShared(g, a, n) != [] <==> v != "" && |Members(g, a, v)| > 1
    ensures ExpectedShared(g, a, n) != [] ==>
      var v := UserAttr(g, a, n);
      var related := ExpectedShared(g, a, n)[0].relatedUsers;
      && |ExpectedShared(g, a, n)| == 1
      && (forall u :: u in related <==> u != n && u in g.nodes && UserAttr(g, a, u) == v)
      && |related| == |Members(g, a, v)| - 1
  {
    var v := UserAttr(g, a, n);
    if v != "" && |Members(g, a, v)| > 1 {
      OthersInGroup(g, a, v, n);
    }
  }

  /** The rest of `n`'s group: the other users with its value, one fewer
      than the group. */
  lemma OthersInGroup(g: Graph, a: Attr, v: string, n: NodeId)
    requires OrderWf(g) && v != "" && UserAttr(g, a, n) == v
    ensures var related := Filter(Members(g, a, v), Others(n));
      && (forall u :: u in related <==> u != n && u in g.nodes && UserAttr(g, a, u) == v)
      && |related| == |Members(g, a, v)| - 1
  {
    var ms := Members(g, a, v);
    FilterDistinct(g.order, SharesValue(g, a, v));
    assert n in ms by {
      assert n in g.nodes;
      assert n in g.order;
    }
    DropOne(ms, n);
  }

  // ---------------------------------------------------------------------
  // Structuring

  /** The transactions on the edges to each listed neighbour, in neighbour
      order. */
  function NeighbourTxns(g: Graph, n: NodeId, nbrs: seq<NodeId>): seq<EdgeTxn>
  {
    if nbrs == [] then []
    else
      var p := PairOf(n, nbrs[0]);
      (if p in g.edges then g.edges[p].transactions else []) + NeighbourTxns(g, n, nbrs[1..])
  }

  /** Every transaction on every edge at `n`, each edge once. */
  function IncidentTxns(g: Graph, n: NodeId): seq<EdgeTxn> {
    if n in g.adj then NeighbourTxns(g, n, g.adj[n]) else []
  }

  /** A transaction is on the edge to some neighbour exactly when it is
      gathered. */
  lemma {:induction false} NeighbourTxnsMembers(g: Graph, n: NodeId, nbrs: seq<NodeId>, t: EdgeTxn)
    ensures t in NeighbourTxns(g, n, nbrs) <==>
      exists m :: m in nbrs && PairOf(n, m) in g.edges && t in g.edges[PairOf(n, m)].transactions
  {
    if nbrs != [] {
      NeighbourTxnsMembers(g, n, nbrs[1..], t);
      if t in NeighbourTxns(g, n, nbrs[1..]) {
        var m :| m in nbrs[1..] && PairOf(n, m) in g.edges && t in g.edges[PairOf(n, m)].transactions;
        assert m in nbrs;
      }
    }
  }

  /** Ascending timestamp order, as a non-increasing key for the stable
      sort. */
  function ByTime(t: EdgeTxn): real { -(t.timestamp as real) }

  predicate IsSmall(t: EdgeTxn) { t.amount < 1000.0 }

  function AmountOf(t: EdgeTxn): real { t.amount }

  /** `_detect_structuring` for one node: an account with at least three
      transactions of which at least three are under 1000 gets one signal
      with the small-transaction count and the first five small amounts in
      time order. */
  function StructuringAt(g: Graph, n: NodeId): (r: seq<Signal>)
    ensures |r| <= 1
    ensures r != [] ==> r[0].Structuring? && r[0].transactionCount >= 3 && |r[0].amounts| <= 5
    ensures r != [] ==> forall x :: x in r[0].amounts ==> x < 1000.0
    ensures r != [] ==> forall x :: x in r[0].amounts ==>
      exists t :: t in IncidentTxns(g, n) && IsSmall(t) && t.amount == x
    ensures r != [] ==>
      r[0].amounts == MapSeq(Take(Filter(SortDesc(IncidentTxns(g, n), ByTime), IsSmall), 5), AmountOf)
  {
    if n in g.nodes && g.nodes[n].kind == AccountNode then
      var all := IncidentTxns(g, n);
      var small := Filter(SortDesc(all, ByTime), IsSmall);
      if |all| >= 3 && |small| >= 3 then
        var sample := Take(small, 5);
        var amounts := MapSeq(sample, AmountOf);
        SortDescMembers(all, ByTime);
        assert forall x :: x in amounts ==> exists t :: t in all && IsSmall(t) && t.amount == x by {
          forall x | x in amounts ensures exists t :: t in all && IsSmall(t) && t.amount == x {
            var i :| 0 <= i < |amounts| && amounts[i] == x;
            assert sample[i] == small[i] && small[i] in small;
          }
        }
        [Structuring(|small|, amounts)]
      else []
    else []
  }

  /** The structuring condition and count do not depend on the time sort:
      they are counts over the node's transactions. */
  lemma StructuringSpec(g: Graph, n: NodeId)
    ensures StructuringAt(g, n) != [] <==>
      n in g.nodes && g.nodes[n].kind == AccountNode && CountOf(IncidentTxns(g, n), IsSmall) >= 3
    ensures StructuringAt(g, n) != [] ==>
      var c := CountOf(IncidentTxns(g, n), IsSmall);
      && StructuringAt(g, n)[0].transactionCount == c
      && |StructuringAt(g, n)[0].amounts| == if c < 5 then c else 5
  {
    var all := IncidentTxns(g, n);
    var sorted := SortDesc(all, ByTime);
    CountOfPermutation(sorted, all, IsSmall);
    CountOfIsFilterLength(sorted, IsSmall);
  }

  // ---------------------------------------------------------------------
  // Circular flows

  predicate HasCircular(ss: seq<Signal>) {
    exists s :: s in ss && s.CircularFlow?
  }

  /** One long cycle: each of its nodes without a circular-flow signal yet
      gets one carrying the cycle's length. */
  function AddCycle(sigs: Signals, c: seq<NodeId>, len: nat): (r: Signals)
    decreases |c|
    ensures forall n ::
      SignalsAt(r, n) == SignalsAt(sigs, n) + (if n in c && !HasCircular(SignalsAt(sigs, n)) then [CircularFlow(len)] else [])
  {
    if c == [] then sigs
    else
      var n := c[0];
      var cur := SignalsAt(sigs, n);
      var next := if HasCircular(cur) then sigs else sigs[n := cur + [CircularFlow(len)]];
      assert HasCircular(SignalsAt(next, n)) by {
        if !HasCircular(cur) {
          assert CircularFlow(len) in SignalsAt(next, n);
        }
      }
      assert c == [n] + c[1..];
      AddCycle(next, c[1..], len)
  }

  /** The first cycle of length three or more through `n`, if any. */
  function FirstLongCycle(cycles: seq<seq<NodeId>>, n: NodeId): (r: Option<seq<NodeId>>)
    ensures r.Some? ==> r.value in cycles && n in r.value && |r.value| >= 3
  {
    if cycles == [] then None
    else if |cycles[0]| >= 3 && n in cycles[0] then Some(cycles[0])
    else FirstLongCycle(cycles[1..], n)
  }

  /** There is no first long cycle through `n` exactly when every cycle
      through `n` is shorter than three. */
  lemma {:induction false} FirstLongCycleNone(cycles: seq<seq<NodeId>>, n: NodeId)
    ensures FirstLongCycle(cycles, n).None? <==> forall c :: c in cycles && n in c ==> |c| < 3
  {
    if cycles != [] {
      FirstLongCycleNone(cycles[1..], n);
      assert cycles == [cycles[0]] + cycles[1..];
    }
  }

  /** `_detect_circular_flows` over the enumerated simple cycles: cycles of
      length three or more, in order, each adding its length to those of
      its nodes that have no circular-flow signal yet. */
  function DetectCircular(sigs: Signals, cycles: seq<seq<NodeId>>): Signals
    decreases |cycles|
  {
    if cycles == [] then sigs
    else
      var c := cycles[0];
      DetectCircular(if |c| >= 3 then AddCycle(sigs, c, |c|) else sigs, cycles[1..])
  }

  /** The first long cycle through a node decides its cycle length; a node
      already flagged keeps its signals. */
  lemma {:induction false} CircularFirstWins(sigs: Signals, cycles: seq<seq<NodeId>>, n: NodeId)
    ensures var before := SignalsAt(sigs, n);
      SignalsAt(DetectCircular(sigs, cycles), n) == before +
        (match FirstLongCycle(cycles, n)
         case Some(c) => if HasCircular(before) then [] else [CircularFlow(|c|)]
         case None => [])
    decreases |cycles|
  {
    if cycles != [] {
      var c := cycles[0];
      var next := if |c| >= 3 then AddCycle(sigs, c, |c|) else sigs;
      assert DetectCircular(sigs, cycles) == DetectCircular(next, cycles[1..]);
      CircularFirstWins(next, cycles[1..], n);
      var before := SignalsAt(sigs, n);
      if |c| >= 3 && n in c {
        assert FirstLongCycle(cycles, n) == Some(c);
        if !HasCircular(before) {
          assert SignalsAt(next, n) == before + [CircularFlow(|c|)];
          assert CircularFlow(|c|) in SignalsAt(next, n);
        }
        assert HasCircular(SignalsAt(next, n));
      } else {
        assert FirstLongCycle(cycles, n) == FirstLongCycle(cycles[1..], n);
        assert SignalsAt(next, n) == before;
      }
    }
  }

  // ---------------------------------------------------------------------
  // All detectors

  /** `_detect_structuring`: each node gains its structuring signal, if
      any. */
  function DetectStructuring(g: Graph, sigs: Signals): (r: Signals)
    ensures forall n :: SignalsAt(r, n) == SignalsAt(sigs, n) + StructuringAt(g, n)
  {
    map n | n in sigs.Keys + g.nodes.Keys :: SignalsAt(sigs, n) + StructuringAt(g, n)
  }

  /** The four detectors in the analyzer's order, starting from no signals. */
  function DetectAll(g: Graph, cycles: seq<seq<NodeId>>): Signals {
    DetectCircular(EarlySignals(g), cycles)
  }

  /** The circular-flow signal a node ends with. */
  function CircularAt(cycles: seq<seq<NodeId>>, n: NodeId): seq<Signal> {
    match FirstLongCycle(cycles, n)
    case Some(c) => [CircularFlow(|c|)]
    case None => []
  }

  /** The signals of the three detectors before the circular-flow one. */
  function EarlySignals(g: Graph): Signals {
    DetectStructuring(g, DetectShared(g, DetectShared(g, map[], DeviceAttr), IpAttr))
  }

  lemma EarlySignalsAt(g: Graph, n: NodeId)
    ensures SignalsAt(EarlySignals(g), n)
      == ExpectedShared(g, DeviceAttr, n) + ExpectedShared(g, IpAttr, n) + StructuringAt(g, n)
    ensures !HasCircular(SignalsAt(EarlySignals(g), n))
  {
    var s1 := DetectShared(g, map[], DeviceAttr);
    var s2 := DetectShared(g, s1, IpAttr);
    var before := SignalsAt(EarlySignals(g), n);
    assert SignalsAt(s1, n) == ExpectedShared(g, DeviceAttr, n);
    assert SignalsAt(s2, n) == SignalsAt(s1, n) + ExpectedShared(g, IpAttr, n);
    assert before == SignalsAt(s2, n) + StructuringAt(g, n);
    forall s | s in before ensures !s.CircularFlow? {
      NotCircular(g, n, s);
    }
  }

  /** A node's signals: its shared-device, shared-IP, structuring and
      circular-flow signals, each at most once and in that order. */
  lemma NodeSignals(g: Graph, cycles: seq<seq<NodeId>>, n: NodeId)
    ensures SignalsAt(DetectAll(g, cycles), n) ==
      ExpectedShared(g, DeviceAttr, n) + ExpectedShared(g, IpAttr, n) + StructuringAt(g, n) + CircularAt(cycles, n)
  {
    EarlySignalsAt(g, n);
    CircularFirstWins(EarlySignals(g), cycles, n);
  }

  lemma NotCircular(g: Graph, n: NodeId, s: Signal)
    requires s in ExpectedShared(g, DeviceAttr, n) + ExpectedShared(g, IpAttr, n) + StructuringAt(g, n)
    ensures !s.CircularFlow?
  {
  }

  predicate IsCircularSignal(s: Signal) { s.CircularFlow? }

  /** A node ends with exactly one circular-flow signal when some cycle of
      length three or more passes through it, and with none otherwise. */
  lemma CircularExactlyOnce(g: Graph, cycles: seq<seq<NodeId>>, n: NodeId)
    ensures CountOf(SignalsAt(DetectAll(g, cycles), n), IsCircularSignal)
      == if exists c :: c in cycles && n in c && |c| >= 3 then 1 else 0
  {
    NodeSignals(g, cycles, n);
    var early := ExpectedShared(g, DeviceAttr, n) + ExpectedShared(g, IpAttr, n) + StructuringAt(g, n);
    CountOfAppend(early, CircularAt(cycles, n), IsCircularSignal);
    EarlyNotCircular(g, n);
    CircularAtCount(cycles, n);
  }

  /** The three earlier detectors give no circular-flow signal. */
  lemma EarlyNotCircular(g: Graph, n: NodeId)
    ensures CountOf(ExpectedShared(g, DeviceAttr, n) + ExpectedShared(g, IpAttr, n) + StructuringAt(g, n),
                    IsCircularSignal) == 0
  {
    var early := ExpectedShared(g, DeviceAttr, n) + ExpectedShared(g, IpAttr, n) + StructuringAt(g, n);
    forall s | s in early ensures !IsCircularSignal(s) {
      NotCircular(g, n, s);
    }
    CountOfZero(early, IsCircularSignal);
  }

  /** The circular-flow detector gives a node one signal exactly when a long
      cycle passes through it. */
  lemma CircularAtCount(cycles: seq<seq<NodeId>>, n: NodeId)
    ensures CountOf(CircularAt(cycles, n), IsCircularSignal)
      == if exists c :: c in cycles && n in c && |c| >= 3 then 1 else 0
  {
    FirstLongCycleNone(cycles, n);
    if FirstLongCycle(cycles, n).Some? {
      assert CircularAt(cycles, n) == [CircularFlow(|FirstLongCycle(cycles, n).value|)];
    }
  }

  // ---------------------------------------------------------------------
  // Risk score

  function Weight(s: Signal): real {
    match s
    case SharedDevice(_, _) => 3.0
    case SharedIp(_, _) => 1.5
    case Structuring(_, _) => 3.5
    case CircularFlow(_) => 2.5
  }

  /** Every signal weighs between 1.5 and 3.5, so a sum is at least 1.5 per
      signal and at most 3.5 per signal. */
  lemma {:induction false} WeightSumBounds(ss: seq<Signal>)
    ensures 1.5 * |ss| as real <= SumOf(ss, Weight) <= 3.5 * |ss| as real
  {
    if ss != [] {
      WeightSumBounds(ss[1..]);
    }
  }

  const CentralityDegree: nat := 5
  const MaxRisk: real := 10.0

  /** `_calculate_risk_scores` for one node: 0 without signals, otherwise
      the signal weights plus 1 for a degree above 5, capped at 10. */
  function RiskScore(g: Graph, sigs: Signals, n: NodeId): (r: real)
    ensures 0.0 <= r <= MaxRisk
    ensures r == 0.0 <==> SignalsAt(sigs, n) == []
  {
    var ss := SignalsAt(sigs, n);
    if ss == [] then 0.0
    else
      WeightSumBounds(ss);
      var score := SumOf(ss, Weight) + (if Degree(g, n) > CentralityDegree then 1.0 else 0.0);
      if score < MaxRisk then score else MaxRisk
  }

  /** More signals never lower a score. */
  lemma RiskMonotone(g: Graph, sigs: Signals, more: Signals, n: NodeId, extra: seq<Signal>)
    requires SignalsAt(more, n) == SignalsAt(sigs, n) + extra
    ensures RiskScore(g, sigs, n) <= RiskScore(g, more, n)
  {
    var ss := SignalsAt(sigs, n);
    SumOfAppend(ss, extra, Weight);
    WeightSumBounds(extra);
    WeightSumBounds(ss);
  }

  /** A single signal scores at most 4.5, so high risk (above 5) takes at
      least two signals. */
  lemma HighRiskNeedsTwoSignals(g: Graph, sigs: Signals, n: NodeId)
    ensures RiskScore(g, sigs, n) > 5.0 ==> |SignalsAt(sigs, n)| >= 2
  {
    WeightSumBounds(SignalsAt(sigs, n));
  }

  /** The detectors' signals never reach the cap: sharing signals go only to
      users and structuring signals only to accounts, so a user scores at
      most 3 + 1.5 + 2.5 + 1 = 8 and any other node at most
      3.5 + 2.5 + 1 = 7. */
  lemma DetectedRiskBound(g: Graph, cycles: seq<seq<NodeId>>, n: NodeId)
    ensures RiskScore(g, DetectAll(g, cycles), n) <= 8.0
    ensures !(n in g.nodes && g.nodes[n].kind == UserNode) ==> RiskScore(g, DetectAll(g, cycles), n) <= 7.0
  {
    NodeSignals(g, cycles, n);
    SharedPart(g, DeviceAttr, n);
    SharedPart(g, IpAttr, n);
    StructuringPart(g, n);
    CircularPart(cycles, n);
    PartsWeight(ExpectedShared(g, DeviceAttr, n), ExpectedShared(g, IpAttr, n), StructuringAt(g, n),
                CircularAt(cycles, n), n in g.nodes && g.nodes[n].kind == UserNode);
    RiskAtMostWeights(g, DetectAll(g, cycles), n);
  }

  /** A score is at most the signal weights plus the degree point. */
  lemma RiskAtMostWeights(g: Graph, sigs: Signals, n: NodeId)
    ensures RiskScore(g, sigs, n) <= SumOf(SignalsAt(sigs, n), Weight) + 1.0
  {
  }

  /** At most one signal, of weight `w`. */
  predicate PartOf(ss: seq<Signal>, w: real) {
    |ss| <= 1 && forall x :: x in ss ==> Weight(x) == w
  }

  /** A sharing detector gives at most one signal, and only to a user. */
  lemma SharedPart(g: Graph, a: Attr, n: NodeId)
    ensures PartOf(ExpectedShared(g, a, n), if a == DeviceAttr then 3.0 else 1.5)
    ensures ExpectedShared(g, a, n) != [] ==> n in g.nodes && g.nodes[n].kind == UserNode
  {
  }

  /** The structuring detector gives at most one signal, and only to an
      account. */
  lemma StructuringPart(g: Graph, n: NodeId)
    ensures PartOf(StructuringAt(g, n), 3.5)
    ensures StructuringAt(g, n) != [] ==> n in g.nodes && g.nodes[n].kind == AccountNode
  {
  }

  lemma CircularPart(cycles: seq<seq<NodeId>>, n: NodeId)
    ensures PartOf(CircularAt(cycles, n), 2.5)
  {
  }

  /** The four detectors' parts at one node weigh at most 7 for a user, whose
      structuring part is empty, and at most 6 for any other node, whose
      sharing parts are empty. */
  lemma PartsWeight(d: seq<Signal>, i: seq<Signal>, s: seq<Signal>, c: seq<Signal>, isUser: bool)
    requires PartOf(d, 3.0) && PartOf(i, 1.5) && PartOf(s, 3.5) && PartOf(c, 2.5)
    requires isUser ==> s == []
    requires !isUser ==> d == [] && i == []
    ensures SumOf(d + i + s + c, Weight) <= if isUser then 7.0 else 6.0
  {
    SumOfAppend(d, i, Weight);
    SumOfAppend(d + i, s, Weight);
    SumOfAppend(d + i + s, c, Weight);
    SumOfPart(d, 3.0);
    SumOfPart(i, 1.5);
    SumOfPart(s, 3.5);
    SumOfPart(c, 2.5);
  }

  /** The weight of a part is that of its signal, if any. */
  lemma SumOfPart(ss: seq<Signal>, w: real)
    requires PartOf(ss, w)
    ensures SumOf(ss, Weight) == if ss == [] then 0.0 else w
  {
    if ss != [] {
      assert ss[0] in ss;
      assert ss[1..] == [];
    }
  }
}
