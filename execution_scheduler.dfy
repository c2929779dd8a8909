/**
 * The intelligent scheduler: turning the analyzer's levels into execution
 * batches by execution mode, and the resource usage each batch declares.
 */
module ExecutionScheduler {
  import opened Seqs
  import opened Text
  import opened OrderedMaps
  import opened ExecutionEngines

  // ---------------------------------------------------------------------
  // Batch contents
  // ---------------------------------------------------------------------

  /** The longest duration among the nodes (`max(...)` of a non-empty list). */
  function MaxDuration(nodes: seq<Node>): (r: real)
    requires |nodes| > 0
    ensures forall i :: 0 <= i < |nodes| ==> nodes[i].duration <= r
    ensures exists i :: 0 <= i < |nodes| && nodes[i].duration == r
  {
    if |nodes| == 1 then nodes[0].duration
    else
      var front := MaxDuration(nodes[..|nodes| - 1]);
      assert forall i :: 0 <= i < |nodes| - 1 ==> nodes[..|nodes| - 1][i] == nodes[i];
      Max(front, nodes[|nodes| - 1].duration)
  }

  /** The nodes of the named tools, in order. */
  function NodesOf(g: ExecGraph, names: seq<string>): (r: seq<Node>)
    requires forall n :: n in names ==> n in g.m
    ensures |r| == |names| && forall i :: 0 <= i < |names| ==> r[i] == g.m[names[i]]
  {
    seq(|names|, i requires 0 <= i < |names| => g.m[names[i]])
  }

  /** The nodes of all batches, one batch after the other. */
  function AllNodes(batches: seq<Batch>): seq<Node>
  {
    if |batches| == 0 then [] else AllNodes(batches[..|batches| - 1]) + batches[|batches| - 1].nodes
  }

  lemma AllNodesAppend(a: seq<Batch>, b: seq<Batch>)
    ensures AllNodes(a + b) == AllNodes(a) + AllNodes(b)
    decreases |b|
  {
    if |b| == 0 {
      assert a + b == a;
    } else {
      assert (a + b)[..|a + b| - 1] == a + b[..|b| - 1];
      AllNodesAppend(a, b[..|b| - 1]);
    }
  }

  /** A batch of one node, run on its own: the `idx`th of a run of such batches. */
  function Single(prefix: string, idx: nat, node: Node): Batch
  {
    Batch(prefix + NatToString(idx), [node], node.duration, map[], false)
  }

  /** One batch per node, numbered from zero. */
  function Singles(prefix: string, nodes: seq<Node>): (r: seq<Batch>)
    ensures |r| == |nodes|
  {
    seq(|nodes|, i requires 0 <= i < |nodes| => Single(prefix, i, nodes[i]))
  }

  lemma SinglesSnoc(prefix: string, nodes: seq<Node>, j: int)
    requires 0 <= j < |nodes|
    ensures Singles(prefix, nodes[..j + 1]) == Singles(prefix, nodes[..j]) + [Single(prefix, j, nodes[j])]
  {
  }

  /** Each single batch holds one node and runs it alone; together they hold the nodes in order. */
  lemma {:induction false} SinglesFacts(prefix: string, nodes: seq<Node>)
    ensures forall b :: b in Singles(prefix, nodes) ==> |b.nodes| == 1 && !b.canParallel && b.totalTime == b.nodes[0].duration
    ensures AllNodes(Singles(prefix, nodes)) == nodes
  {
    if |nodes| > 0 {
      var front := nodes[..|nodes| - 1];
      SinglesFacts(prefix, front);
      SinglesSnoc(prefix, nodes, |nodes| - 1);
      assert nodes[..|nodes|] == nodes;
      assert Singles(prefix, nodes)[..|nodes| - 1] == Singles(prefix, front);
    }
  }

  // ---------------------------------------------------------------------
  // _create_adaptive_batches
  // ---------------------------------------------------------------------

  /** The adaptive scheduler's three groups. */
  datatype Kind = HighFast | HighSlow | LowPriority

  /** Urgent nodes of at most ten seconds are fast, longer ones slow; the rest are low priority. */
  function KindOf(n: Node): Kind
  {
    if IsHigh(n.priority) then (if n.duration <= 10.0 then HighFast else HighSlow) else LowPriority
  }

  /** The nodes of one kind, in order. */
  function Select(nodes: seq<Node>, k: Kind): seq<Node>
  {
    if |nodes| == 0 then []
    else
      var n := nodes[|nodes| - 1];
      Select(nodes[..|nodes| - 1], k) + (if KindOf(n) == k then [n] else [])
  }

  /** The selected nodes are all of the kind asked for. */
  lemma {:induction false} SelectKind(nodes: seq<Node>, k: Kind)
    ensures forall n :: n in Select(nodes, k) ==> KindOf(n) == k
  {
    if |nodes| > 0 {
      SelectKind(nodes[..|nodes| - 1], k);
    }
  }

  /** The three kinds split the nodes: each node lands in exactly one of them. */
  lemma {:induction false} SelectPartition(nodes: seq<Node>)
    ensures multiset(Select(nodes, HighFast)) + multiset(Select(nodes, HighSlow)) + multiset(Select(nodes, LowPriority)) == multiset(nodes)
  {
    if |nodes| > 0 {
      var front := nodes[..|nodes| - 1];
      var n := nodes[|nodes| - 1];
      SelectPartition(front);
      assert multiset(nodes) == multiset(front) + multiset{n} by {
        assert nodes == front + [n];
      }
      SelectStep(nodes);
    }
  }

  /** Appending a node adds it to the selection of its own kind only. */
  lemma SelectStep(nodes: seq<Node>)
    requires |nodes| > 0
    ensures var front := nodes[..|nodes| - 1];
      multiset(Select(nodes, HighFast)) + multiset(Select(nodes, HighSlow)) + multiset(Select(nodes, LowPriority))
      == multiset(Select(front, HighFast)) + multiset(Select(front, HighSlow)) + multiset(Select(front, LowPriority)) + multiset{nodes[|nodes| - 1]}
  {
    var front := nodes[..|nodes| - 1];
    var n := nodes[|nodes| - 1];
    var fast, slow, low := Select(front, HighFast), Select(front, HighSlow), Select(front, LowPriority);
    match KindOf(n) {
      case HighFast =>
        assert Select(nodes, HighFast) == fast + [n] && Select(nodes, HighSlow) == slow && Select(nodes, LowPriority) == low;
      case HighSlow =>
        assert Select(nodes, HighFast) == fast && Select(nodes, HighSlow) == slow + [n] && Select(nodes, LowPriority) == low;
      case LowPriority =>
        assert Select(nodes, HighFast) == fast && Select(nodes, HighSlow) == slow && Select(nodes, LowPriority) == low + [n];
    }
  }

  /**
   * The adaptive batches of one level: the high-fast nodes in one parallel
   * batch, each high-slow node in a batch of its own, and the low priority
   * nodes in one parallel batch, each batch only when it has nodes.
   */
  function AdaptiveBatches(nodes: seq<Node>, level: nat): seq<Batch>
  {
    var l := NatToString(level);
    var fast := Select(nodes, HighFast);
    var slow := Select(nodes, HighSlow);
    var low := Select(nodes, LowPriority);
    (if fast != [] then [Batch("adaptive_high_fast_level_" + l, fast, MaxDuration(fast), map[], true)] else [])
    + Singles("adaptive_high_slow_level_" + l + "_node_", slow)
    + (if low != [] then [Batch("adaptive_low_level_" + l, low, MaxDuration(low), map[], true)] else [])
  }

  function FastBatch(nodes: seq<Node>, level: nat): seq<Batch>
  {
    var fast := Select(nodes, HighFast);
    if fast != [] then [Batch("adaptive_high_fast_level_" + NatToString(level), fast, MaxDuration(fast), map[], true)] else []
  }

  function SlowBatches(nodes: seq<Node>, level: nat): seq<Batch>
  {
    Singles("adaptive_high_slow_level_" + NatToString(level) + "_node_", Select(nodes, HighSlow))
  }

  function LowBatch(nodes: seq<Node>, level: nat): seq<Batch>
  {
    var low := Select(nodes, LowPriority);
    if low != [] then [Batch("adaptive_low_level_" + NatToString(level), low, MaxDuration(low), map[], true)] else []
  }

  lemma AdaptiveParts(nodes: seq<Node>, level: nat)
    ensures AdaptiveBatches(nodes, level) == FastBatch(nodes, level) + SlowBatches(nodes, level) + LowBatch(nodes, level)
  {
  }

  /** A batch holding a non-empty run of nodes of one kind, or nothing. */
  lemma OneBatch(bs: seq<Batch>, nodes: seq<Node>)
    requires bs == [] || (|bs| == 1 && bs[0].nodes == nodes && nodes != [])
    requires bs == [] ==> nodes == []
    ensures AllNodes(bs) == nodes
    ensures forall b :: b in bs ==> b.nodes == nodes && nodes != []
  {
    if bs != [] {
      assert bs[..0] == [];
    }
  }

  /** Every node of the level is in exactly one adaptive batch. */
  lemma AdaptiveCover(nodes: seq<Node>, level: nat)
    ensures multiset(AllNodes(AdaptiveBatches(nodes, level))) == multiset(nodes)
  {
    var fb := FastBatch(nodes, level);
    var sb := SlowBatches(nodes, level);
    var lb := LowBatch(nodes, level);
    AdaptiveParts(nodes, level);
    AllNodesAppend(fb + sb, lb);
    AllNodesAppend(fb, sb);
    SinglesFacts("adaptive_high_slow_level_" + NatToString(level) + "_node_", Select(nodes, HighSlow));
    OneBatch(fb, Select(nodes, HighFast));
    OneBatch(lb, Select(nodes, LowPriority));
    SelectPartition(nodes);
  }

  lemma FastShape(nodes: seq<Node>, level: nat)
    ensures forall b :: b in FastBatch(nodes, level) ==> b.canParallel && b.nodes != [] && forall n :: n in b.nodes ==> KindOf(n) == HighFast
  {
    SelectKind(nodes, HighFast);
  }

  lemma LowShape(nodes: seq<Node>, level: nat)
    ensures forall b :: b in LowBatch(nodes, level) ==> b.canParallel && b.nodes != [] && forall n :: n in b.nodes ==> KindOf(n) == LowPriority
  {
    SelectKind(nodes, LowPriority);
  }

  lemma SlowShape(nodes: seq<Node>, level: nat)
    ensures forall b :: b in SlowBatches(nodes, level) ==> |b.nodes| == 1 && !b.canParallel && KindOf(b.nodes[0]) == HighSlow
  {
    var slow := Select(nodes, HighSlow);
    var sb := SlowBatches(nodes, level);
    SelectKind(nodes, HighSlow);
    forall b | b in sb
      ensures |b.nodes| == 1 && !b.canParallel && KindOf(b.nodes[0]) == HighSlow
    {
      var i :| 0 <= i < |sb| && sb[i] == b;
      assert b.nodes[0] == slow[i] && slow[i] in slow;
    }
  }

  /**
   * Every adaptive batch is non-empty; a parallel one holds nodes of a
   * single kind, and a node runs alone exactly when it is urgent and slow.
   */
  lemma AdaptiveShape(nodes: seq<Node>, level: nat)
    ensures forall b :: b in AdaptiveBatches(nodes, level) ==> b.nodes != []
    ensures forall b :: b in AdaptiveBatches(nodes, level) && b.canParallel ==>
      (forall n :: n in b.nodes ==> KindOf(n) == HighFast) || (forall n :: n in b.nodes ==> KindOf(n) == LowPriority)
    ensures forall b :: b in AdaptiveBatches(nodes, level) && !b.canParallel ==> |b.nodes| == 1 && KindOf(b.nodes[0]) == HighSlow
  {
    var fb, sb, lb := FastBatch(nodes, level), SlowBatches(nodes, level), LowBatch(nodes, level);
    AdaptiveParts(nodes, level);
    FastShape(nodes, level);
    SlowShape(nodes, level);
    LowShape(nodes, level);
    assert forall b :: b in fb + sb + lb ==> b in fb || b in sb || b in lb;
  }

  // ---------------------------------------------------------------------
  // create_execution_batches
  // ---------------------------------------------------------------------

  /** The batches of one non-empty level, by execution mode; pipeline and cascade modes batch adaptively. */
  function LevelBatches(nodes: seq<Node>, level: nat, mode: Mode): seq<Batch>
    requires |nodes| > 0
  {
    match mode
    case Parallel => [Batch("parallel_batch_level_" + NatToString(level), nodes, MaxDuration(nodes), map[], true)]
    case Sequential => Singles("sequential_batch_level_" + NatToString(level) + "_node_", nodes)
    case _ => AdaptiveBatches(nodes, level)
  }

  /** The batches before their usage is computed: each non-empty level in turn, levels numbered from zero. */
  function Planned(g: ExecGraph, groups: seq<seq<string>>, mode: Mode): seq<Batch>
    requires Named(g, groups)
  {
    if |groups| == 0 then []
    else
      var last := groups[|groups| - 1];
      Planned(g, groups[..|groups| - 1], mode)
      + (if last == [] then [] else LevelBatches(NodesOf(g, last), |groups| - 1, mode))
  }

  /** Every tool named in the levels has a node in the graph. */
  ghost predicate Named(g: ExecGraph, groups: seq<seq<string>>)
  {
    forall l, k :: 0 <= l < |groups| && 0 <= k < |groups[l]| ==> groups[l][k] in g.m
  }

  lemma NamedPrefix(g: ExecGraph, groups: seq<seq<string>>, i: int)
    requires Named(g, groups) && 0 <= i <= |groups|
    ensures Named(g, groups[..i])
    ensures i < |groups| ==> forall n :: n in groups[i] ==> n in g.m
  {
    assert forall l :: 0 <= l < i ==> groups[..i][l] == groups[l];
  }

  /** `create_execution_batches`: the planned batches, each given its resource usage. */
  function Batches(g: ExecGraph, groups: seq<seq<string>>, mode: Mode): seq<Batch>
    requires Named(g, groups)
  {
    WithUsage(Planned(g, groups, mode))
  }

  function WithUsage(batches: seq<Batch>): (r: seq<Batch>)
    ensures |r| == |batches|
  {
    seq(|batches|, i requires 0 <= i < |batches| => batches[i].(usage := BatchUsage(batches[i])))
  }

  /** The number of non-empty levels. */
  function NonEmpty(groups: seq<seq<string>>): nat
  {
    if |groups| == 0 then 0 else NonEmpty(groups[..|groups| - 1]) + (if groups[|groups| - 1] == [] then 0 else 1)
  }

  /** The tools of all levels, as nodes. */
  function LevelNodes(g: ExecGraph, groups: seq<seq<string>>): seq<Node>
    requires Named(g, groups)
  {
    if |groups| == 0 then []
    else
      var last := groups[|groups| - 1];
      LevelNodes(g, groups[..|groups| - 1]) + NodesOf(g, last)
  }

  /** The batches of one level hold its nodes exactly once, none of them empty. */
  lemma LevelBatchesCover(nodes: seq<Node>, level: nat, mode: Mode)
    requires |nodes| > 0
    ensures multiset(AllNodes(LevelBatches(nodes, level, mode))) == multiset(nodes)
    ensures forall b :: b in LevelBatches(nodes, level, mode) ==> b.nodes != []
  {
    var lb := LevelBatches(nodes, level, mode);
    match mode {
      case Parallel =>
        assert lb[..0] == [];
      case Sequential =>
        SinglesFacts("sequential_batch_level_" + NatToString(level) + "_node_", nodes);
      case _ =>
        AdaptiveCover(nodes, level);
        AdaptiveShape(nodes, level);
    }
  }

  /** Whatever the mode, the batches hold every node of every level exactly once, and no batch is empty. */
  lemma {:induction false} BatchesCoverLevels(g: ExecGraph, groups: seq<seq<string>>, mode: Mode)
    requires Named(g, groups)
    ensures multiset(AllNodes(Planned(g, groups, mode))) == multiset(LevelNodes(g, groups))
    ensures forall b :: b in Planned(g, groups, mode) ==> b.nodes != []
  {
    if |groups| > 0 {
      var front := groups[..|groups| - 1];
      var last := groups[|groups| - 1];
      BatchesCoverLevels(g, front, mode);
      if last != [] {
        var nodes := NodesOf(g, last);
        var lb := LevelBatches(nodes, |groups| - 1, mode);
        AllNodesAppend(Planned(g, front, mode), lb);
        LevelBatchesCover(nodes, |groups| - 1, mode);
      } else {
        assert NodesOf(g, last) == [];
        assert Planned(g, groups, mode) == Planned(g, front, mode);
      }
    }
  }

  /** In sequential mode every batch runs exactly one node on its own, so there is one batch per node. */
  lemma {:induction false} SequentialOnePerNode(g: ExecGraph, groups: seq<seq<string>>)
    requires Named(g, groups)
    ensures forall b :: b in Planned(g, groups, Sequential) ==> |b.nodes| == 1 && !b.canParallel
    ensures AllNodes(Planned(g, groups, Sequential)) == LevelNodes(g, groups)
    ensures |Planned(g, groups, Sequential)| == |LevelNodes(g, groups)|
  {
    if |groups| > 0 {
      var front := groups[..|groups| - 1];
      var last := groups[|groups| - 1];
      SequentialOnePerNode(g, front);
      var nodes := NodesOf(g, last);
      if last != [] {
        var p := "sequential_batch_level_" + NatToString(|groups| - 1) + "_node_";
        SinglesFacts(p, nodes);
        AllNodesAppend(Planned(g, front, Sequential), Singles(p, nodes));
      } else {
        assert nodes == [] && LevelNodes(g, groups) == LevelNodes(g, front) + nodes;
        assert LevelNodes(g, front) + nodes == LevelNodes(g, front);
        assert Planned(g, groups, Sequential) == Planned(g, front, Sequential) + [];
        assert Planned(g, front, Sequential) + [] == Planned(g, front, Sequential);
      }
    }
  }

  /** In parallel mode each non-empty level is one parallel batch, timed by its slowest node. */
  lemma {:induction false} ParallelOnePerLevel(g: ExecGraph, groups: seq<seq<string>>)
    requires Named(g, groups)
    ensures |Planned(g, groups, Parallel)| == NonEmpty(groups)
    ensures forall b :: b in Planned(g, groups, Parallel) ==> b.canParallel && b.nodes != [] && b.totalTime == MaxDuration(b.nodes)
    ensures AllNodes(Planned(g, groups, Parallel)) == LevelNodes(g, groups)
  {
    if |groups| > 0 {
      var front := groups[..|groups| - 1];
      var last := groups[|groups| - 1];
      ParallelOnePerLevel(g, front);
      var nodes := NodesOf(g, last);
      if last != [] {
        var lb := LevelBatches(nodes, |groups| - 1, Parallel);
        AllNodesAppend(Planned(g, front, Parallel), lb);
        assert lb[..0] == [];
      } else {
        assert nodes == [] && LevelNodes(g, groups) == LevelNodes(g, front) + nodes;
        assert LevelNodes(g, front) + nodes == LevelNodes(g, front);
        assert Planned(g, groups, Parallel) == Planned(g, front, Parallel) + [];
        assert Planned(g, front, Parallel) + [] == Planned(g, front, Parallel);
      }
    }
  }

  // ---------------------------------------------------------------------
  // _calculate_batch_resource_usage
  // ---------------------------------------------------------------------

  /** `defaultdict(float)` lookup. */
  function Get0(u: map<Resource, real>, rt: Resource): real
  {
    if rt in u then u[rt] else 0.0
  }

  /** One node folded into a parallel batch's usage: the larger of what is there (zero if nothing) and its need. */
  function MergeMax(u: map<Resource, real>, req: map<Resource, real>): map<Resource, real>
  {
    map rt | rt in u.Keys + req.Keys :: if rt in req then Max(Get0(u, rt), req[rt]) else u[rt]
  }

  /** One node folded into a sequential batch's usage: its need divided by the batch's node count, added. */
  function MergeShare(u: map<Resource, real>, req: map<Resource, real>, count: nat): map<Resource, real>
    requires count > 0
  {
    map rt | rt in u.Keys + req.Keys :: if rt in req then Get0(u, rt) + req[rt] / (count as real) else u[rt]
  }

  function MaxUsage(nodes: seq<Node>): map<Resource, real>
  {
    if |nodes| == 0 then map[] else MergeMax(MaxUsage(nodes[..|nodes| - 1]), nodes[|nodes| - 1].requirements)
  }

  function ShareUsage(nodes: seq<Node>, count: nat): map<Resource, real>
    requires count > 0
  {
    if |nodes| == 0 then map[] else MergeShare(ShareUsage(nodes[..|nodes| - 1], count), nodes[|nodes| - 1].requirements, count)
  }

  /** A parallel batch needs the most any node needs of each resource; a sequential one the mean need. */
  function BatchUsage(b: Batch): map<Resource, real>
  {
    if b.canParallel then MaxUsage(b.nodes)
    else if |b.nodes| == 0 then map[]
    else ShareUsage(b.nodes, |b.nodes|)
  }

  /** The resources any of the nodes needs. */
  function ReqKeys(nodes: seq<Node>): set<Resource>
  {
    if |nodes| == 0 then {} else ReqKeys(nodes[..|nodes| - 1]) + nodes[|nodes| - 1].requirements.Keys
  }

  /** The total need of a resource over the nodes, a node without it counting zero. */
  function ReqSum(nodes: seq<Node>, rt: Resource): real
  {
    if |nodes| == 0 then 0.0 else ReqSum(nodes[..|nodes| - 1], rt) + Get0(nodes[|nodes| - 1].requirements, rt)
  }

  /**
   * A parallel batch's usage names exactly the resources its nodes need;
   * each entry is at least every node's need and at least zero, and is
   * either zero or some node's need.
   */
  lemma {:induction false} MaxUsageIsMax(nodes: seq<Node>)
    ensures MaxUsage(nodes).Keys == ReqKeys(nodes)
    ensures forall i, rt :: 0 <= i < |nodes| && rt in nodes[i].requirements ==> rt in MaxUsage(nodes) && nodes[i].requirements[rt] <= MaxUsage(nodes)[rt]
    ensures forall rt :: rt in MaxUsage(nodes) ==> 0.0 <= MaxUsage(nodes)[rt]
    ensures forall rt :: rt in MaxUsage(nodes) ==>
      MaxUsage(nodes)[rt] == 0.0 || exists i :: 0 <= i < |nodes| && rt in nodes[i].requirements && MaxUsage(nodes)[rt] == nodes[i].requirements[rt]
  {
    if |nodes| > 0 {
      var front := nodes[..|nodes| - 1];
      MaxUsageIsMax(front);
      var u := MaxUsage(front);
      var req := nodes[|nodes| - 1].requirements;
      forall i, rt | 0 <= i < |nodes| && rt in nodes[i].requirements
        ensures rt in MaxUsage(nodes) && nodes[i].requirements[rt] <= MaxUsage(nodes)[rt]
      {
        if i < |nodes| - 1 {
          assert front[i] == nodes[i];
        }
      }
      forall rt | rt in MaxUsage(nodes)
        ensures MaxUsage(nodes)[rt] == 0.0 || exists i :: 0 <= i < |nodes| && rt in nodes[i].requirements && MaxUsage(nodes)[rt] == nodes[i].requirements[rt]
      {
        if rt in req && MaxUsage(nodes)[rt] == req[rt] {
          assert rt in nodes[|nodes| - 1].requirements;
        } else if MaxUsage(nodes)[rt] != 0.0 {
          assert MaxUsage(nodes)[rt] == u[rt];
          var i :| 0 <= i < |front| && rt in front[i].requirements && u[rt] == front[i].requirements[rt];
          assert front[i] == nodes[i];
        }
      }
    }
  }

  /**
   * A sequential batch's usage names exactly the resources its nodes need,
   * and each entry is the total need divided by the number of nodes.
   */
  lemma {:induction false} ShareUsageIsMean(nodes: seq<Node>, count: nat)
    requires count > 0
    ensures ShareUsage(nodes, count).Keys == ReqKeys(nodes)
    ensures forall rt :: rt in ShareUsage(nodes, count) ==> ShareUsage(nodes, count)[rt] == ReqSum(nodes, rt) / (count as real)
  {
    if |nodes| > 0 {
      var front := nodes[..|nodes| - 1];
      ShareUsageIsMean(front, count);
      var req := nodes[|nodes| - 1].requirements;
      var u := ShareUsage(front, count);
      var c := count as real;
      forall rt | rt in ShareUsage(nodes, count)
        ensures ShareUsage(nodes, count)[rt] == ReqSum(nodes, rt) / c
      {
        if rt !in u {
          ReqSumAbsent(front, rt);
        }
        if rt in req {
          DivAdd(ReqSum(front, rt), req[rt], c);
        }
      }
    }
  }

  lemma DivAdd(a: real, b: real, c: real)
    requires c > 0.0
    ensures a / c + b / c == (a + b) / c
  {
  }

  /** A resource no node needs sums to zero. */
  lemma {:induction false} ReqSumAbsent(nodes: seq<Node>, rt: Resource)
    requires rt !in ReqKeys(nodes)
    ensures ReqSum(nodes, rt) == 0.0
  {
    if |nodes| > 0 {
      ReqSumAbsent(nodes[..|nodes| - 1], rt);
    }
  }

  // ---------------------------------------------------------------------
  // The scheduler's loops
  // ---------------------------------------------------------------------

  /** The entries of `req` for the resources in `ks`. */
  function Restrict(req: map<Resource, real>, ks: set<Resource>): map<Resource, real>
  {
    map rt | rt in req && rt in ks :: req[rt]
  }

  lemma MergeMaxStep(u: map<Resource, real>, req: map<Resource, real>, ks: set<Resource>, rt: Resource)
    requires rt in req && rt !in ks
    ensures var before := MergeMax(u, Restrict(req, ks));
      MergeMax(u, Restrict(req, ks + {rt})) == before[rt := Max(Get0(before, rt), req[rt])]
  {
  }

  lemma MergeShareStep(u: map<Resource, real>, req: map<Resource, real>, count: nat, ks: set<Resource>, rt: Resource)
    requires count > 0 && rt in req && rt !in ks
    ensures var before := MergeShare(u, Restrict(req, ks), count);
      MergeShare(u, Restrict(req, ks + {rt}), count) == before[rt := Get0(before, rt) + req[rt] / (count as real)]
  {
  }

  /** The inner loop of a parallel batch: each needed resource raised to the node's need. */
  method FoldMax(u: map<Resource, real>, req: map<Resource, real>) returns (r: map<Resource, real>)
    ensures r == MergeMax(u, req)
  {
    r := u;
    var left := req.Keys;
    assert Restrict(req, {}) == map[] && MergeMax(u, map[]) == u;
    while left != {}
      invariant left <= req.Keys
      invariant r == MergeMax(u, Restrict(req, req.Keys - left))
      decreases left
    {
      var rt :| rt in left;
      MergeMaxStep(u, req, req.Keys - left, rt);
      assert req.Keys - left + {rt} == req.Keys - (left - {rt});
      r := r[rt := Max(Get0(r, rt), req[rt])];
      left := left - {rt};
    }
    assert Restrict(req, req.Keys) == req;
  }

  /** The inner loop of a sequential batch: each needed resource's share added. */
  method FoldShare(u: map<Resource, real>, req: map<Resource, real>, count: nat) returns (r: map<Resource, real>)
    requires count > 0
    ensures r == MergeShare(u, req, count)
  {
    r := u;
    var left := req.Keys;
    assert Restrict(req, {}) == map[] && MergeShare(u, map[], count) == u;
    while left != {}
      invariant left <= req.Keys
      invariant r == MergeShare(u, Restrict(req, req.Keys - left), count)
      decreases left
    {
      var rt :| rt in left;
      MergeShareStep(u, req, count, req.Keys - left, rt);
      assert req.Keys - left + {rt} == req.Keys - (left - {rt});
      r := r[rt := Get0(r, rt) + req[rt] / (count as real)];
      left := left - {rt};
    }
    assert Restrict(req, req.Keys) == req;
  }

  /** `_calculate_batch_resource_usage`: the maximum per resource for a parallel batch, the mean for a sequential one. */
  method CalculateBatchResourceUsage(b: Batch) returns (usage: map<Resource, real>)
    ensures usage == BatchUsage(b)
  {
    if b.canParallel {
      usage := ParallelUsage(b.nodes);
    } else if |b.nodes| == 0 {
      usage := map[];
    } else {
      usage := SequentialUsage(b.nodes);
    }
  }

  /** The per-resource maximum, folded node by node. */
  method ParallelUsage(nodes: seq<Node>) returns (usage: map<Resource, real>)
    ensures usage == MaxUsage(nodes)
  {
    usage := map[];
    var i := 0;
    while i < |nodes|
      invariant 0 <= i <= |nodes|
      invariant usage == MaxUsage(nodes[..i])
    {
      assert nodes[..i + 1][..i] == nodes[..i];
      usage := FoldMax(usage, nodes[i].requirements);
      i := i + 1;
    }
    assert nodes[..i] == nodes;
  }

  /** Each node's share of the mean, folded node by node. */
  method SequentialUsage(nodes: seq<Node>) returns (usage: map<Resource, real>)
    requires |nodes| > 0
    ensures usage == ShareUsage(nodes, |nodes|)
  {
    usage := map[];
    var count := |nodes|;
    var i := 0;
    while i < |nodes|
      invariant 0 <= i <= |nodes|
      invariant usage == ShareUsage(nodes[..i], count)
    {
      assert nodes[..i + 1][..i] == nodes[..i];
      usage := FoldShare(usage, nodes[i].requirements, count);
      i := i + 1;
    }
    assert nodes[..i] == nodes;
  }

  /** The first pass of `_create_adaptive_batches`: the nodes sorted into the three kinds, order kept. */
  method PartitionByKind(nodes: seq<Node>) returns (fast: seq<Node>, slow: seq<Node>, low: seq<Node>)
    ensures fast == Select(nodes, HighFast)
    ensures slow == Select(nodes, HighSlow)
    ensures low == Select(nodes, LowPriority)
  {
    fast, slow, low := [], [], [];
    var i := 0;
    while i < |nodes|
      invariant 0 <= i <= |nodes|
      invariant fast == Select(nodes[..i], HighFast)
      invariant slow == Select(nodes[..i], HighSlow)
      invariant low == Select(nodes[..i], LowPriority)
    {
      var node := nodes[i];
      assert nodes[..i + 1][..i] == nodes[..i];
      if IsHigh(node.priority) {
        if node.duration <= 10.0 {
          fast := fast + [node];
        } else {
          slow := slow + [node];
        }
      } else {
        low := low + [node];
      }
      i := i + 1;
    }
    assert nodes[..i] == nodes;
  }

  /** One batch per node, numbered from 0 after `prefix`, each run on its own. */
  method MakeSingles(prefix: string, nodes: seq<Node>) returns (batches: seq<Batch>)
    ensures batches == Singles(prefix, nodes)
  {
    batches := [];
    var j := 0;
    while j < |nodes|
      invariant 0 <= j <= |nodes|
      invariant batches == Singles(prefix, nodes[..j])
    {
      SinglesSnoc(prefix, nodes, j);
      batches := batches + [Single(prefix, j, nodes[j])];
      j := j + 1;
    }
    assert nodes[..j] == nodes;
  }

  /** `_create_adaptive_batches`: the short urgent nodes together, each long urgent node alone, the rest together. */
  method CreateAdaptiveBatches(nodes: seq<Node>, level: nat) returns (batches: seq<Batch>)
    ensures batches == AdaptiveBatches(nodes, level)
  {
    var fast, slow, low := PartitionByKind(nodes);
    var l := NatToString(level);
    var head: seq<Batch> := [];
    if fast != [] {
      head := [Batch("adaptive_high_fast_level_" + l, fast, MaxDuration(fast), map[], true)];
    }
    var singles := MakeSingles("adaptive_high_slow_level_" + l + "_node_", slow);
    var tail: seq<Batch> := [];
    if low != [] {
      tail := [Batch("adaptive_low_level_" + l, low, MaxDuration(low), map[], true)];
    }
    AdaptiveParts(nodes, level);
    assert head == FastBatch(nodes, level) && singles == SlowBatches(nodes, level) && tail == LowBatch(nodes, level);
    batches := head + singles + tail;
  }

  lemma PlannedSnoc(g: ExecGraph, groups: seq<seq<string>>, i: int, mode: Mode)
    requires Named(g, groups) && 0 <= i < |groups|
    ensures Named(g, groups[..i]) && Named(g, groups[..i + 1])
    ensures forall n :: n in groups[i] ==> n in g.m
    ensures Planned(g, groups[..i + 1], mode)
      == Planned(g, groups[..i], mode) + (if groups[i] == [] then [] else LevelBatches(NodesOf(g, groups[i]), i, mode))
  {
    NamedPrefix(g, groups, i);
    NamedPrefix(g, groups, i + 1);
    assert groups[..i + 1][..i] == groups[..i];
  }

  /** The batches of one non-empty level, by mode. */
  method CreateLevelBatches(nodes: seq<Node>, level: nat, mode: Mode) returns (batches: seq<Batch>)
    requires |nodes| > 0
    ensures batches == LevelBatches(nodes, level, mode)
  {
    match mode {
      case Parallel =>
        batches := [Batch("parallel_batch_level_" + NatToString(level), nodes, MaxDuration(nodes), map[], true)];
      case Sequential =>
        batches := MakeSingles("sequential_batch_level_" + NatToString(level) + "_node_", nodes);
      case _ =>
        batches := CreateAdaptiveBatches(nodes, level);
    }
  }

  /** The level loop of `create_execution_batches`: each non-empty level batched by mode, in level order. */
  method PlanBatches(g: ExecGraph, groups: seq<seq<string>>, mode: Mode) returns (batches: seq<Batch>)
    requires Named(g, groups)
    ensures batches == Planned(g, groups, mode)
  {
    batches := [];
    var i := 0;
    PlanningStart(g, groups, mode);
    while i < |groups|
      invariant Planning(g, groups, mode, i, batches)
      decreases |groups| - i
    {
      var level := PlanLevel(g, groups, mode, i);
      PlanningStep(g, groups, mode, i, batches);
      batches := batches + level;
      i := i + 1;
    }
    PlanningDone(g, groups, mode, batches);
  }

  /** The level loop before level `i`: the batches of the levels before it. */
  ghost predicate Planning(g: ExecGraph, groups: seq<seq<string>>, mode: Mode, i: int, batches: seq<Batch>)
  {
    Named(g, groups) && 0 <= i <= |groups| && Named(g, groups[..i]) && batches == Planned(g, groups[..i], mode)
  }

  lemma PlanningStart(g: ExecGraph, groups: seq<seq<string>>, mode: Mode)
    requires Named(g, groups)
    ensures Planning(g, groups, mode, 0, [])
  {
    NamedPrefix(g, groups, 0);
  }

  /** The batches of level `i`: none for an empty level. */
  method PlanLevel(g: ExecGraph, groups: seq<seq<string>>, mode: Mode, i: int) returns (level: seq<Batch>)
    requires Named(g, groups) && 0 <= i < |groups|
    ensures forall n :: n in groups[i] ==> n in g.m
    ensures level == if groups[i] == [] then [] else LevelBatches(NodesOf(g, groups[i]), i, mode)
  {
    NamedPrefix(g, groups, i);
    level := [];
    if groups[i] != [] {
      level := CreateLevelBatches(NodesOf(g, groups[i]), i, mode);
    }
  }

  lemma PlanningStep(g: ExecGraph, groups: seq<seq<string>>, mode: Mode, i: int, batches: seq<Batch>)
    requires Planning(g, groups, mode, i, batches) && i < |groups|
    ensures forall n :: n in groups[i] ==> n in g.m
    ensures Planning(g, groups, mode, i + 1,
      batches + if groups[i] == [] then [] else LevelBatches(NodesOf(g, groups[i]), i, mode))
  {
    PlannedSnoc(g, groups, i, mode);
  }

  lemma PlanningDone(g: ExecGraph, groups: seq<seq<string>>, mode: Mode, batches: seq<Batch>)
    requires Planning(g, groups, mode, |groups|, batches)
    ensures batches == Planned(g, groups, mode)
  {
    assert groups[..|groups|] == groups;
  }

  /** The usage loop of `create_execution_batches`: every batch given its resource usage. */
  method AttachUsage(planned: seq<Batch>) returns (batches: seq<Batch>)
    ensures batches == WithUsage(planned)
  {
    batches := planned;
    var k := 0;
    while k < |batches|
      invariant 0 <= k <= |batches| && |batches| == |planned|
      invariant forall j :: 0 <= j < k ==> batches[j] == WithUsage(planned)[j]
      invariant forall j :: k <= j < |batches| ==> batches[j] == planned[j]
    {
      var usage := CalculateBatchResourceUsage(batches[k]);
      batches := batches[k := batches[k].(usage := usage)];
      k := k + 1;
    }
  }

  /** `create_execution_batches`: each non-empty level batched by mode, then every batch's usage computed. */
  method CreateExecutionBatches(g: ExecGraph, groups: seq<seq<string>>, mode: Mode) returns (batches: seq<Batch>)
    requires Named(g, groups)
    ensures batches == Batches(g, groups, mode)
  {
    var planned := PlanBatches(g, groups, mode);
    batches := AttachUsage(planned);
  }
}
