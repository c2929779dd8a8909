/**
 * The smart execution engine's resource bookkeeping: the per-resource
 * limits and current usage, the ledger of allocations keyed by batch and
 * resource, the availability check, allocation, release, and the split of
 * a batch that does not fit into its urgent and its other nodes.
 */
module ExecutionResources {
  import opened Seqs
  import opened ExecutionEngines
  import opened ExecutionScheduler

  /** `ResourceType.value`. */
  function ResourceName(rt: Resource): (s: string)
    ensures |s| > 0
  {
    match rt
    case Cpu => "cpu"
    case Memory => "memory"
    case Network => "network"
    case ApiQuota => "api_quota"
    case Cache => "cache"
  }

  /** Each resource name ends in its own letter. */
  lemma LastLetters(rt: Resource)
    ensures var s := ResourceName(rt); s[|s| - 1] == match rt
      case Cpu => 'u' case Memory => 'y' case Network => 'k' case ApiQuota => 'a' case Cache => 'e'
  {
  }

  /** The key `f"{batch_id}_{resource.value}"` a batch's allocation is filed under. */
  function AllocationKey(id: string, rt: Resource): string
  {
    id + "_" + ResourceName(rt)
  }

  /**
   * Two allocations share a formatted key only when they are for the same
   * batch and resource, so the ledger is modelled keyed by the pair.
   */
  lemma {:induction false} AllocationKeyInjective(id1: string, a: Resource, id2: string, b: Resource)
    ensures AllocationKey(id1, a) == AllocationKey(id2, b) <==> id1 == id2 && a == b
  {
    var s1, s2 := AllocationKey(id1, a), AllocationKey(id2, b);
    if s1 == s2 {
      LastLetters(a);
      LastLetters(b);
      assert s1[|s1| - 1] == ResourceName(a)[|ResourceName(a)| - 1];
      assert s2[|s2| - 1] == ResourceName(b)[|ResourceName(b)| - 1];
      assert a == b;
      assert |id1| == |id2|;
      assert id1 == s1[..|id1|] && id2 == s2[..|id2|];
    }
  }

  // ---------------------------------------------------------------------
  // The bookkeeping on values
  // ---------------------------------------------------------------------

  /** A ledger key: the batch and the resource, standing for `AllocationKey(id, rt)`. */
  type Key = (string, Resource)

  /** The current usage and the allocation ledger. */
  datatype Ledger = Ledger(current: map<Resource, real>, allocations: map<Key, real>)

  /** Every resource the batch needs fits in what is left of its limit. */
  predicate Fits(limits: map<Resource, real>, current: map<Resource, real>, usage: map<Resource, real>)
    requires usage.Keys <= limits.Keys && usage.Keys <= current.Keys
  {
    forall rt :: rt in usage ==> current[rt] + usage[rt] <= limits[rt]
  }

  /** No resource is used beyond its limit. */
  predicate WithinLimits(limits: map<Resource, real>, current: map<Resource, real>)
    requires current.Keys == limits.Keys
  {
    forall rt :: rt in current ==> current[rt] <= limits[rt]
  }

  function Charge(current: map<Resource, real>, usage: map<Resource, real>): (r: map<Resource, real>)
    ensures r.Keys == current.Keys
  {
    map rt | rt in current :: if rt in usage then current[rt] + usage[rt] else current[rt]
  }

  function Refund(current: map<Resource, real>, usage: map<Resource, real>): (r: map<Resource, real>)
    ensures r.Keys == current.Keys
  {
    map rt | rt in current :: if rt in usage then current[rt] - usage[rt] else current[rt]
  }

  /** The ledger keys of a batch's usage. */
  function EntryKeys(id: string, usage: map<Resource, real>): set<Key>
  {
    set rt | rt in usage :: (id, rt)
  }

  /** The ledger with one entry per resource the batch needs, overwriting older ones under the same keys. */
  function Record(allocations: map<Key, real>, id: string, usage: map<Resource, real>): (r: map<Key, real>)
    ensures r.Keys == allocations.Keys + EntryKeys(id, usage)
  {
    map k | k in allocations.Keys + EntryKeys(id, usage) :: if k.0 == id && k.1 in usage then usage[k.1] else allocations[k]
  }

  function Erase(allocations: map<Key, real>, id: string, usage: map<Resource, real>): map<Key, real>
  {
    allocations - EntryKeys(id, usage)
  }

  /** `_allocate_batch_resources` on values. */
  function Allocate(l: Ledger, b: Batch): Ledger
  {
    Ledger(Charge(l.current, b.usage), Record(l.allocations, b.id, b.usage))
  }

  /** `_release_batch_resources` on values. */
  function Release(l: Ledger, b: Batch): Ledger
  {
    Ledger(Refund(l.current, b.usage), Erase(l.allocations, b.id, b.usage))
  }

  /** Releasing a batch undoes its allocation: the usage is back where it was, and so is the ledger unless it already held one of the batch's keys. */
  lemma ReleaseUndoesAllocate(l: Ledger, b: Batch)
    ensures Release(Allocate(l, b), b).current == l.current
    ensures Release(Allocate(l, b), b).allocations == Erase(l.allocations, b.id, b.usage)
    ensures l.allocations.Keys !! EntryKeys(b.id, b.usage) ==> Release(Allocate(l, b), b).allocations == l.allocations
  {
    var r := Release(Allocate(l, b), b);
    assert r.allocations == Erase(l.allocations, b.id, b.usage);
  }

  /** After an allocation the ledger holds exactly the batch's needs under its keys; after a release none of its keys. */
  lemma AllocationEntries(l: Ledger, b: Batch)
    ensures forall rt :: rt in b.usage ==>
      (b.id, rt) in Allocate(l, b).allocations && Allocate(l, b).allocations[(b.id, rt)] == b.usage[rt]
    ensures forall rt :: rt in b.usage ==> (b.id, rt) !in Release(l, b).allocations
    ensures forall k :: k in l.allocations && k !in EntryKeys(b.id, b.usage) ==> k in Release(l, b).allocations
  {
  }

  /** A batch fits exactly when charging it keeps each of its resources within the limit; then no limit is exceeded afterwards. */
  lemma ChargeWithinLimits(limits: map<Resource, real>, current: map<Resource, real>, usage: map<Resource, real>)
    requires current.Keys == limits.Keys && usage.Keys <= limits.Keys
    ensures Fits(limits, current, usage) <==> forall rt :: rt in usage ==> Charge(current, usage)[rt] <= limits[rt]
    ensures WithinLimits(limits, current) && Fits(limits, current, usage) ==> WithinLimits(limits, Charge(current, usage))
  {
  }

  // ---------------------------------------------------------------------
  // Splitting a batch that does not fit
  // ---------------------------------------------------------------------

  function HighNodes(nodes: seq<Node>): seq<Node>
  {
    if |nodes| == 0 then []
    else HighNodes(nodes[..|nodes| - 1]) + (if IsHigh(nodes[|nodes| - 1].priority) then [nodes[|nodes| - 1]] else [])
  }

  function LowNodes(nodes: seq<Node>): seq<Node>
  {
    if |nodes| == 0 then []
    else LowNodes(nodes[..|nodes| - 1]) + (if IsHigh(nodes[|nodes| - 1].priority) then [] else [nodes[|nodes| - 1]])
  }

  /** `sum(node.estimated_duration for node in nodes)`. */
  function TotalDuration(nodes: seq<Node>): real
  {
    if |nodes| == 0 then 0.0 else TotalDuration(nodes[..|nodes| - 1]) + nodes[|nodes| - 1].duration
  }

  /** The urgent nodes and the others, each kept in order, together are the nodes. */
  lemma {:induction false} HighLowPartition(nodes: seq<Node>)
    ensures multiset(HighNodes(nodes)) + multiset(LowNodes(nodes)) == multiset(nodes)
    ensures forall n :: n in HighNodes(nodes) ==> n in nodes && IsHigh(n.priority)
    ensures forall n :: n in LowNodes(nodes) ==> n in nodes && !IsHigh(n.priority)
  {
    if |nodes| > 0 {
      var front := nodes[..|nodes| - 1];
      HighLowPartition(front);
      assert nodes == front + [nodes[|nodes| - 1]];
    }
  }

  /** The part holding `nodes` under `id`, if there are any. */
  function Part(id: string, nodes: seq<Node>): seq<Batch>
  {
    if nodes != [] then [Batch(id, nodes, TotalDuration(nodes), map[], true)] else []
  }

  /** `_split_batch`: the urgent nodes under "_high", the others under "_low", each summed, without usage and parallel. */
  function Split(b: Batch): seq<Batch>
  {
    Part(b.id + "_high", HighNodes(b.nodes)) + Part(b.id + "_low", LowNodes(b.nodes))
  }

  lemma AllNodesOne(b: Batch)
    ensures AllNodes([b]) == b.nodes
  {
    assert [b][..0] == [];
  }

  /** The split batches hold the urgent nodes, then the others. */
  lemma SplitNodes(b: Batch)
    ensures AllNodes(Split(b)) == HighNodes(b.nodes) + LowNodes(b.nodes)
  {
    var hs, ls := Part(b.id + "_high", HighNodes(b.nodes)), Part(b.id + "_low", LowNodes(b.nodes));
    AllNodesAppend(hs, ls);
    if hs != [] { AllNodesOne(hs[0]); }
    if ls != [] { AllNodesOne(ls[0]); }
  }

  /** Splitting keeps every node and adds none. */
  lemma SplitKeepsNodes(b: Batch)
    ensures multiset(AllNodes(Split(b))) == multiset(b.nodes)
  {
    SplitNodes(b);
    HighLowPartition(b.nodes);
  }

  /** The parts are at most two, non-empty, one priority class each, run in parallel and carry no usage. */
  lemma SplitShape(b: Batch)
    ensures |Split(b)| <= 2
    ensures forall p :: p in Split(b) ==>
      p.nodes != [] && p.usage == map[] && p.canParallel && p.totalTime == TotalDuration(p.nodes)
    ensures forall p :: p in Split(b) ==>
      (p.id == b.id + "_high" && forall n :: n in p.nodes ==> IsHigh(n.priority))
      || (p.id == b.id + "_low" && forall n :: n in p.nodes ==> !IsHigh(n.priority))
  {
    HighLowPartition(b.nodes);
    var hs, ls := Part(b.id + "_high", HighNodes(b.nodes)), Part(b.id + "_low", LowNodes(b.nodes));
    assert forall p :: p in hs ==> p.id == b.id + "_high" && p.nodes == HighNodes(b.nodes) != [];
    assert forall p :: p in ls ==> p.id == b.id + "_low" && p.nodes == LowNodes(b.nodes) != [];
  }

  // ---------------------------------------------------------------------
  // `_allocate_resources` on values
  // ---------------------------------------------------------------------

  /** Every batch needs only resources that have a limit. */
  predicate Limited(limits: map<Resource, real>, batches: seq<Batch>)
  {
    forall b :: b in batches ==> b.usage.Keys <= limits.Keys
  }

  /** One batch: charged and kept when it fits, split when it does not. */
  function Step(limits: map<Resource, real>, l: Ledger, b: Batch): (Ledger, seq<Batch>)
    requires l.current.Keys == limits.Keys && b.usage.Keys <= limits.Keys
  {
    if Fits(limits, l.current, b.usage) then (Allocate(l, b), [b]) else (l, Split(b))
  }

  /** The batches `_allocate_resources` returns for `batches` from ledger `l`. */
  function Allotted(limits: map<Resource, real>, l: Ledger, batches: seq<Batch>): seq<Batch>
    requires l.current.Keys == limits.Keys && Limited(limits, batches)
    decreases |batches|
  {
    if |batches| == 0 then []
    else
      var (l', out) := Step(limits, l, batches[0]);
      out + Allotted(limits, l', batches[1..])
  }

  /** The ledger `_allocate_resources` leaves behind. */
  function Final(limits: map<Resource, real>, l: Ledger, batches: seq<Batch>): (r: Ledger)
    requires l.current.Keys == limits.Keys && Limited(limits, batches)
    ensures r.current.Keys == limits.Keys
    decreases |batches|
  {
    if |batches| == 0 then l
    else Final(limits, Step(limits, l, batches[0]).0, batches[1..])
  }

  /** `_allocate_resources` from batch `i` on: the step for that batch, then the rest. */
  lemma Unfold(limits: map<Resource, real>, l: Ledger, batches: seq<Batch>, i: int)
    requires l.current.Keys == limits.Keys && 0 <= i < |batches| && Limited(limits, batches[i..])
    ensures Limited(limits, batches[i + 1..])
    ensures Allotted(limits, l, batches[i..]) == Step(limits, l, batches[i]).1 + Allotted(limits, Step(limits, l, batches[i]).0, batches[i + 1..])
    ensures Final(limits, l, batches[i..]) == Final(limits, Step(limits, l, batches[i]).0, batches[i + 1..])
  {
    assert batches[i..][1..] == batches[i + 1..];
    assert batches[i..][0] == batches[i];
  }

  /** Allocation neither loses nor invents a node. */
  lemma {:induction false} AllottedKeepsNodes(limits: map<Resource, real>, l: Ledger, batches: seq<Batch>)
    requires l.current.Keys == limits.Keys && Limited(limits, batches)
    ensures multiset(AllNodes(Allotted(limits, l, batches))) == multiset(AllNodes(batches))
    decreases |batches|
  {
    if |batches| > 0 {
      var b := batches[0];
      var (l', out) := Step(limits, l, b);
      AllottedKeepsNodes(limits, l', batches[1..]);
      AllNodesAppend(out, Allotted(limits, l', batches[1..]));
      assert batches == [b] + batches[1..];
      AllNodesAppend([b], batches[1..]);
      if Fits(limits, l.current, b.usage) {
        AllNodesOne(b);
      } else {
        SplitKeepsNodes(b);
        AllNodesOne(b);
      }
    }
  }

  /** Allocation never takes a resource past its limit. */
  lemma {:induction false} FinalWithinLimits(limits: map<Resource, real>, l: Ledger, batches: seq<Batch>)
    requires l.current.Keys == limits.Keys && Limited(limits, batches)
    requires WithinLimits(limits, l.current)
    ensures WithinLimits(limits, Final(limits, l, batches).current)
    decreases |batches|
  {
    if |batches| > 0 {
      var b := batches[0];
      ChargeWithinLimits(limits, l.current, b.usage);
      var l' := Step(limits, l, b).0;
      FinalWithinLimits(limits, l', batches[1..]);
    }
  }

  /** Only batches kept whole are charged: a batch that is split leaves the usage as it was. */
  lemma SplitNotCharged(limits: map<Resource, real>, l: Ledger, b: Batch)
    requires l.current.Keys == limits.Keys && b.usage.Keys <= limits.Keys
    ensures !Fits(limits, l.current, b.usage) ==> Step(limits, l, b).0 == l
    ensures Fits(limits, l.current, b.usage) ==> Step(limits, l, b) == (Allocate(l, b), [b])
  {
  }

  // ---------------------------------------------------------------------
  // Every scheduled batch needs only limited resources
  // ---------------------------------------------------------------------

  lemma {:induction false} ReqKeysWithin(nodes: seq<Node>, ks: set<Resource>)
    requires forall n :: n in nodes ==> n.requirements.Keys <= ks
    ensures ReqKeys(nodes) <= ks
  {
    if |nodes| > 0 {
      ReqKeysWithin(nodes[..|nodes| - 1], ks);
      assert nodes[|nodes| - 1] in nodes;
    }
  }

  lemma {:induction false} InAllNodes(batches: seq<Batch>, i: int, n: Node)
    requires 0 <= i < |batches| && n in batches[i].nodes
    ensures n in AllNodes(batches)
  {
    if i < |batches| - 1 {
      InAllNodes(batches[..|batches| - 1], i, n);
    }
  }

  lemma {:induction false} LevelNodesInGraph(g: ExecGraph, groups: seq<seq<string>>)
    requires Named(g, groups)
    ensures forall n :: n in LevelNodes(g, groups) ==> n in g.m.Values
  {
    if |groups| > 0 {
      NamedPrefix(g, groups, |groups| - 1);
      LevelNodesInGraph(g, groups[..|groups| - 1]);
      var last := groups[|groups| - 1];
      forall n | n in NodesOf(g, last)
        ensures n in g.m.Values
      {
        var i :| 0 <= i < |last| && NodesOf(g, last)[i] == n;
        assert last[i] in g.m;
      }
    }
  }

  /**
   * When every node of the graph needs only resources with a limit, as the
   * estimates always do, so does every batch the scheduler makes: the
   * availability check never meets a resource without a limit.
   */
  lemma ScheduledBatchesLimited(g: ExecGraph, groups: seq<seq<string>>, mode: Mode, limits: map<Resource, real>)
    requires Named(g, groups)
    requires forall n :: n in g.m.Values ==> n.requirements.Keys <= limits.Keys
    ensures Limited(limits, Batches(g, groups, mode))
  {
    var planned := Planned(g, groups, mode);
    BatchesCoverLevels(g, groups, mode);
    LevelNodesInGraph(g, groups);
    forall b | b in Batches(g, groups, mode)
      ensures b.usage.Keys <= limits.Keys
    {
      var i :| 0 <= i < |planned| && b == WithUsage(planned)[i];
      var p := planned[i];
      forall n | n in p.nodes
        ensures n.requirements.Keys <= limits.Keys
      {
        InAllNodes(planned, i, n);
        assert n in multiset(LevelNodes(g, groups));
      }
      ReqKeysWithin(p.nodes, limits.Keys);
      MaxUsageIsMax(p.nodes);
      if |p.nodes| > 0 {
        ShareUsageIsMean(p.nodes, |p.nodes|);
      }
    }
  }

  // ---------------------------------------------------------------------
  // The engine
  // ---------------------------------------------------------------------

  /** The resource fields of `SmartExecutionEngine`. */
  class ExecutionEngine {
    var limits: map<Resource, real>
    var current: map<Resource, real>
    var allocations: map<Key, real>

    ghost predicate Valid()
      reads this
    {
      current.Keys == limits.Keys
    }

    function State(): Ledger
      reads this
    {
      Ledger(current, allocations)
    }

    /** The four default limits, nothing used, nothing allocated. */
    constructor ()
      ensures Valid() && WithinLimits(limits, current)
      ensures limits == DefaultLimits()
      ensures forall rt :: rt in current ==> current[rt] == 0.0
      ensures allocations == map[]
    {
      limits := DefaultLimits();
      current := map[Cpu := 0.0, Memory := 0.0, Network := 0.0, ApiQuota := 0.0];
      allocations := map[];
    }

    /** `_check_resource_availability`: the first resource that would overflow answers false. */
    method CheckResourceAvailability(b: Batch) returns (ok: bool)
      requires Valid() && b.usage.Keys <= limits.Keys
      ensures ok == Fits(limits, current, b.usage)
    {
      var left := b.usage.Keys;
      while left != {}
        invariant left <= b.usage.Keys
        invariant forall rt :: rt in b.usage.Keys - left ==> current[rt] + b.usage[rt] <= limits[rt]
        decreases left
      {
        var rt :| rt in left;
        if current[rt] + b.usage[rt] > limits[rt] {
          return false;
        }
        left := left - {rt};
      }
      return true;
    }

    /** `_allocate_batch_resources`: each need added to the usage and recorded under the batch's key. */
    method AllocateBatchResources(b: Batch)
      requires Valid() && b.usage.Keys <= limits.Keys
      modifies this
      ensures Valid() && limits == old(limits)
      ensures State() == Allocate(old(State()), b)
    {
      var l := ChargeBatch(State(), b);
      current, allocations := l.current, l.allocations;
    }

    /** `_release_batch_resources`: each need subtracted from the usage and its ledger entry removed. */
    method ReleaseBatchResources(b: Batch)
      requires Valid() && b.usage.Keys <= limits.Keys
      modifies this
      ensures Valid() && limits == old(limits)
      ensures State() == Release(old(State()), b)
    {
      var l := RefundBatch(State(), b);
      current, allocations := l.current, l.allocations;
    }

    /** `_allocate_resources`: every batch that fits is charged and kept, every other one split. */
    method AllocateResources(batches: seq<Batch>) returns (out: seq<Batch>)
      requires Valid() && Limited(limits, batches)
      modifies this
      ensures Valid() && limits == old(limits)
      ensures out == Allotted(limits, old(State()), batches)
      ensures State() == Final(limits, old(State()), batches)
    {
      out := [];
      var i := 0;
      AllottingStart(limits, State(), batches);
      while i < |batches|
        invariant 0 <= i <= |batches| && Valid() && limits == old(limits)
        invariant Allotting(limits, old(State()), batches, i, State(), out)
      {
        var b := batches[i];
        ghost var before := State();
        AllottingLimited(limits, old(State()), batches, i, before, out);
        var fits := CheckResourceAvailability(b);
        var part: seq<Batch>;
        if fits {
          AllocateBatchResources(b);
          part := [b];
        } else {
          part := Split(b);
        }
        AllottingStep(limits, old(State()), batches, i, before, out);
        assert (State(), part) == Step(limits, before, b);
        out := out + part;
        i := i + 1;
      }
      AllottingDone(limits, old(State()), batches, State(), out);
    }
  }

  /** The state of `_allocate_resources` before batch `i`: what it has returned and the ledger, with the rest still to come. */
  ghost predicate Allotting(limits: map<Resource, real>, l0: Ledger, batches: seq<Batch>, i: int, l: Ledger, out: seq<Batch>)
  {
    0 <= i <= |batches| && l0.current.Keys == limits.Keys && l.current.Keys == limits.Keys
    && Limited(limits, batches) && Limited(limits, batches[i..])
    && Allotted(limits, l0, batches) == out + Allotted(limits, l, batches[i..])
    && Final(limits, l0, batches) == Final(limits, l, batches[i..])
  }

  lemma AllottingStart(limits: map<Resource, real>, l0: Ledger, batches: seq<Batch>)
    requires l0.current.Keys == limits.Keys && Limited(limits, batches)
    ensures Allotting(limits, l0, batches, 0, l0, [])
  {
    assert batches[0..] == batches;
  }

  lemma AllottingLimited(limits: map<Resource, real>, l0: Ledger, batches: seq<Batch>, i: int, l: Ledger, out: seq<Batch>)
    requires Allotting(limits, l0, batches, i, l, out) && i < |batches|
    ensures batches[i].usage.Keys <= limits.Keys && l.current.Keys == limits.Keys
  {
  }

  lemma {:induction false} AllottingStep(limits: map<Resource, real>, l0: Ledger, batches: seq<Batch>, i: int, l: Ledger, out: seq<Batch>)
    requires Allotting(limits, l0, batches, i, l, out) && i < |batches|
    ensures batches[i].usage.Keys <= limits.Keys
    ensures var (l', part) := Step(limits, l, batches[i]);
      Allotting(limits, l0, batches, i + 1, l', out + part)
  {
    Unfold(limits, l, batches, i);
    var (l', part) := Step(limits, l, batches[i]);
    var rest := Allotted(limits, l', batches[i + 1..]);
    assert out + (part + rest) == (out + part) + rest;
  }

  lemma AllottingDone(limits: map<Resource, real>, l0: Ledger, batches: seq<Batch>, l: Ledger, out: seq<Batch>)
    requires Allotting(limits, l0, batches, |batches|, l, out)
    ensures out == Allotted(limits, l0, batches) && l == Final(limits, l0, batches)
  {
    assert batches[|batches|..] == [];
    assert out + [] == out;
  }

  // ---------------------------------------------------------------------
  // The loops over a batch's needs
  // ---------------------------------------------------------------------

  /** The loop of `_allocate_batch_resources`, one resource at a time. */
  method ChargeBatch(l: Ledger, b: Batch) returns (r: Ledger)
    requires b.usage.Keys <= l.current.Keys
    ensures r == Allocate(l, b)
  {
    var cur, alloc := l.current, l.allocations;
    var left := b.usage.Keys;
    ChargingStart(l, b);
    while left != {}
      invariant Charging(l, b, left, Ledger(cur, alloc))
      decreases left
    {
      var rt :| rt in left;
      ChargingStep(l, b, left, rt, Ledger(cur, alloc));
      cur := cur[rt := cur[rt] + b.usage[rt]];
      alloc := alloc[(b.id, rt) := b.usage[rt]];
      left := left - {rt};
    }
    r := Ledger(cur, alloc);
    ChargingDone(l, b, r);
  }

  /** The loop of `_allocate_batch_resources` with `left` still to handle. */
  ghost predicate Charging(l: Ledger, b: Batch, left: set<Resource>, r: Ledger)
  {
    left <= b.usage.Keys && b.usage.Keys <= l.current.Keys
    && r.current == Charge(l.current, Drop(b.usage, left))
    && Recorded(l.allocations, b.id, Drop(b.usage, left), r.allocations)
  }

  /** `r` holds the entries of `done` under the batch's keys and the old ledger elsewhere. */
  ghost predicate Recorded(a: map<Key, real>, id: string, done: map<Resource, real>, r: map<Key, real>)
  {
    (forall k :: k in r <==> k in a || (k.0 == id && k.1 in done))
    && forall k :: k in r ==> r[k] == if k.0 == id && k.1 in done then done[k.1] else a[k]
  }

  lemma ChargingStart(l: Ledger, b: Batch)
    requires b.usage.Keys <= l.current.Keys
    ensures Charging(l, b, b.usage.Keys, l)
  {
    assert Drop(b.usage, b.usage.Keys) == map[];
    assert EntryKeys(b.id, map[]) == {};
  }

  lemma ChargingStep(l: Ledger, b: Batch, left: set<Resource>, rt: Resource, r: Ledger)
    requires Charging(l, b, left, r) && rt in left
    ensures rt in r.current && rt in b.usage
    ensures Charging(l, b, left - {rt}, Ledger(r.current[rt := r.current[rt] + b.usage[rt]], r.allocations[(b.id, rt) := b.usage[rt]]))
  {
    ChargeStep(l.current, b.usage, left, rt, r.current);
    RecordStep(l.allocations, b.id, b.usage, left, rt, r.allocations);
  }

  lemma ChargingDone(l: Ledger, b: Batch, r: Ledger)
    requires Charging(l, b, {}, r)
    ensures r == Allocate(l, b)
  {
    DropAll(b.usage);
    assert r.allocations == Record(l.allocations, b.id, b.usage);
  }

  /** The loop of `_release_batch_resources`, one resource at a time. */
  method RefundBatch(l: Ledger, b: Batch) returns (r: Ledger)
    requires b.usage.Keys <= l.current.Keys
    ensures r == Release(l, b)
  {
    var cur, alloc := l.current, l.allocations;
    var left := b.usage.Keys;
    while left != {}
      invariant left <= b.usage.Keys
      invariant cur == Refund(l.current, Drop(b.usage, left))
      invariant alloc == Erase(l.allocations, b.id, Drop(b.usage, left))
      decreases left
    {
      var rt :| rt in left;
      RefundStep(l.current, b.usage, left, rt, cur);
      EraseStep(l.allocations, b.id, Drop(b.usage, left), rt, b.usage[rt]);
      DropStep(b.usage, left, rt);
      cur := cur[rt := cur[rt] - b.usage[rt]];
      var key := (b.id, rt);
      if key in alloc {
        alloc := alloc - {key};
      }
      left := left - {rt};
    }
    DropAll(b.usage);
    r := Ledger(cur, alloc);
  }

  // ---------------------------------------------------------------------
  // Loop helpers
  // ---------------------------------------------------------------------

  /** The entries of `usage` outside `left`: the ones a loop has handled. */
  function Drop(usage: map<Resource, real>, left: set<Resource>): map<Resource, real>
  {
    map rt | rt in usage && rt !in left :: usage[rt]
  }

  lemma DropStep(usage: map<Resource, real>, left: set<Resource>, rt: Resource)
    requires rt in left && rt in usage
    ensures rt !in Drop(usage, left)
    ensures Drop(usage, left - {rt}) == Drop(usage, left)[rt := usage[rt]]
  {
  }

  lemma DropAll(usage: map<Resource, real>)
    ensures Drop(usage, {}) == usage
  {
  }

  lemma ChargeStep(current: map<Resource, real>, usage: map<Resource, real>, left: set<Resource>, rt: Resource, cur: map<Resource, real>)
    requires rt in left && left <= usage.Keys && usage.Keys <= current.Keys
    requires cur == Charge(current, Drop(usage, left))
    ensures rt in cur && cur[rt := cur[rt] + usage[rt]] == Charge(current, Drop(usage, left - {rt}))
  {
  }

  lemma RefundStep(current: map<Resource, real>, usage: map<Resource, real>, left: set<Resource>, rt: Resource, cur: map<Resource, real>)
    requires rt in left && left <= usage.Keys && usage.Keys <= current.Keys
    requires cur == Refund(current, Drop(usage, left))
    ensures rt in cur && cur[rt := cur[rt] - usage[rt]] == Refund(current, Drop(usage, left - {rt}))
  {
  }

  lemma RecordStep(a: map<Key, real>, id: string, usage: map<Resource, real>, left: set<Resource>, rt: Resource, alloc: map<Key, real>)
    requires rt in left && rt in usage
    requires Recorded(a, id, Drop(usage, left), alloc)
    ensures Recorded(a, id, Drop(usage, left - {rt}), alloc[(id, rt) := usage[rt]])
  {
    DropStep(usage, left, rt);
  }

  lemma EraseStep(a: map<Key, real>, id: string, done: map<Resource, real>, rt: Resource, v: real)
    requires rt !in done
    ensures Erase(a, id, done[rt := v]) == Erase(a, id, done) - {(id, rt)}
  {
    assert EntryKeys(id, done[rt := v]) == EntryKeys(id, done) + {(id, rt)};
  }
}
