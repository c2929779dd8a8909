/**
 * The smart execution engine's planning stages: the execution graph of
 * tool plans, the dependency analyzer's layered topological sort, the
 * scheduler's batching per execution mode, the batches' resource usage,
 * and the engine's resource accounting (allocate, release, split).
 */
module ExecutionEngines {
  import opened Seqs
  import opened OrderedMaps

  datatype Priority = Critical | High | Medium | Low | Optional

  datatype Resource = Cpu | Memory | Network | ApiQuota | Cache

  datatype Mode = Sequential | Parallel | Adaptive | Pipeline | FallbackCascade

  /**
   * An execution node: the planned tool's name and priority, the names it
   * depends on (a set), the names that depend on it (a set, kept in
   * insertion order), its estimated duration and resource needs.
   */
  datatype Node = Node(
    name: string,
    priority: Priority,
    dependencies: set<string>,
    dependents: seq<string>,
    duration: real,
    requirements: map<Resource, real>)

  /** The execution graph: tool name to node, in plan order. */
  type ExecGraph = ODict<Node>

  /** A batch of nodes run together (in parallel when `canParallel`), with its estimated time and resource usage. */
  datatype Batch = Batch(
    id: string,
    nodes: seq<Node>,
    totalTime: real,
    usage: map<Resource, real>,
    canParallel: bool)

  /** Critical and high priority tools are the ones the scheduler treats as urgent. */
  predicate IsHigh(p: Priority)
  {
    p == Critical || p == High
  }

  // ---------------------------------------------------------------------
  // _estimate_resource_requirements
  // ---------------------------------------------------------------------

  /**
   * The resource needs of a tool, by name: CPU 0.3 for the path generator
   * and MAB decision (else 0.1), memory 50 MB for RAG seed and path
   * generator (else 20), network 2.0 for RAG seed and idea verification
   * (else 0.5), API quota 5.0 for the four model-calling tools (else 1.0).
   */
  function EstimateResources(name: string): (r: map<Resource, real>)
    ensures r.Keys == DefaultLimits().Keys
    ensures forall rt :: rt in r ==> 0.0 < r[rt] <= DefaultLimits()[rt]
  {
    map[
      Cpu := if name in {"path_generator", "mab_decision"} then 0.3 else 0.1,
      Memory := if name in {"rag_seed", "path_generator"} then 50.0 else 20.0,
      Network := if name in {"rag_seed", "idea_verification"} then 2.0 else 0.5,
      ApiQuota := if name in {"thinking_seed", "rag_seed", "path_generator", "mab_decision"} then 5.0 else 1.0]
  }

  /** The engine's four constrained resources and their limits; the cache has none. */
  function DefaultLimits(): (r: map<Resource, real>)
    ensures r.Keys == {Cpu, Memory, Network, ApiQuota}
  {
    map[Cpu := 1.0, Memory := 1024.0, Network := 10.0, ApiQuota := 100.0]
  }

  // ---------------------------------------------------------------------
  // _build_execution_graph
  // ---------------------------------------------------------------------

  /** The names among `keys` whose node depends on `a`, in order. */
  function DependentsOf(keys: seq<string>, m: map<string, Node>, a: string): (r: seq<string>)
    requires forall k :: k in keys ==> k in m
    ensures forall b :: b in r <==> b in keys && a in m[b].dependencies
    ensures Distinct(keys) ==> Distinct(r)
  {
    if |keys| == 0 then []
    else
      var front := DependentsOf(keys[..|keys| - 1], m, a);
      var b := keys[|keys| - 1];
      assert forall x :: x in keys <==> x in keys[..|keys| - 1] || x == b;
      if a in m[b].dependencies then front + [b] else front
  }

  /** Every node is filed under its name and lists exactly the nodes of the graph that depend on it. */
  ghost predicate Linked(g: ExecGraph)
  {
    Valid(g)
    && forall a :: a in g.m ==>
      g.m[a].name == a && Distinct(g.m[a].dependents)
      && forall b :: b in g.m[a].dependents <==> b in g.m && a in g.m[b].dependencies
  }

  /** The nodes filed by name, a later node replacing an earlier one of the same name in place. */
  function Filed(nodes: seq<Node>): (g: ExecGraph)
    ensures Valid(g)
    ensures forall k :: k in g.m ==> g.m[k].name == k
    ensures forall i :: 0 <= i < |nodes| ==> nodes[i].name in g.m
  {
    if |nodes| == 0 then Empty()
    else
      var n := nodes[|nodes| - 1];
      Put(Filed(nodes[..|nodes| - 1]), n.name, n)
  }

  /** `_build_execution_graph`: file the nodes, then record each dependency that lies inside the graph as a dependent. */
  function BuildGraph(nodes: seq<Node>): (g: ExecGraph)
    requires forall i :: 0 <= i < |nodes| ==> nodes[i].dependents == []
    ensures Linked(g)
    ensures forall i :: 0 <= i < |nodes| ==> nodes[i].name in g.m
  {
    var f := Filed(nodes);
    ODict(f.keys, map k | k in f.m :: f.m[k].(dependents := DependentsOf(f.keys, f.m, k)))
  }

  // ---------------------------------------------------------------------
  // DependencyAnalyzer.analyze_dependencies
  // ---------------------------------------------------------------------

  /** Every dependency of `n` has been processed. */
  predicate Ready(g: ExecGraph, n: string, done: set<string>)
    requires n in g.m
  {
    g.m[n].dependencies <= done
  }

  /** The names of `ns` that are ready, in order. */
  function ReadyAmong(g: ExecGraph, ns: seq<string>, done: set<string>): (r: seq<string>)
    requires forall n :: n in ns ==> n in g.m
    ensures forall n :: n in r <==> n in ns && Ready(g, n, done)
    ensures Distinct(ns) ==> Distinct(r)
  {
    if |ns| == 0 then []
    else
      var front := ReadyAmong(g, ns[..|ns| - 1], done);
      var n := ns[|ns| - 1];
      assert forall x :: x in ns <==> x in ns[..|ns| - 1] || x == n;
      if Ready(g, n, done) then front + [n] else front
  }

  lemma ReadyAmongSnoc(g: ExecGraph, ns: seq<string>, j: int, done: set<string>)
    requires 0 <= j < |ns| && forall n :: n in ns ==> n in g.m
    ensures ReadyAmong(g, ns[..j + 1], done) == ReadyAmong(g, ns[..j], done) + (if Ready(g, ns[j], done) then [ns[j]] else [])
  {
    assert ns[..j + 1][..j] == ns[..j];
  }

  /** The first level: the nodes without dependencies, in graph order. */
  function Initial(g: ExecGraph): seq<string>
    requires Valid(g)
  {
    ReadyAmong(g, g.keys, {})
  }

  /** The levels one after the other. */
  function Flat(gs: seq<seq<string>>): seq<string>
  {
    if |gs| == 0 then [] else Flat(gs[..|gs| - 1]) + gs[|gs| - 1]
  }

  function Elems(xs: seq<string>): set<string>
  {
    set x | x in xs
  }

  /** Extending a prefix by one element adds that element. */
  lemma ElemsSnoc(xs: seq<string>, i: int)
    requires 0 <= i < |xs|
    ensures Elems(xs[..i + 1]) == Elems(xs[..i]) + {xs[i]}
  {
    assert xs[..i + 1] == xs[..i] + [xs[i]];
  }

  /** What processing each node of `cur` in turn appends to the queue: its dependents that thereby become ready. */
  function Released(g: ExecGraph, cur: seq<string>, done: set<string>): seq<string>
    requires Linked(g)
    requires forall n :: n in cur ==> n in g.m
  {
    if |cur| == 0 then []
    else
      var t := cur[|cur| - 1];
      Released(g, cur[..|cur| - 1], done) + ReadyAmong(g, g.m[t].dependents, done + Elems(cur))
  }

  lemma ReleasedSnoc(g: ExecGraph, cur: seq<string>, i: int, done: set<string>)
    requires Linked(g) && 0 <= i < |cur| && forall n :: n in cur ==> n in g.m
    ensures Released(g, cur[..i + 1], done) == Released(g, cur[..i], done) + ReadyAmong(g, g.m[cur[i]].dependents, done + Elems(cur[..i + 1]))
  {
    assert cur[..i + 1][..i] == cur[..i] && cur[..i + 1][i] == cur[i];
  }

  /** The in-degree table counts the unprocessed dependencies of every node. */
  ghost predicate Counts(g: ExecGraph, inDegree: map<string, int>, done: set<string>)
  {
    forall n :: n in g.m ==> n in inDegree && inDegree[n] == |g.m[n].dependencies - done|
  }

  /** Part way through processing `t`: the dependents in `seen` have lost their edge from `t`. */
  ghost predicate PartCounts(g: ExecGraph, inDegree: map<string, int>, done: set<string>, seen: set<string>)
  {
    forall n :: n in g.m ==> n in inDegree && inDegree[n] == |g.m[n].dependencies - done| - (if n in seen then 1 else 0)
  }

  /** The dependent `b` of `a` is a node of the graph that depends on `a`. */
  lemma DependentFacts(g: ExecGraph, a: string, b: string)
    requires Linked(g) && a in g.m
    ensures b in g.m[a].dependents <==> b in g.m && a in g.m[b].dependencies
  {
  }

  lemma DependentsFacts(g: ExecGraph, t: string)
    requires Linked(g) && t in g.m
    ensures Distinct(g.m[t].dependents)
    ensures forall x :: x in g.m[t].dependents ==> x in g.m && t in g.m[x].dependencies
  {
  }

  /** Processing `t` removes exactly one unprocessed dependency from each of its dependents. */
  lemma DropOne(deps: set<string>, done: set<string>, t: string)
    requires t in deps && t !in done
    ensures |deps - (done + {t})| == |deps - done| - 1
    ensures |deps - (done + {t})| == 0 <==> deps <= done + {t}
  {
    assert deps - done == (deps - (done + {t})) + {t};
    if |deps - (done + {t})| == 0 {
      assert deps - (done + {t}) == {};
    }
  }

  lemma PartStart(g: ExecGraph, inDegree: map<string, int>, done: set<string>)
    requires Counts(g, inDegree, done)
    ensures PartCounts(g, inDegree, done, {})
  {
  }

  /** One dependent `d` of `t` loses its edge; it becomes ready exactly when its count reaches zero. */
  lemma PartStep(g: ExecGraph, inDegree: map<string, int>, done: set<string>, seen: set<string>, t: string, d: string)
    requires PartCounts(g, inDegree, done, seen)
    requires d in g.m && d !in seen && t in g.m[d].dependencies && t !in done
    ensures PartCounts(g, inDegree[d := inDegree[d] - 1], done, seen + {d})
    ensures inDegree[d] - 1 == 0 <==> Ready(g, d, done + {t})
  {
    DropOne(g.m[d].dependencies, done, t);
  }

  /** Once every dependent of `t` has lost its edge the table counts with `t` processed. */
  lemma PartDone(g: ExecGraph, inDegree: map<string, int>, done: set<string>, t: string)
    requires Linked(g) && t in g.m && t !in done
    requires PartCounts(g, inDegree, done, Elems(g.m[t].dependents))
    ensures Counts(g, inDegree, done + {t})
  {
    forall n | n in g.m
      ensures inDegree[n] == |g.m[n].dependencies - (done + {t})|
    {
      DependentFacts(g, t, n);
      if t in g.m[n].dependencies {
        DropOne(g.m[n].dependencies, done, t);
      } else {
        assert g.m[n].dependencies - (done + {t}) == g.m[n].dependencies - done;
      }
    }
  }

  /**
   * The innermost loop's state after the first `j` dependents of `t`:
   * those have lost their edge from `t`, and `released` holds the ones
   * among them that became ready, in order.
   */
  ghost predicate Releasing(g: ExecGraph, t: string, done: set<string>, inDegree: map<string, int>, j: int, released: seq<string>)
  {
    t in g.m && t !in done && 0 <= j <= |g.m[t].dependents| && Distinct(g.m[t].dependents)
    && (forall x :: x in g.m[t].dependents ==> x in g.m && t in g.m[x].dependencies)
    && PartCounts(g, inDegree, done, Elems(g.m[t].dependents[..j]))
    && released == ReadyAmong(g, g.m[t].dependents[..j], done + {t})
  }

  lemma ReleasingStart(g: ExecGraph, t: string, done: set<string>, inDegree: map<string, int>)
    requires Linked(g) && t in g.m && t !in done && Counts(g, inDegree, done)
    ensures Releasing(g, t, done, inDegree, 0, [])
  {
    DependentsFacts(g, t);
    PartStart(g, inDegree, done);
  }

  /** One turn of the innermost loop, over the `j`th dependent `d` of `t`. */
  lemma ReleasingStep(g: ExecGraph, t: string, done: set<string>, inDegree: map<string, int>, j: int, released: seq<string>)
    requires Releasing(g, t, done, inDegree, j, released) && j < |g.m[t].dependents|
    ensures g.m[t].dependents[j] in inDegree
    ensures var d := g.m[t].dependents[j];
      var count := inDegree[d := inDegree[d] - 1];
      Releasing(g, t, done, count, j + 1, if count[d] == 0 then released + [d] else released)
  {
    var ds := g.m[t].dependents;
    var d := ds[j];
    ElemsSnoc(ds, j);
    assert d !in ds[..j];
    PartStep(g, inDegree, done, Elems(ds[..j]), t, d);
    ReadyAmongSnoc(g, ds, j, done + {t});
  }

  lemma ReleasingDone(g: ExecGraph, t: string, done: set<string>, inDegree: map<string, int>, released: seq<string>)
    requires Linked(g) && t in g.m
    requires Releasing(g, t, done, inDegree, |g.m[t].dependents|, released)
    ensures Counts(g, inDegree, done + {t})
    ensures released == ReadyAmong(g, g.m[t].dependents, done + {t})
  {
    assert g.m[t].dependents[..|g.m[t].dependents|] == g.m[t].dependents;
    PartDone(g, inDegree, done, t);
  }

  /** The innermost loop: each dependent of `t` loses one, and those reaching zero are released in order. */
  method ReleaseDependents(g: ExecGraph, t: string, inDegree: map<string, int>, ghost done: set<string>)
    returns (inDegree': map<string, int>, released: seq<string>)
    requires Linked(g) && t in g.m && t !in done
    requires Counts(g, inDegree, done)
    ensures Counts(g, inDegree', done + {t})
    ensures released == ReadyAmong(g, g.m[t].dependents, done + {t})
  {
    var ds := g.m[t].dependents;
    ReleasingStart(g, t, done, inDegree);
    inDegree' := inDegree;
    released := [];
    var j := 0;
    while j < |ds|
      invariant Releasing(g, t, done, inDegree', j, released)
    {
      var d := ds[j];
      ReleasingStep(g, t, done, inDegree', j, released);
      inDegree' := inDegree'[d := inDegree'[d] - 1];
      if inDegree'[d] == 0 {
        released := released + [d];
      }
      j := j + 1;
    }
    ReleasingDone(g, t, done, inDegree', released);
  }

  /** The middle loop's state after the first `i` nodes of the level `cur`. */
  ghost predicate Leveling(g: ExecGraph, cur: seq<string>, done: set<string>, i: int, inDegree: map<string, int>, queue: seq<string>)
  {
    Linked(g) && Distinct(cur) && (forall n :: n in cur ==> n in g.m && n !in done) && 0 <= i <= |cur|
    && Counts(g, inDegree, done + Elems(cur[..i]))
    && queue == Released(g, cur[..i], done)
  }

  lemma {:induction false} LevelingStep(g: ExecGraph, cur: seq<string>, done: set<string>, i: int, inDegree: map<string, int>, queue: seq<string>,
                     inDegree': map<string, int>, released: seq<string>)
    requires Leveling(g, cur, done, i, inDegree, queue) && i < |cur|
    requires Counts(g, inDegree', done + Elems(cur[..i]) + {cur[i]})
    requires released == ReadyAmong(g, g.m[cur[i]].dependents, done + Elems(cur[..i]) + {cur[i]})
    ensures Leveling(g, cur, done, i + 1, inDegree', queue + released)
  {
    ElemsSnoc(cur, i);
    assert done + Elems(cur[..i + 1]) == done + Elems(cur[..i]) + {cur[i]};
    ReleasedSnoc(g, cur, i, done);
  }

  lemma LevelingDone(g: ExecGraph, cur: seq<string>, done: set<string>, inDegree: map<string, int>, queue: seq<string>)
    requires Leveling(g, cur, done, |cur|, inDegree, queue)
    ensures Counts(g, inDegree, done + Elems(cur))
    ensures queue == Released(g, cur, done)
  {
    assert cur[..|cur|] == cur;
  }

  /** The middle loop: the nodes of one level processed in order. */
  method ProcessLevel(g: ExecGraph, cur: seq<string>, inDegree: map<string, int>, ghost done: set<string>)
    returns (inDegree': map<string, int>, queue: seq<string>)
    requires Linked(g) && Distinct(cur)
    requires forall n :: n in cur ==> n in g.m && n !in done
    requires Counts(g, inDegree, done)
    ensures Counts(g, inDegree', done + Elems(cur))
    ensures queue == Released(g, cur, done)
  {
    inDegree' := inDegree;
    queue := [];
    var i := 0;
    assert Elems(cur[..0]) == {} && done + {} == done;
    while i < |cur|
      invariant Leveling(g, cur, done, i, inDegree', queue)
    {
      assert cur[i] in cur && cur[i] !in cur[..i];
      var counts, released := ReleaseDependents(g, cur[i], inDegree', done + Elems(cur[..i]));
      LevelingStep(g, cur, done, i, inDegree', queue, counts, released);
      inDegree' := counts;
      queue := queue + released;
      i := i + 1;
    }
    LevelingDone(g, cur, done, inDegree', queue);
  }

  lemma DistinctConcat(a: seq<string>, b: seq<string>)
    requires Distinct(a) && Distinct(b)
    requires forall x :: x in b ==> x !in a
    ensures Distinct(a + b)
  {
    forall i, j | 0 <= i < j < |a + b|
      ensures (a + b)[i] != (a + b)[j]
    {
      if j < |a| {
        assert (a + b)[i] == a[i] && (a + b)[j] == a[j];
      } else if i >= |a| {
        assert (a + b)[i] == b[i - |a|] && (a + b)[j] == b[j - |a|];
      } else {
        assert (a + b)[i] == a[i] && (a + b)[j] == b[j - |a|];
        assert b[j - |a|] in b;
      }
    }
  }

  /**
   * What one level releases: each node that the level made ready, once.
   * These are the nodes ready after the level that were not ready before.
   */
  lemma {:induction false} ReleasedExactly(g: ExecGraph, cur: seq<string>, done: set<string>)
    requires Linked(g) && Distinct(cur)
    requires forall n :: n in cur ==> n in g.m && n !in done
    ensures Distinct(Released(g, cur, done))
    ensures forall n :: n in Released(g, cur, done) <==> n in g.m && Ready(g, n, done + Elems(cur)) && !Ready(g, n, done)
  {
    if |cur| > 0 {
      var front := cur[..|cur| - 1];
      var t := cur[|cur| - 1];
      assert forall x :: x in front ==> x in cur;
      ReleasedExactly(g, front, done);
      var before := done + Elems(front);
      assert Elems(cur) == Elems(front) + {t};
      assert t !in front;
      var added := ReadyAmong(g, g.m[t].dependents, done + Elems(cur));
      forall n | n in added
        ensures n !in Released(g, front, done)
        ensures n in g.m && Ready(g, n, done + Elems(cur)) && !Ready(g, n, done)
      {
        DependentFacts(g, t, n);
        assert t in g.m[n].dependencies && t !in before;
      }
      forall n | n in g.m && Ready(g, n, done + Elems(cur)) && !Ready(g, n, done)
        ensures n in Released(g, front, done) || n in added
      {
        DependentFacts(g, t, n);
        if t !in g.m[n].dependencies {
          assert g.m[n].dependencies <= before;
        }
      }
      DistinctConcat(Released(g, front, done), added);
    }
  }

  /** The levels emitted so far, and the names they hold: none twice, each ready once its level was. */
  ghost predicate Emitted(g: ExecGraph, groups: seq<seq<string>>, done: set<string>)
  {
    done == Elems(Flat(groups)) && Distinct(Flat(groups))
    && (forall n :: n in done ==> n in g.m && Ready(g, n, done))
  }

  /** Each level is non-empty and lies after all the dependencies of its nodes. */
  ghost predicate Layered(g: ExecGraph, groups: seq<seq<string>>)
  {
    (forall l, k :: 0 <= l < |groups| && 0 <= k < |groups[l]| ==> groups[l][k] in g.m && g.m[groups[l][k]].dependencies <= Elems(Flat(groups[..l])))
    && (forall l :: 0 <= l < |groups| ==> groups[l] != [])
  }

  /** The queue holds, once each, exactly the unprocessed nodes whose dependencies are all processed. */
  ghost predicate Queued(g: ExecGraph, done: set<string>, queue: seq<string>)
  {
    Distinct(queue) && forall n :: n in queue <==> n in g.m && n !in done && Ready(g, n, done)
  }

  /** The sort's state between levels. */
  ghost predicate Progress(g: ExecGraph, groups: seq<seq<string>>, done: set<string>, queue: seq<string>)
  {
    Linked(g) && Emitted(g, groups, done) && Layered(g, groups) && Queued(g, done, queue)
    && (|groups| > 0 ==> groups[0] == Initial(g))
    && (|groups| == 0 ==> queue == Initial(g) && done == {})
  }

  lemma ProgressStart(g: ExecGraph)
    requires Linked(g)
    ensures Progress(g, [], {}, Initial(g))
  {
  }

  lemma FlatAppend(gs: seq<seq<string>>, cur: seq<string>)
    ensures Flat(gs + [cur]) == Flat(gs) + cur
    ensures forall l :: 0 <= l <= |gs| ==> (gs + [cur])[..l] == gs[..l]
  {
    assert (gs + [cur])[..|gs|] == gs;
  }

  lemma EmittedStep(g: ExecGraph, groups: seq<seq<string>>, done: set<string>, queue: seq<string>)
    requires Emitted(g, groups, done) && Queued(g, done, queue)
    ensures Emitted(g, groups + [queue], done + Elems(queue))
  {
    FlatAppend(groups, queue);
    DistinctConcat(Flat(groups), queue);
    assert Elems(Flat(groups) + queue) == done + Elems(queue);
  }

  lemma {:induction false} LayeredStep(g: ExecGraph, groups: seq<seq<string>>, done: set<string>, queue: seq<string>)
    requires Emitted(g, groups, done) && Layered(g, groups) && Queued(g, done, queue) && queue != []
    ensures Layered(g, groups + [queue])
  {
    var gs := groups + [queue];
    forall l, k | 0 <= l < |gs| && 0 <= k < |gs[l]|
      ensures gs[l][k] in g.m && g.m[gs[l][k]].dependencies <= Elems(Flat(gs[..l]))
    {
      if l == |groups| {
        NewLayer(g, groups, done, queue, k);
      } else {
        OldLayer(g, groups, queue, l, k);
      }
    }
    forall l | 0 <= l < |gs|
      ensures gs[l] != []
    {
      if l < |groups| {
        assert gs[l] == groups[l];
      }
    }
  }

  /** A level already emitted keeps its place when another is appended. */
  lemma OldLayer(g: ExecGraph, groups: seq<seq<string>>, queue: seq<string>, l: int, k: int)
    requires Layered(g, groups) && 0 <= l < |groups| && 0 <= k < |groups[l]|
    ensures (groups + [queue])[l][k] in g.m
    ensures g.m[(groups + [queue])[l][k]].dependencies <= Elems(Flat((groups + [queue])[..l]))
  {
    assert (groups + [queue])[..l] == groups[..l];
    assert (groups + [queue])[l] == groups[l];
  }

  /** The appended level lies after everything emitted before it. */
  lemma NewLayer(g: ExecGraph, groups: seq<seq<string>>, done: set<string>, queue: seq<string>, k: int)
    requires Emitted(g, groups, done) && Queued(g, done, queue) && 0 <= k < |queue|
    ensures (groups + [queue])[|groups|][k] in g.m
    ensures g.m[(groups + [queue])[|groups|][k]].dependencies <= Elems(Flat((groups + [queue])[..|groups|]))
  {
    assert (groups + [queue])[..|groups|] == groups;
    assert (groups + [queue])[|groups|] == queue;
    assert queue[k] in queue;
  }

  lemma QueuedStep(g: ExecGraph, groups: seq<seq<string>>, done: set<string>, queue: seq<string>)
    requires Linked(g) && Emitted(g, groups, done) && Queued(g, done, queue)
    ensures Queued(g, done + Elems(queue), Released(g, queue, done))
  {
    ReleasedExactly(g, queue, done);
  }

  lemma Shrinks(g: ExecGraph, done: set<string>, queue: seq<string>)
    requires Queued(g, done, queue) && queue != []
    ensures |g.m.Keys - (done + Elems(queue))| < |g.m.Keys - done|
  {
    var rest := g.m.Keys - (done + Elems(queue));
    assert queue[0] in g.m.Keys - done && queue[0] !in rest;
    SubsetCard(rest, g.m.Keys - done);
  }

  /** Emitting the queue as a level and queueing what it releases keeps the sort's state. */
  lemma ProgressStep(g: ExecGraph, groups: seq<seq<string>>, done: set<string>, queue: seq<string>)
    requires Progress(g, groups, done, queue) && queue != []
    ensures Progress(g, groups + [queue], done + Elems(queue), Released(g, queue, done))
    ensures |g.m.Keys - (done + Elems(queue))| < |g.m.Keys - done|
  {
    EmittedStep(g, groups, done, queue);
    LayeredStep(g, groups, done, queue);
    QueuedStep(g, groups, done, queue);
    Shrinks(g, done, queue);
  }

  /** With the queue empty, a node is emitted exactly when its dependencies are. */
  lemma ProgressEnd(g: ExecGraph, groups: seq<seq<string>>, done: set<string>)
    requires Progress(g, groups, done, [])
    ensures forall l, k :: 0 <= l < |groups| && 0 <= k < |groups[l]| ==> groups[l][k] in g.m && g.m[groups[l][k]].dependencies <= Elems(Flat(groups[..l]))
    ensures Distinct(Flat(groups))
    ensures forall n :: n in g.m ==> (n in Flat(groups) <==> g.m[n].dependencies <= Elems(Flat(groups)))
    ensures |groups| > 0 ==> groups[0] == Initial(g)
    ensures groups == [] <==> Initial(g) == []
    ensures forall l :: 0 <= l < |groups| ==> groups[l] != []
  {
    forall n | n in g.m
      ensures n in Flat(groups) <==> g.m[n].dependencies <= Elems(Flat(groups))
    {
      assert n !in [];
    }
    if groups != [] {
      assert groups[0] != [];
    }
  }

  /**
   * `analyze_dependencies`: Kahn's sort by levels. Every emitted node comes
   * strictly after all its dependencies, none twice; a node is emitted
   * exactly when all its dependencies are, so a node with a dependency
   * outside the graph or on a cycle never is; the first level is the
   * nodes without dependencies, in graph order.
   */
  method AnalyzeDependencies(g: ExecGraph) returns (groups: seq<seq<string>>)
    requires Linked(g)
    ensures forall l, k :: 0 <= l < |groups| && 0 <= k < |groups[l]| ==> groups[l][k] in g.m && g.m[groups[l][k]].dependencies <= Elems(Flat(groups[..l]))
    ensures Distinct(Flat(groups))
    ensures forall n :: n in g.m ==> (n in Flat(groups) <==> g.m[n].dependencies <= Elems(Flat(groups)))
    ensures |groups| > 0 ==> groups[0] == Initial(g)
    ensures groups == [] <==> Initial(g) == []
    ensures forall l :: 0 <= l < |groups| ==> groups[l] != []
  {
    var inDegree := Degrees(g);
    var queue := ReadyAmong(g, g.keys, {});
    groups := [];
    ghost var done: set<string> := {};
    ProgressStart(g);
    while queue != []
      invariant Progress(g, groups, done, queue)
      invariant Counts(g, inDegree, done)
      decreases |g.m.Keys - done|
    {
      ProgressStep(g, groups, done, queue);
      var cur := queue;
      inDegree, queue := ProcessLevel(g, cur, inDegree, done);
      groups := groups + [cur];
      done := done + Elems(cur);
    }
    ProgressEnd(g, groups, done);
  }

  /** The initial in-degree table: each node's number of dependencies. */
  method Degrees(g: ExecGraph) returns (inDegree: map<string, int>)
    requires Valid(g)
    ensures Counts(g, inDegree, {})
  {
    inDegree := map[];
    var i := 0;
    while i < |g.keys|
      invariant 0 <= i <= |g.keys|
      invariant forall n :: n in inDegree <==> n in g.keys[..i]
      invariant forall n :: n in inDegree ==> n in g.m && inDegree[n] == |g.m[n].dependencies|
    {
      assert forall x :: x in g.keys[..i + 1] <==> x in g.keys[..i] || x == g.keys[i];
      inDegree := inDegree[g.keys[i] := |g.m[g.keys[i]].dependencies|];
      i := i + 1;
    }
    assert g.keys[..i] == g.keys;
    forall n | n in g.m
      ensures n in inDegree && inDegree[n] == |g.m[n].dependencies - {}|
    {
      assert g.m[n].dependencies - {} == g.m[n].dependencies;
    }
  }
}
