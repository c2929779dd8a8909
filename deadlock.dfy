/**
 * The deadlock detector of the state transactions: a wait-for graph between
 * transactions, the depth-first search that reports cycles in it, the
 * choice of victims and the clean-up once a transaction ends.
 *
 * The graph maps each waiting transaction to the transactions it waits for.
 * Python keeps those as sets; here each is a duplicate-free sequence in
 * first-insertion order, which fixes the iteration order the search uses.
 */
module Deadlock {
  import opened Outcomes
  import opened Seqs
  import opened OrderedMaps
  import opened Text

  type Graph = ODict<seq<string>>

  predicate GraphOk(g: Graph)
  {
    Valid(g) && forall k :: k in g.m ==> Distinct(g.m[k])
  }

  /** `wait_graph.get(node, [])`. */
  function Successors(g: Graph, n: string): seq<string>
  {
    if n in g.m then g.m[n] else []
  }

  predicate Edge(g: Graph, a: string, b: string)
  {
    a in g.m && b in g.m[a]
  }

  /** Every transaction that waits or is waited for. */
  function Nodes(g: Graph): set<string>
  {
    g.m.Keys + set a, b | a in g.m && b in g.m[a] :: b
  }

  predicate IsPath(g: Graph, p: seq<string>)
  {
    forall i :: 0 <= i < |p| - 1 ==> Edge(g, p[i], p[i + 1])
  }

  /** A non-empty path whose last node waits for its first. */
  predicate IsCycle(g: Graph, c: seq<string>)
  {
    |c| > 0 && IsPath(g, c) && Edge(g, c[|c| - 1], c[0])
  }

  predicate AllCycles(g: Graph, cs: seq<seq<string>>)
  {
    forall c :: c in cs ==> IsCycle(g, c)
  }

  function Elems(p: seq<string>): set<string>
  {
    set x | x in p
  }

  // ---------------------------------------------------------------------
  // detect_deadlock
  // ---------------------------------------------------------------------

  /**
   * The search's mutable state: the visited set, the recursion-stack set,
   * the cycles found so far, and whether `current_path.index` has raised.
   */
  datatype Search = Search(visited: set<string>, stack: set<string>, cycles: seq<seq<string>>, failed: bool)

  /** No cycle of the graph passes through a finished node: one visited and off the recursion stack. */
  ghost predicate Quiet(g: Graph, s: Search)
  {
    forall c, i :: IsCycle(g, c) && 0 <= i < |c| ==> c[i] !in s.visited || c[i] in s.stack
  }

  /** Every node of a cycle waits for a node of the same cycle. */
  lemma NextOnCycle(g: Graph, c: seq<string>, i: int) returns (j: int)
    requires IsCycle(g, c) && 0 <= i < |c|
    ensures 0 <= j < |c| && Edge(g, c[i], c[j])
  {
    j := if i == |c| - 1 then 0 else i + 1;
  }

  lemma SuffixPath(g: Graph, p: seq<string>, j: nat)
    requires IsPath(g, p) && j <= |p|
    ensures IsPath(g, p[j..])
  {
    forall i | 0 <= i < |p| - j - 1
      ensures Edge(g, p[j..][i], p[j..][i + 1])
    {
      assert p[j..][i] == p[j + i] && p[j..][i + 1] == p[j + i + 1];
    }
  }

  /** The cycle closed by an edge from the end of `cur` back to `n`: `cur[cur.index(n):]`. */
  function CycleAt(g: Graph, cur: seq<string>, n: string): (c: seq<string>)
    requires IsPath(g, cur) && n in cur && Edge(g, cur[|cur| - 1], n)
    ensures IsCycle(g, c) && c[0] == n
  {
    var j := IndexOf(cur, n);
    SuffixPath(g, cur, j);
    cur[j..]
  }

  /**
   * `dfs(node, path)`. With `pop` false it is the code as written, which on
   * finding a cycle returns without taking `node` off the recursion stack;
   * with `pop` true the node is taken off on every return.
   */
  function Dfs(g: Graph, pop: bool, node: string, path: seq<string>, s: Search): (r: (bool, Search))
    requires node in Nodes(g) && node !in s.visited && s.visited <= Nodes(g) && !s.failed
    requires Elems(path) <= s.visited && IsPath(g, path + [node])
    requires pop ==> s.stack == Elems(path)
    ensures s.visited + {node} <= r.1.visited <= Nodes(g)
    ensures r.1.failed ==> r.0
    ensures AllCycles(g, s.cycles) ==> AllCycles(g, r.1.cycles)
    ensures pop ==> r.1.stack == s.stack && !r.1.failed
    decreases |Nodes(g) - s.visited|, 0, 0
  {
    var s1 := s.(visited := s.visited + {node}, stack := s.stack + {node});
    var cur := path + [node];
    SubsetCard(Nodes(g) - s1.visited, Nodes(g) - s.visited);
    var (found, s2) := Scan(g, pop, cur, Successors(g, node), 0, s1);
    if found && !pop then (true, s2) else (found, s2.(stack := s2.stack - {node}))
  }

  /**
   * The corrected search from `node` never drops a reported cycle, records
   * one whenever it reports finding one, and otherwise leaves the search
   * quiet.
   */
  lemma {:induction false} DfsQuiet(g: Graph, node: string, path: seq<string>, s: Search)
    requires node in Nodes(g) && node !in s.visited && s.visited <= Nodes(g) && !s.failed
    requires Elems(path) <= s.visited && IsPath(g, path + [node])
    requires s.stack == Elems(path)
    ensures var r := Dfs(g, true, node, path, s);
      |s.cycles| <= |r.1.cycles| && (r.0 ==> r.1.cycles != []) && (!r.0 && Quiet(g, s) ==> Quiet(g, r.1))
    decreases |Nodes(g) - s.visited|, 0, 0
  {
    var s1 := s.(visited := s.visited + {node}, stack := s.stack + {node});
    var cur := path + [node];
    SubsetCard(Nodes(g) - s1.visited, Nodes(g) - s.visited);
    ScanQuiet(g, cur, Successors(g, node), 0, s1);
    ScanFinished(g, cur, Successors(g, node), 0, s1);
    var s2 := Scan(g, true, cur, Successors(g, node), 0, s1).1;
    assert Quiet(g, s) ==> Quiet(g, s1);
    FinishQuiet(g, node, s2);
  }

  /**
   * Finishing `node` keeps the search quiet: every node it waits for was
   * already finished, and no cycle passes through those.
   */
  lemma FinishQuiet(g: Graph, node: string, s2: Search)
    ensures Quiet(g, s2) && (forall y :: y in Successors(g, node) ==> y in s2.visited && y !in s2.stack)
        ==> Quiet(g, s2.(stack := s2.stack - {node}))
  {
    if !(Quiet(g, s2) && forall y :: y in Successors(g, node) ==> y in s2.visited && y !in s2.stack) {
      return;
    }
    var r := s2.(stack := s2.stack - {node});
    forall c, i | IsCycle(g, c) && 0 <= i < |c|
      ensures c[i] !in r.visited || c[i] in r.stack
    {
      if c[i] == node {
        var j := NextOnCycle(g, c, i);
      }
    }
  }

  /** The loop of `dfs` over the successors `nbrs` of the last node of `cur`, from position `i`. */
  function Scan(g: Graph, pop: bool, cur: seq<string>, nbrs: seq<string>, i: nat, s: Search): (r: (bool, Search))
    requires |cur| > 0 && IsPath(g, cur) && nbrs == Successors(g, cur[|cur| - 1]) && i <= |nbrs|
    requires s.visited <= Nodes(g) && Elems(cur) <= s.visited && !s.failed
    requires pop ==> s.stack == Elems(cur)
    ensures s.visited <= r.1.visited <= Nodes(g)
    ensures r.1.failed ==> r.0
    ensures AllCycles(g, s.cycles) ==> AllCycles(g, r.1.cycles)
    ensures pop ==> r.1.stack == s.stack && !r.1.failed
    decreases |Nodes(g) - s.visited|, 1, |nbrs| - i
  {
    if i == |nbrs| then (false, s)
    else
      var n := nbrs[i];
      assert Edge(g, cur[|cur| - 1], n);
      assert IsPath(g, cur + [n]);
      if n !in s.visited then
        var (found, s1) := Dfs(g, pop, n, cur, s);
        SubsetCard(Nodes(g) - s1.visited, Nodes(g) - s.visited);
        if found then (true, s1) else Scan(g, pop, cur, nbrs, i + 1, s1)
      else if n in s.stack then
        if n in cur then (true, s.(cycles := s.cycles + [CycleAt(g, cur, n)]))
        else (true, s.(failed := true))
      else Scan(g, pop, cur, nbrs, i + 1, s)
  }

  /** When the corrected loop over the successors reports no cycle, every successor from position `i` on is finished. */
  lemma {:induction false} ScanFinished(g: Graph, cur: seq<string>, nbrs: seq<string>, i: nat, s: Search)
    requires |cur| > 0 && IsPath(g, cur) && nbrs == Successors(g, cur[|cur| - 1]) && i <= |nbrs|
    requires s.visited <= Nodes(g) && Elems(cur) <= s.visited && !s.failed
    requires s.stack == Elems(cur)
    ensures var r := Scan(g, true, cur, nbrs, i, s);
      !r.0 ==> forall j :: i <= j < |nbrs| ==> nbrs[j] in r.1.visited && nbrs[j] !in r.1.stack
    decreases |nbrs| - i
  {
    if i < |nbrs| {
      var n := nbrs[i];
      assert Edge(g, cur[|cur| - 1], n);
      assert IsPath(g, cur + [n]);
      if n !in s.visited {
        var s1 := Dfs(g, true, n, cur, s).1;
        ScanFinished(g, cur, nbrs, i + 1, s1);
      } else if n !in s.stack {
        ScanFinished(g, cur, nbrs, i + 1, s);
      }
    }
  }

  /**
   * The corrected loop over the successors never drops a reported cycle,
   * records one whenever it reports finding one, and otherwise leaves the
   * search quiet.
   */
  lemma {:induction false} ScanQuiet(g: Graph, cur: seq<string>, nbrs: seq<string>, i: nat, s: Search)
    requires |cur| > 0 && IsPath(g, cur) && nbrs == Successors(g, cur[|cur| - 1]) && i <= |nbrs|
    requires s.visited <= Nodes(g) && Elems(cur) <= s.visited && !s.failed
    requires s.stack == Elems(cur)
    ensures var r := Scan(g, true, cur, nbrs, i, s);
      |s.cycles| <= |r.1.cycles| && (r.0 ==> r.1.cycles != []) && (!r.0 && Quiet(g, s) ==> Quiet(g, r.1))
    decreases |Nodes(g) - s.visited|, 1, |nbrs| - i
  {
    if i < |nbrs| {
      var n := nbrs[i];
      assert Edge(g, cur[|cur| - 1], n);
      assert IsPath(g, cur + [n]);
      if n !in s.visited {
        DfsQuiet(g, n, cur, s);
        var s1 := Dfs(g, true, n, cur, s).1;
        SubsetCard(Nodes(g) - s1.visited, Nodes(g) - s.visited);
        ScanQuiet(g, cur, nbrs, i + 1, s1);
      } else if n !in s.stack {
        ScanQuiet(g, cur, nbrs, i + 1, s);
      }
    }
  }

  /** The outer loop: a search from every key of the graph not yet visited, in key order. */
  function Roots(g: Graph, pop: bool, i: nat, s: Search): (r: Search)
    requires Valid(g) && i <= |g.keys| && s.visited <= Nodes(g)
    requires pop ==> s.stack == {} && !s.failed
    ensures AllCycles(g, s.cycles) ==> AllCycles(g, r.cycles)
    ensures pop ==> r.stack == {} && !r.failed
    decreases |g.keys| - i
  {
    if i == |g.keys| || s.failed then s
    else if g.keys[i] in s.visited then Roots(g, pop, i + 1, s)
    else
      assert Elems([]) == {};
      Roots(g, pop, i + 1, Dfs(g, pop, g.keys[i], [], s).1)
  }

  /** The corrected outer loop never drops a reported cycle, and when it reports none it leaves the search quiet. */
  lemma {:induction false} RootsQuiet(g: Graph, i: nat, s: Search)
    requires Valid(g) && i <= |g.keys| && s.visited <= Nodes(g) && s.stack == {} && !s.failed
    ensures var r := Roots(g, true, i, s);
      |s.cycles| <= |r.cycles| && (r.cycles == [] && Quiet(g, s) ==> Quiet(g, r))
    decreases |g.keys| - i
  {
    if i == |g.keys| {
      assert Roots(g, true, i, s) == s;
    } else if g.keys[i] in s.visited {
      assert Roots(g, true, i, s) == Roots(g, true, i + 1, s);
      RootsQuiet(g, i + 1, s);
    } else {
      var s1 := RootStep(g, i, s);
      RootsQuiet(g, i + 1, s1);
    }
  }

  /** The corrected outer loop finishes every key. */
  lemma {:induction false} RootsVisitAll(g: Graph, i: nat, s: Search)
    requires Valid(g) && i <= |g.keys| && s.visited <= Nodes(g) && s.stack == {} && !s.failed
    requires forall j :: 0 <= j < i ==> g.keys[j] in s.visited
    ensures forall k :: k in g.m ==> k in Roots(g, true, i, s).visited
    decreases |g.keys| - i
  {
    if i == |g.keys| {
      forall k | k in g.m ensures k in s.visited {
        assert k in g.keys;
      }
    } else if g.keys[i] in s.visited {
      RootsVisitAll(g, i + 1, s);
    } else {
      var s1 := RootStep(g, i, s);
      RootsVisitAll(g, i + 1, s1);
    }
  }

  /** One search from an unvisited key, as the corrected outer loop runs it. */
  lemma RootStep(g: Graph, i: nat, s: Search) returns (s1: Search)
    requires Valid(g) && i < |g.keys| && s.visited <= Nodes(g) && s.stack == {} && !s.failed
    requires g.keys[i] !in s.visited
    ensures s1 == Dfs(g, true, g.keys[i], [], s).1 && Roots(g, true, i, s) == Roots(g, true, i + 1, s1)
    ensures s1.visited <= Nodes(g) && s1.stack == {} && !s1.failed
    ensures s.visited + {g.keys[i]} <= s1.visited && |s.cycles| <= |s1.cycles|
    ensures s1.cycles == [] && Quiet(g, s) ==> Quiet(g, s1)
  {
    assert Elems([]) == {};
    DfsQuiet(g, g.keys[i], [], s);
    s1 := Dfs(g, true, g.keys[i], [], s).1;
  }

  /**
   * Once every key is finished without a cycle reported, the graph has no
   * cycle: a cycle's first node waits for someone, so it is a key.
   */
  lemma QuietEnd(g: Graph, s: Search)
    ensures Quiet(g, s) && s.stack == {} && (forall k :: k in g.m ==> k in s.visited)
        ==> forall c :: !IsCycle(g, c)
  {
    if Quiet(g, s) && s.stack == {} && forall k :: k in g.m ==> k in s.visited {
      forall c
        ensures !IsCycle(g, c)
      {
        if IsCycle(g, c) {
          var j := NextOnCycle(g, c, 0);
        }
      }
    }
  }

  /**
   * `detect_deadlock()`: the cycles found, or the `ValueError` that
   * `current_path.index` raises. The corrected search never raises, every
   * cycle it reports is a cycle of the graph, and it reports one exactly
   * when the graph has a cycle.
   */
  function Detect(g: Graph, pop: bool): (r: Result<seq<seq<string>>>)
    requires Valid(g)
    ensures pop ==> r.Ok? && AllCycles(g, r.value)
    ensures pop ==> ((exists c :: IsCycle(g, c)) <==> r.value != [])
  {
    var s0 := Search({}, {}, [], false);
    assert Quiet(g, s0);
    var s := Roots(g, pop, 0, s0);
    RootsQuiet(g, 0, s0);
    RootsVisitAll(g, 0, s0);
    QuietEnd(g, s);
    assert s.cycles != [] ==> IsCycle(g, s.cycles[0]);
    if s.failed then Err("ValueError: node is not in the current path") else Ok(s.cycles)
  }

  /** The cycles the corrected search reports: some exactly when the graph has a cycle. */
  function DetectCycles(g: Graph): (cs: seq<seq<string>>)
    requires Valid(g)
    ensures AllCycles(g, cs)
    ensures (exists c :: IsCycle(g, c)) <==> cs != []
  {
    Detect(g, true).value
  }

  /**
   * A wait-for graph the transaction manager builds when A waits for B,
   * then C waits for A, then B waits for A.
   */
  function StaleSample(): Graph
  {
    ODict(["A", "C", "B"], map["A" := ["B"], "C" := ["A"], "B" := ["A"]])
  }

  lemma StaleNodes()
    ensures Nodes(StaleSample()) == {"A", "B", "C"}
  {
    assert "B" in StaleSample().m["A"];
  }

  /** From B the search meets A on its own path: the cycle A, B. */
  lemma SearchFromB(pop: bool)
    ensures Scan(StaleSample(), pop, ["A", "B"], ["A"], 0, Search({"A", "B"}, {"A", "B"}, [], false))
         == (true, Search({"A", "B"}, {"A", "B"}, [["A", "B"]], false))
  {
    var g := StaleSample();
    StaleNodes();
    var s2 := Search({"A", "B"}, {"A", "B"}, [], false);
    assert IsPath(g, ["A", "B"]) && Successors(g, "B") == ["A"];
    assert CycleAt(g, ["A", "B"], "A") == ["A", "B"];
    var r := Scan(g, pop, ["A", "B"], ["A"], 0, s2);
    assert r.0 && r.1.visited == s2.visited;
    assert r.1.cycles == [["A", "B"]];
    assert r.1.stack == s2.stack && !r.1.failed;
  }

  /** The search from A, as written and corrected: both report the cycle A, B. */
  lemma SearchFromA(pop: bool)
    ensures Dfs(StaleSample(), pop, "A", [], Search({}, {}, [], false))
         == (true, Search({"A", "B"}, if pop then {} else {"A", "B"}, [["A", "B"]], false))
  {
    var g := StaleSample();
    StaleNodes();
    SearchFromB(pop);
    assert [] + ["A"] == ["A"] && ["A"] + ["B"] == ["A", "B"];
    var s1 := Search({"A"}, {"A"}, [], false);
    var s2 := Search({"A", "B"}, {"A", "B"}, [], false);
    var s3 := s2.(cycles := [["A", "B"]]);
    assert s1.(visited := s1.visited + {"B"}, stack := s1.stack + {"B"}) == s2;
    var b := Dfs(g, pop, "B", ["A"], s1);
    assert b == (true, if pop then s3.(stack := {"A"}) else s3);
    assert Scan(g, pop, ["A"], ["B"], 0, s1) == b;
    assert Search({}, {}, [], false).(visited := {} + {"A"}, stack := {} + {"A"}) == s1;
  }

  /**
   * As written, the search from A reports the cycle A, B and leaves both on
   * the recursion stack; the search from C then meets A on the stack but not
   * on its own path, and `current_path.index` raises.
   */
  lemma StaleStackRaises()
    ensures Detect(StaleSample(), false).Err?
  {
    var g := StaleSample();
    StaleNodes();
    SearchFromA(false);
    var s0 := Search({}, {}, [], false);
    var s3 := Search({"A", "B"}, {"A", "B"}, [["A", "B"]], false);
    assert Roots(g, false, 0, s0) == Roots(g, false, 1, s3);
    var s4 := s3.(visited := {"A", "B", "C"}, stack := {"A", "B", "C"});
    assert [] + ["C"] == ["C"];
    assert Scan(g, false, ["C"], ["A"], 0, s4) == (true, s4.(failed := true));
    assert s3.(visited := s3.visited + {"C"}, stack := s3.stack + {"C"}) == s4;
    assert Dfs(g, false, "C", [], s3) == (true, s4.(failed := true));
    assert Roots(g, false, 1, s3) == Roots(g, false, 2, s4.(failed := true));
  }

  /** With the node taken off the stack on every return, the same graph yields the cycle A, B. */
  lemma StaleSampleCorrected()
    ensures Detect(StaleSample(), true) == Ok([["A", "B"]])
  {
    var g := StaleSample();
    StaleNodes();
    SearchFromA(true);
    var s0 := Search({}, {}, [], false);
    var s4 := Search({"A", "B"}, {}, [["A", "B"]], false);
    assert Roots(g, true, 0, s0) == Roots(g, true, 1, s4);
    CorrectedAfterA();
  }

  /** After A, the corrected search visits C, finds nothing more, and ends. */
  lemma CorrectedAfterA()
    requires Nodes(StaleSample()) == {"A", "B", "C"}
    ensures Roots(StaleSample(), true, 1, Search({"A", "B"}, {}, [["A", "B"]], false))
            == Search({"A", "B", "C"}, {}, [["A", "B"]], false)
  {
    var g := StaleSample();
    var s4 := Search({"A", "B"}, {}, [["A", "B"]], false);
    var s6 := Search({"A", "B", "C"}, {}, [["A", "B"]], false);
    CorrectedFromC();
    assert Roots(g, true, 1, s4) == Roots(g, true, 2, s6);
    assert Roots(g, true, 2, s6) == Roots(g, true, 3, s6);
  }

  /** The corrected search from C, after A and B: C is visited, finds nothing, and leaves the stack. */
  lemma CorrectedFromC()
    ensures Dfs(StaleSample(), true, "C", [], Search({"A", "B"}, {}, [["A", "B"]], false))
            == (false, Search({"A", "B", "C"}, {}, [["A", "B"]], false))
  {
    var g := StaleSample();
    StaleNodes();
    var s4 := Search({"A", "B"}, {}, [["A", "B"]], false);
    var s5 := s4.(visited := {"A", "B", "C"}, stack := {"C"});
    assert [] + ["C"] == ["C"];
    assert Scan(g, true, ["C"], ["A"], 1, s5) == (false, s5);
    assert Scan(g, true, ["C"], ["A"], 0, s5) == (false, s5);
    var s6 := s5.(stack := {});
    assert s4.(visited := s4.visited + {"C"}, stack := s4.stack + {"C"}) == s5;
    assert s5.(stack := s5.stack - {"C"}) == s6;
  }

  // ---------------------------------------------------------------------
  // add_wait_edge, remove_wait_edge
  // ---------------------------------------------------------------------

  /** `s.add(x)` on a set kept in insertion order. */
  function AddTo(xs: seq<string>, x: string): (r: seq<string>)
    ensures forall y :: y in r <==> y in xs || y == x
    ensures Distinct(xs) ==> Distinct(r)
  {
    if x in xs then xs else xs + [x]
  }

  /** The graph once `waiting` also waits for `holding`; nothing else changes. */
  function WithEdge(g: Graph, waiting: string, holding: string): (r: Graph)
    requires GraphOk(g)
    ensures GraphOk(r)
    ensures forall a, b :: Edge(r, a, b) <==> Edge(g, a, b) || (a == waiting && b == holding)
    ensures r.keys == if waiting in g.m then g.keys else g.keys + [waiting]
  {
    Put(g, waiting, AddTo(Successors(g, waiting), holding))
  }

  /** `resource_locks[resource].add(holding)`: only that resource's holder set changes. */
  function WithResource(res: map<string, set<string>>, resource: string, holding: string): (r: map<string, set<string>>)
    ensures resource in r && holding in r[resource]
    ensures forall k :: k in r && k != resource ==> k in res && r[k] == res[k]
    ensures forall k :: k in res ==> k in r && res[k] <= r[k]
  {
    res[resource := (if resource in res then res[resource] else {}) + {holding}]
  }

  /** The graph without the edge from `waiting` to `holding`, dropping `waiting` once it waits for nothing. */
  function WithoutEdge(g: Graph, waiting: string, holding: string): (r: Graph)
    requires GraphOk(g)
    ensures GraphOk(r)
    ensures forall a, b :: Edge(r, a, b) <==> Edge(g, a, b) && !(a == waiting && b == holding)
    ensures waiting in r.m ==> r.m[waiting] != []
    ensures forall k :: k in r.m ==> k in g.m
  {
    if waiting in g.m then
      var rest := Without(g.m[waiting], holding);
      WithoutDistinct(g.m[waiting], holding);
      if rest == [] then Remove(g, waiting) else Put(g, waiting, rest)
    else g
  }

  // ---------------------------------------------------------------------
  // resolve_deadlock
  // ---------------------------------------------------------------------

  /** `max(cycle)`: the lexicographically largest transaction, the first such. */
  function Victim(c: seq<string>): (v: string)
    requires |c| > 0
    ensures v in c
    ensures forall x :: x in c ==> !LexLess(v, x)
  {
    LexMaxIndexIsFirstMax(c);
    c[LexMaxIndex(c)]
  }

  /** The victims, one per non-empty cycle, in the order of the cycles. */
  function Victims(cs: seq<seq<string>>): (vs: seq<string>)
    ensures |vs| <= |cs|
    ensures forall c :: c in cs && c != [] ==> Victim(c) in vs
    ensures forall v :: v in vs ==> exists c :: c in cs && c != [] && v == Victim(c)
  {
    if |cs| == 0 then []
    else
      var front := cs[..|cs| - 1];
      var last := cs[|cs| - 1];
      assert forall c :: c in cs ==> c in front || c == last;
      Victims(front) + (if last == [] then [] else [Victim(last)])
  }

  /** The graph without the victim's own entry and without every edge to it; emptied entries stay. */
  function DropVictim(g: Graph, v: string): (r: Graph)
    requires GraphOk(g)
    ensures GraphOk(r)
    ensures forall a, b :: Edge(r, a, b) <==> Edge(g, a, b) && a != v && b != v
    ensures r.keys == Without(g.keys, v)
  {
    var d := Remove(g, v);
    assert forall n :: n in d.m ==> Distinct(Without(d.m[n], v)) by {
      forall n | n in d.m
        ensures Distinct(Without(d.m[n], v))
      {
        WithoutDistinct(d.m[n], v);
      }
    }
    ODict(d.keys, map n | n in d.m :: Without(d.m[n], v))
  }

  /** The victims dropped one after the other. */
  function DropAll(g: Graph, vs: seq<string>): (r: Graph)
    requires GraphOk(g)
    ensures GraphOk(r)
    ensures forall a, b :: Edge(r, a, b) <==> Edge(g, a, b) && a !in vs && b !in vs
  {
    if |vs| == 0 then g
    else
      var front := vs[..|vs| - 1];
      assert forall x :: x in vs <==> x in front || x == vs[|vs| - 1];
      DropVictim(DropAll(g, front), vs[|vs| - 1])
  }

  lemma VictimsStep(cs: seq<seq<string>>, i: nat)
    requires i < |cs|
    ensures Victims(cs[..i + 1]) == Victims(cs[..i]) + (if cs[i] == [] then [] else [Victim(cs[i])])
  {
    assert cs[..i + 1][..i] == cs[..i];
  }

  lemma DropAllStep(g: Graph, vs: seq<string>, v: string)
    requires GraphOk(g)
    ensures DropAll(g, vs + [v]) == DropVictim(DropAll(g, vs), v)
  {
    assert (vs + [v])[..|vs|] == vs;
  }

  /** Once the victims are dropped, none of the reported cycles is left in the graph. */
  lemma ResolveBreaksCycles(g: Graph, cs: seq<seq<string>>)
    requires GraphOk(g)
    ensures forall c :: c in cs && c != [] ==> !IsCycle(DropAll(g, Victims(cs)), c)
  {
    var r := DropAll(g, Victims(cs));
    forall c | c in cs && c != []
      ensures !IsCycle(r, c)
    {
      var v := Victim(c);
      var j :| 0 <= j < |c| && c[j] == v;
      if j < |c| - 1 {
        assert !Edge(r, c[j], c[j + 1]);
      } else {
        assert !Edge(r, c[|c| - 1], c[0]);
      }
    }
  }

  // ---------------------------------------------------------------------
  // cleanup_transaction
  // ---------------------------------------------------------------------

  /** One round of the clean-up loop: `node` stops waiting for `tx` and goes once it waits for nothing. */
  function PurgeStep(d: Graph, node: string, tx: string): (r: Graph)
    requires GraphOk(d) && node in d.m
    ensures GraphOk(r)
    ensures forall k :: k in r.m <==> k in d.m && (k == node ==> Without(d.m[node], tx) != [])
    ensures forall k :: k in r.m ==> r.m[k] == if k == node then Without(d.m[node], tx) else d.m[k]
  {
    var rest := Without(d.m[node], tx);
    WithoutDistinct(d.m[node], tx);
    if rest == [] then Remove(d, node) else Put(d, node, rest)
  }

  lemma DistinctFront(ks: seq<string>)
    requires Distinct(ks) && |ks| > 0
    ensures Distinct(ks[..|ks| - 1]) && ks[|ks| - 1] !in ks[..|ks| - 1]
    ensures forall k :: k in ks <==> k in ks[..|ks| - 1] || k == ks[|ks| - 1]
  {
    assert ks == ks[..|ks| - 1] + [ks[|ks| - 1]];
  }

  /** The clean-up loop over the keys `ks`. */
  function PurgeKeys(d: Graph, ks: seq<string>, tx: string): (r: Graph)
    requires GraphOk(d) && Distinct(ks) && forall k :: k in ks ==> k in d.m
    ensures GraphOk(r)
    ensures forall k :: k in r.m <==> k in d.m && (k in ks ==> Without(d.m[k], tx) != [])
    ensures forall k :: k in r.m ==> r.m[k] == if k in ks then Without(d.m[k], tx) else d.m[k]
  {
    if |ks| == 0 then d
    else
      var front := ks[..|ks| - 1];
      DistinctFront(ks);
      PurgeStep(PurgeKeys(d, front, tx), ks[|ks| - 1], tx)
  }

  /**
   * The graph after `cleanup_transaction(tx)`: no edge leaves or reaches
   * `tx`, every other edge stays, and no transaction is left waiting for
   * nothing.
   */
  function Purged(g: Graph, tx: string): (r: Graph)
    requires GraphOk(g)
    ensures GraphOk(r)
    ensures forall a, b :: Edge(r, a, b) <==> Edge(g, a, b) && a != tx && b != tx
    ensures forall k :: k in r.m ==> r.m[k] != []
  {
    var d := Remove(g, tx);
    PurgeKeys(d, d.keys, tx)
  }

  lemma PurgeKeysStep(d: Graph, ks: seq<string>, i: nat, tx: string)
    requires GraphOk(d) && ks == d.keys && i < |ks|
    ensures Distinct(ks[..i]) && ks[i] in PurgeKeys(d, ks[..i], tx).m
    ensures PurgeKeys(d, ks[..i + 1], tx) == PurgeStep(PurgeKeys(d, ks[..i], tx), ks[i], tx)
  {
    var p := ks[..i + 1];
    assert p[..|p| - 1] == ks[..i];
    assert p[|p| - 1] == ks[i];
    assert ks[i] !in ks[..i];
  }

  /** The resource table once `tx` is discarded from every resource whose set is listed in `done`. */
  function PurgedLocks(locks: map<string, set<string>>, tx: string, done: set<string>): (r: map<string, set<string>>)
    ensures forall k :: k in r <==> k in locks && (k in done ==> locks[k] - {tx} != {})
    ensures forall k :: k in r && k in done ==> tx !in r[k]
  {
    map k | k in locks && (k in done ==> locks[k] - {tx} != {}) :: if k in done then locks[k] - {tx} else locks[k]
  }

  lemma PurgedLocksStep(locks: map<string, set<string>>, tx: string, done: set<string>, r: string)
    requires r in locks && r !in done
    ensures PurgedLocks(locks, tx, done + {r})
         == if locks[r] - {tx} == {} then PurgedLocks(locks, tx, done) - {r}
            else PurgedLocks(locks, tx, done)[r := locks[r] - {tx}]
  {
  }

  class DeadlockDetector {
    var graph: Graph
    var resourceLocks: map<string, set<string>>

    ghost predicate Invariant()
      reads this
    {
      GraphOk(graph)
    }

    constructor()
      ensures Invariant()
      ensures graph == Empty() && resourceLocks == map[]
    {
      graph := Empty();
      resourceLocks := map[];
    }

    /** `add_wait_edge`: the waiting transaction now waits for the holder, which is recorded on the resource. */
    method AddWaitEdge(waiting: string, holding: string, resource: string)
      requires Invariant()
      modifies this
      ensures Invariant()
      ensures graph == WithEdge(old(graph), waiting, holding)
      ensures resourceLocks == WithResource(old(resourceLocks), resource, holding)
    {
      graph := WithEdge(graph, waiting, holding);
      var holders := if resource in resourceLocks then resourceLocks[resource] else {};
      resourceLocks := resourceLocks[resource := holders + {holding}];
    }

    /** `remove_wait_edge`. */
    method RemoveWaitEdge(waiting: string, holding: string)
      requires Invariant()
      modifies `graph
      ensures Invariant()
      ensures graph == WithoutEdge(old(graph), waiting, holding)
    {
      graph := WithoutEdge(graph, waiting, holding);
    }

    /**
     * `resolve_deadlock`: one victim per non-empty cycle, each dropped from
     * the graph as soon as it is chosen.
     */
    method ResolveDeadlock(cycles: seq<seq<string>>) returns (victims: seq<string>)
      requires Invariant()
      modifies `graph
      ensures Invariant()
      ensures victims == Victims(cycles)
      ensures graph == DropAll(old(graph), victims)
    {
      ghost var g0 := graph;
      victims := [];
      var i := 0;
      while i < |cycles|
        invariant 0 <= i <= |cycles|
        invariant GraphOk(graph)
        invariant victims == Victims(cycles[..i])
        invariant graph == DropAll(g0, victims)
      {
        var cycle := cycles[i];
        VictimsStep(cycles, i);
        if cycle != [] {
          var victim := Victim(cycle);
          DropAllStep(g0, victims, victim);
          victims := victims + [victim];
          graph := DropVictim(graph, victim);
        }
        i := i + 1;
      }
      assert cycles[..i] == cycles;
    }

    /** `cleanup_transaction`: forget every edge and resource entry of `tx`. */
    method CleanupTransaction(tx: string)
      requires Invariant()
      modifies this
      ensures Invariant()
      ensures graph == Purged(old(graph), tx)
      ensures resourceLocks == PurgedLocks(old(resourceLocks), tx, old(resourceLocks).Keys)
    {
      PurgeWaits(tx);
      PurgeResources(tx);
    }

    /** The wait-graph half of the clean-up: the loop over the remaining keys, in order. */
    method PurgeWaits(tx: string)
      requires Invariant()
      modifies `graph
      ensures Invariant()
      ensures graph == Purged(old(graph), tx)
    {
      graph := Remove(graph, tx);
      ghost var d := graph;
      var ks := graph.keys;
      var i := 0;
      while i < |ks|
        invariant 0 <= i <= |ks|
        invariant graph == PurgeKeys(d, ks[..i], tx)
      {
        PurgeKeysStep(d, ks, i, tx);
        var node := ks[i];
        var rest := Without(graph.m[node], tx);
        WithoutDistinct(graph.m[node], tx);
        if rest == [] {
          graph := Remove(graph, node);
        } else {
          graph := Put(graph, node, rest);
        }
        i := i + 1;
      }
      assert ks[..i] == ks;
    }

    /** The resource half: `tx` leaves every holder set, and emptied sets go. */
    method PurgeResources(tx: string)
      modifies `resourceLocks
      ensures resourceLocks == PurgedLocks(old(resourceLocks), tx, old(resourceLocks).Keys)
    {
      var locks := resourceLocks;
      var remaining := resourceLocks.Keys;
      while remaining != {}
        invariant remaining <= locks.Keys
        invariant resourceLocks == PurgedLocks(locks, tx, locks.Keys - remaining)
        decreases remaining
      {
        var r :| r in remaining;
        PurgedLocksStep(locks, tx, locks.Keys - remaining, r);
        var holders := locks[r] - {tx};
        if holders == {} {
          resourceLocks := resourceLocks - {r};
        } else {
          resourceLocks := resourceLocks[r := holders];
        }
        remaining := remaining - {r};
      }
      assert locks.Keys - remaining == locks.Keys;
    }
  }
}
