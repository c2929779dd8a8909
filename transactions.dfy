/**
 * The transaction manager of the state transactions: begin, read, write,
 * delete, commit and abort over a key-value store, with per-key lock
 * holders, a wait-for graph for deadlock detection, and statistics.
 *
 * Each operation is a function on `Tables`, the whole state the manager
 * and its deadlock detector keep; the class at the end performs the same
 * steps on its fields and is proved to end in the state the function
 * gives. `TablesOk` is the lock discipline the functions preserve.
 */
module Transactions {
  import opened Outcomes
  import opened Seqs
  import opened OrderedMaps
  import opened Deadlock

  datatype Status = Pending | Active | Preparing | Committed | Aborted | Failed

  datatype Isolation = ReadUncommitted | ReadCommitted | RepeatableRead | Serializable

  /**
   * A buffered operation: a read with the value it saw, or a write or a
   * delete with the value the key held when it was issued.
   */
  datatype Op<V> =
    | ReadOp(key: string, seen: Option<V>)
    | WriteOp(key: string, value: V, oldValue: Option<V>)
    | DeleteOp(key: string, oldValue: Option<V>)

  datatype Transaction<V> = Transaction(
    id: string,
    operations: seq<Op<V>>,
    status: Status,
    isolation: Isolation,
    createdAt: real,
    startedAt: Option<real>,
    committedAt: Option<real>,
    timeout: real,
    readLocks: set<string>,
    writeLocks: set<string>,
    errorMessage: Option<string>)

  /** A transaction as `begin_transaction` creates it: active, started now. */
  function NewTransaction<V(==)>(id: string, isolation: Isolation, timeout: real, now: real): (tx: Transaction<V>)
    ensures tx.id == id && tx.status == Active && tx.operations == []
    ensures tx.readLocks == {} && tx.writeLocks == {}
  {
    Transaction(id, [], Active, isolation, now, Some(now), None, timeout, {}, {}, None)
  }

  function Held<V(==)>(tx: Transaction<V>): set<string>
  {
    tx.readLocks + tx.writeLocks
  }

  /** `is_expired`: measured from the start, or from creation when never started. */
  predicate IsExpired<V(==)>(tx: Transaction<V>, now: real)
  {
    match tx.startedAt
    case None => now - tx.createdAt > tx.timeout
    case Some(s) => now - s > tx.timeout
  }

  /** `duration`: zero when never started, else up to the commit time (`or` treats 0.0 as absent) or now. */
  function Duration<V(==)>(tx: Transaction<V>, now: real): (d: real)
    ensures tx.startedAt.None? ==> d == 0.0
    ensures tx.startedAt.Some? && tx.committedAt.Some? && tx.committedAt.value != 0.0 ==> d + tx.startedAt.value == tx.committedAt.value
  {
    match tx.startedAt
    case None => 0.0
    case Some(s) => (if tx.committedAt.Some? && tx.committedAt.value != 0.0 then tx.committedAt.value else now) - s
  }

  // ---------------------------------------------------------------------
  // The store and the buffered operations
  // ---------------------------------------------------------------------

  /** `retrieve(key)`: `None` for a missing key. */
  function Get<V(==)>(s: map<string, V>, k: string): Option<V>
  {
    if k in s then Some(s[k]) else None
  }

  /** What committing one operation does to the store. */
  function Perform<V(==)>(s: map<string, V>, op: Op<V>): map<string, V>
  {
    match op
    case ReadOp(_, _) => s
    case WriteOp(k, v, _) => s[k := v]
    case DeleteOp(k, _) => s - {k}
  }

  /** The commit loop: the operations applied in order. */
  function Apply<V(==)>(s: map<string, V>, ops: seq<Op<V>>): map<string, V>
  {
    if |ops| == 0 then s else Perform(Apply(s, ops[..|ops| - 1]), ops[|ops| - 1])
  }

  /** What rolling back one operation does: a write restores the old value (or deletes), a delete restores it. */
  function Undo<V(==)>(s: map<string, V>, op: Op<V>): map<string, V>
  {
    match op
    case ReadOp(_, _) => s
    case WriteOp(k, _, prev) => if prev.Some? then s[k := prev.value] else s - {k}
    case DeleteOp(k, prev) => if prev.Some? then s[k := prev.value] else s
  }

  /** The abort loop: the operations undone in reverse order. */
  function Rollback<V(==)>(s: map<string, V>, ops: seq<Op<V>>): map<string, V>
  {
    if |ops| == 0 then s else Undo(Rollback(s, ops[1..]), ops[0])
  }

  /** Every write and delete recorded the value its key still holds. */
  predicate OldValuesAgree<V(==)>(s: map<string, V>, ops: seq<Op<V>>)
  {
    forall i :: 0 <= i < |ops| && !ops[i].ReadOp? ==> ops[i].oldValue == Get(s, ops[i].key)
  }

  /** Rolling back operations whose old values are current leaves the store as it is. */
  lemma {:induction false} RollbackIdentity<V>(s: map<string, V>, ops: seq<Op<V>>)
    requires OldValuesAgree(s, ops)
    ensures Rollback(s, ops) == s
  {
    if |ops| > 0 {
      assert OldValuesAgree(s, ops[1..]) by {
        forall i | 0 <= i < |ops[1..]| && !ops[1..][i].ReadOp?
          ensures ops[1..][i].oldValue == Get(s, ops[1..][i].key)
        {
          assert ops[1..][i] == ops[i + 1];
        }
      }
      RollbackIdentity(s, ops[1..]);
      match ops[0]
      case ReadOp(_, _) =>
      case WriteOp(k, _, prev) =>
        assert prev == Get(s, k);
        if prev.None? {
          assert s - {k} == s;
        }
      case DeleteOp(k, prev) =>
        assert prev == Get(s, k);
    }
  }

  /** Committing leaves every key that no write or delete names as it was. */
  lemma {:induction false} ApplyElsewhere<V>(s: map<string, V>, ops: seq<Op<V>>, k: string)
    requires forall i :: 0 <= i < |ops| && !ops[i].ReadOp? ==> ops[i].key != k
    ensures Get(Apply(s, ops), k) == Get(s, k)
  {
    if |ops| > 0 {
      ApplyElsewhere(s, ops[..|ops| - 1], k);
    }
  }

  /** The value a write or delete leaves behind. */
  function Effect<V(==)>(op: Op<V>): Option<V>
  {
    match op
    case ReadOp(_, s) => s
    case WriteOp(_, v, _) => Some(v)
    case DeleteOp(_, _) => None
  }

  /** After a commit each key holds what its last write or delete left. */
  lemma {:induction false} ApplyLastWins<V>(s: map<string, V>, ops: seq<Op<V>>, i: nat)
    requires i < |ops| && !ops[i].ReadOp?
    requires forall j :: i < j < |ops| && !ops[j].ReadOp? ==> ops[j].key != ops[i].key
    ensures Get(Apply(s, ops), ops[i].key) == Effect(ops[i])
  {
    var n := |ops| - 1;
    if i < n {
      ApplyLastWins(s, ops[..n], i);
    }
  }

  // ---------------------------------------------------------------------
  // The lock table
  // ---------------------------------------------------------------------

  /** The holders of each key, in the order they took it (a Python set, in insertion order). */
  type LockTable = map<string, seq<string>>

  /** `transaction_locks[key]`, empty for a key nobody holds. */
  function Holders(locks: LockTable, key: string): seq<string>
  {
    if key in locks then locks[key] else []
  }

  /** `transaction_locks[key].add(tx)`. */
  function Granted(locks: LockTable, key: string, tx: string): (r: LockTable)
    ensures key in r && tx in r[key]
    ensures forall h :: h in r[key] <==> h in Holders(locks, key) || h == tx
    ensures forall k :: k != key ==> (k in r <==> k in locks) && (k in locks ==> r[k] == locks[k])
  {
    locks[key := AddTo(Holders(locks, key), tx)]
  }

  /** The table once `tx` is discarded from every key in `done`, emptied keys removed. */
  function Released(locks: LockTable, tx: string, done: set<string>): LockTable
  {
    map k | k in locks && (k in done ==> Without(locks[k], tx) != []) :: if k in done then Without(locks[k], tx) else locks[k]
  }

  /** One round of the release loop. */
  function ReleaseStep(locks: LockTable, k: string, tx: string): LockTable
  {
    if k !in locks then locks
    else
      var rest := Without(locks[k], tx);
      if rest == [] then locks - {k} else locks[k := rest]
  }

  lemma ReleasedStep(locks: LockTable, tx: string, done: set<string>, k: string)
    ensures Released(locks, tx, done + {k}) == ReleaseStep(Released(locks, tx, done), k, tx)
  {
    if k in done && k in locks {
      WithoutIdempotent(locks[k], tx);
    }
  }

  /** After the release no key lists `tx`, and every other holder keeps its keys. */
  lemma ReleasedFacts(locks: LockTable, tx: string, done: set<string>)
    ensures forall k :: k in Released(locks, tx, done) && k in done ==> tx !in Released(locks, tx, done)[k]
    ensures forall k, h :: k in locks && h in locks[k] && h != tx ==> k in Released(locks, tx, done) && h in Released(locks, tx, done)[k]
    ensures forall k, h :: k in Released(locks, tx, done) && h in Released(locks, tx, done)[k] ==> k in locks && h in locks[k]
  {
  }

  // ---------------------------------------------------------------------
  // The manager's state
  // ---------------------------------------------------------------------

  datatype Stats = Stats(total: nat, committed: nat, aborted: nat, deadlocks: nat, averageDuration: real)

  /** `(avg * (count - 1) + x) / count`. */
  function RunningMean(avg: real, count: nat, x: real): real
    requires count > 0
  {
    (avg * ((count - 1) as real) + x) / (count as real)
  }

  /** The running mean is the mean of all durations so far. */
  lemma RunningMeanIsMean(xs: seq<real>, x: real)
    ensures RunningMean(if |xs| == 0 then 0.0 else Mean(xs), |xs| + 1, x) == Mean(xs + [x])
  {
    SumAppend(xs, x);
    if |xs| > 0 {
      assert Mean(xs) * (|xs| as real) == Sum(xs);
    }
  }

  /**
   * Everything the manager and its deadlock detector keep: the active
   * transactions, the lock table, the store, the wait-for graph, the
   * detector's resource table and the statistics.
   */
  datatype Tables<V> = Tables(
    active: map<string, Transaction<V>>,
    locks: LockTable,
    store: map<string, V>,
    graph: Graph,
    resources: map<string, set<string>>,
    stats: Stats)

  /** `_get_active_transaction`. */
  predicate IsActive<V(==)>(t: Tables<V>, id: string)
  {
    id in t.active && t.active[id].status == Active
  }

  // ---------------------------------------------------------------------
  // The lock discipline
  // ---------------------------------------------------------------------

  predicate ActiveOk<V(==)>(t: Tables<V>)
  {
    forall id :: id in t.active ==> t.active[id].id == id && t.active[id].status == Active
  }

  predicate LocksWellFormed<V(==)>(t: Tables<V>)
  {
    forall k :: k in t.locks ==> t.locks[k] != [] && Distinct(t.locks[k])
  }

  /** Every holder of a key is active and has the key among its locks. */
  predicate HoldersHold<V(==)>(t: Tables<V>)
  {
    HoldersHoldIn(t.locks, t.active)
  }

  predicate HoldersHoldIn<V(==)>(locks: LockTable, active: map<string, Transaction<V>>)
  {
    forall k, h :: k in locks && h in locks[k] ==> h in active && k in Held(active[h])
  }

  /** Every lock a transaction records is in the table. */
  predicate HeldRecorded<V(==)>(t: Tables<V>)
  {
    HeldRecordedIn(t.locks, t.active)
  }

  predicate HeldRecordedIn<V(==)>(locks: LockTable, active: map<string, Transaction<V>>)
  {
    forall h, k :: h in active && k in Held(active[h]) ==> k in locks && h in locks[k]
  }

  /** A transaction with a write lock on a key is its only holder. */
  predicate WritersExclusive<V(==)>(t: Tables<V>)
  {
    forall k, h :: k in t.locks && h in t.locks[k] && h in t.active && k in t.active[h].writeLocks ==> t.locks[k] == [h]
  }

  /** Each buffered write or delete is on a write-locked key and recorded the value that key still holds. */
  predicate OldValuesCurrent<V(==)>(t: Tables<V>, skip: Option<string>)
  {
    forall id, i :: id in t.active && Some(id) != skip && 0 <= i < |t.active[id].operations| && !t.active[id].operations[i].ReadOp? ==>
      t.active[id].operations[i].key in t.active[id].writeLocks
      && t.active[id].operations[i].oldValue == Get(t.store, t.active[id].operations[i].key)
  }

  predicate TablesOk<V(==)>(t: Tables<V>)
  {
    GraphOk(t.graph) && ActiveOk(t) && LocksWellFormed(t) && HoldersHold(t) && HeldRecorded(t)
    && WritersExclusive(t) && OldValuesCurrent(t, None)
  }

  /** No two transactions both hold a key when one of them holds it for writing. */
  lemma WriteLockIsExclusive<V>(t: Tables<V>, k: string, a: string, b: string)
    requires TablesOk(t)
    requires a in t.active && k in t.active[a].writeLocks
    requires b in t.active && k in Held(t.active[b])
    ensures a == b
  {
    assert t.locks[k] == [a];
    assert b in t.locks[k];
  }

  // ---------------------------------------------------------------------
  // abort, release and the deadlock handler
  // ---------------------------------------------------------------------

  /** `_release_locks` followed by the removal from the active table. */
  function Clean<V(==)>(t: Tables<V>, id: string): (r: Tables<V>)
    requires GraphOk(t.graph) && id in t.active
    ensures GraphOk(r.graph) && r.store == t.store && r.stats == t.stats
  {
    t.(locks := Released(t.locks, id, Held(t.active[id])),
       graph := Purged(t.graph, id),
       resources := PurgedLocks(t.resources, id, t.resources.Keys),
       active := t.active - {id})
  }

  /** Releasing a transaction's locks and dropping it keeps the discipline. */
  lemma CleanPreserves<V>(t: Tables<V>, id: string)
    requires GraphOk(t.graph) && ActiveOk(t) && LocksWellFormed(t) && HoldersHold(t) && HeldRecorded(t)
    requires WritersExclusive(t) && OldValuesCurrent(t, Some(id)) && id in t.active
    ensures TablesOk(Clean(t, id))
  {
    CleanLocks(t, id);
    CleanHolders(t, id);
  }

  lemma CleanLocks<V>(t: Tables<V>, id: string)
    requires GraphOk(t.graph) && LocksWellFormed(t) && HeldRecorded(t) && WritersExclusive(t) && id in t.active
    ensures LocksWellFormed(Clean(t, id)) && WritersExclusive(Clean(t, id))
  {
    var r := Clean(t, id);
    var keys := Held(t.active[id]);
    ReleasedFacts(t.locks, id, keys);
    forall k | k in r.locks
      ensures r.locks[k] != [] && Distinct(r.locks[k])
    {
      if k in keys {
        WithoutDistinct(t.locks[k], id);
      }
    }
    forall k, h | k in r.locks && h in r.locks[k] && h in r.active && k in r.active[h].writeLocks
      ensures r.locks[k] == [h]
    {
      assert t.locks[k] == [h];
    }
  }

  lemma CleanHolders<V>(t: Tables<V>, id: string)
    requires GraphOk(t.graph) && HoldersHold(t) && HeldRecorded(t) && id in t.active
    ensures HoldersHold(Clean(t, id)) && HeldRecorded(Clean(t, id))
  {
    ReleaseKeepsHolders(t.locks, t.active, id);
    ReleaseKeepsRecorded(t.locks, t.active, id);
  }

  /** After releasing `id`'s locks and dropping it, every listed holder is a remaining transaction that records the lock. */
  lemma ReleaseKeepsHolders<V>(locks: LockTable, active: map<string, Transaction<V>>, id: string)
    requires id in active
    requires HoldersHoldIn(locks, active)
    ensures HoldersHoldIn(Released(locks, id, Held(active[id])), active - {id})
  {
    var keys := Held(active[id]);
    var rl := Released(locks, id, keys);
    ReleasedFacts(locks, id, keys);
    forall k, h | k in rl && h in rl[k]
      ensures h in active - {id} && k in Held((active - {id})[h])
    {
      assert k in locks && h in locks[k];
      assert h in active && k in Held(active[h]);
      assert h != id by {
        if k in keys {
          assert id !in rl[k];
        }
      }
      assert (active - {id})[h] == active[h];
    }
  }

  /** After releasing `id`'s locks and dropping it, every lock a remaining transaction records is still listed. */
  lemma ReleaseKeepsRecorded<V>(locks: LockTable, active: map<string, Transaction<V>>, id: string)
    requires id in active
    requires HeldRecordedIn(locks, active)
    ensures HeldRecordedIn(Released(locks, id, Held(active[id])), active - {id})
  {
    ReleasedFacts(locks, id, Held(active[id]));
  }

  /** `abort(id)`: roll back, release the locks, count the abort and forget the transaction; `false` for an unknown id. */
  function AbortSpec<V(==)>(t: Tables<V>, id: string): (r: (Tables<V>, bool))
    requires GraphOk(t.graph)
    ensures GraphOk(r.0.graph)
    ensures r.1 <==> id in t.active
    ensures r.0.active == t.active - {id}
  {
    if id !in t.active then (t, false)
    else
      var tx := t.active[id];
      (Clean(t.(store := Rollback(t.store, tx.operations), stats := t.stats.(aborted := t.stats.aborted + 1)), id), true)
  }

  /**
   * Aborting never changes the store: writes reach the store only at commit,
   * so every buffered old value is still current and the rollback restores
   * nothing.
   */
  lemma AbortKeepsStore<V>(t: Tables<V>, id: string)
    requires TablesOk(t)
    ensures AbortSpec(t, id).0.store == t.store
  {
    if id in t.active {
      var ops := t.active[id].operations;
      assert OldValuesAgree(t.store, ops) by {
        forall i | 0 <= i < |ops| && !ops[i].ReadOp?
          ensures ops[i].oldValue == Get(t.store, ops[i].key)
        {
        }
      }
      RollbackIdentity(t.store, ops);
    }
  }

  lemma AbortPreserves<V>(t: Tables<V>, id: string)
    requires TablesOk(t)
    ensures TablesOk(AbortSpec(t, id).0)
  {
    if id in t.active {
      AbortKeepsStore(t, id);
      var t1 := t.(store := Rollback(t.store, t.active[id].operations), stats := t.stats.(aborted := t.stats.aborted + 1));
      assert t1.store == t.store;
      CleanPreserves(t1, id);
    }
  }

  /** The victims aborted one after the other. */
  function AbortEach<V(==)>(t: Tables<V>, vs: seq<string>): (r: Tables<V>)
    requires GraphOk(t.graph)
    ensures GraphOk(r.graph)
    decreases |vs|
  {
    if |vs| == 0 then t else AbortEach(AbortSpec(t, vs[0]).0, vs[1..])
  }

  /** Exactly the victims leave the active table. */
  lemma {:induction false} AbortEachActive<V>(t: Tables<V>, vs: seq<string>)
    requires GraphOk(t.graph)
    ensures forall id :: id in AbortEach(t, vs).active <==> id in t.active && id !in vs
    decreases |vs|
  {
    if |vs| > 0 {
      AbortEachActive(AbortSpec(t, vs[0]).0, vs[1..]);
      assert forall x :: x in vs <==> x == vs[0] || x in vs[1..];
    }
  }

  lemma {:induction false} AbortEachPreserves<V>(t: Tables<V>, vs: seq<string>)
    requires TablesOk(t)
    ensures TablesOk(AbortEach(t, vs))
    decreases |vs|
  {
    if |vs| > 0 {
      AbortPreserves(t, vs[0]);
      AbortEachPreserves(AbortSpec(t, vs[0]).0, vs[1..]);
    }
  }

  /** The detection counted and the victims dropped from the graph. */
  function Counted<V>(t: Tables<V>, vs: seq<string>): (r: Tables<V>)
    requires GraphOk(t.graph)
    ensures GraphOk(r.graph)
  {
    t.(graph := DropAll(t.graph, vs), stats := t.stats.(deadlocks := t.stats.deadlocks + 1))
  }

  /** `_handle_deadlocks`: count the detection, drop the victims from the graph, abort those still active. */
  function HandleSpec<V(==)>(t: Tables<V>, cycles: seq<seq<string>>): (r: Tables<V>)
    requires GraphOk(t.graph)
    ensures GraphOk(r.graph)
  {
    var vs := Victims(cycles);
    AbortEach(Counted(t, vs), vs)
  }

  /** Every victim of a reported cycle is gone from the active table afterwards. */
  lemma HandleAbortsVictims<V>(t: Tables<V>, cycles: seq<seq<string>>)
    requires GraphOk(t.graph)
    ensures forall c :: c in cycles && c != [] ==> Victim(c) !in HandleSpec(t, cycles).active
    ensures forall id :: id in HandleSpec(t, cycles).active ==> id in t.active
  {
    var vs := Victims(cycles);
    AbortEachActive(Counted(t, vs), vs);
  }

  lemma HandlePreserves<V>(t: Tables<V>, cycles: seq<seq<string>>)
    requires TablesOk(t)
    ensures TablesOk(HandleSpec(t, cycles))
  {
    var vs := Victims(cycles);
    AbortEachPreserves(Counted(t, vs), vs);
  }

  /** A refused lock: detect deadlocks in the new graph and handle them if there are any. */
  function Blocked<V(==)>(t: Tables<V>): (r: (Tables<V>, bool))
    requires GraphOk(t.graph)
    ensures GraphOk(r.0.graph) && !r.1
  {
    var cs := DetectCycles(t.graph);
    if cs != [] then (HandleSpec(t, cs), false) else (t, false)
  }

  lemma BlockedPreserves<V>(t: Tables<V>)
    requires TablesOk(t)
    ensures TablesOk(Blocked(t).0)
  {
    var cs := DetectCycles(t.graph);
    if cs != [] {
      HandlePreserves(t, cs);
    }
  }

  /** `tx` now waits for `h` on `key`; only the detector's tables change. */
  function Waiting<V(==)>(t: Tables<V>, tx: string, h: string, key: string): (r: Tables<V>)
    requires GraphOk(t.graph)
    ensures GraphOk(r.graph)
    ensures r == t.(graph := r.graph, resources := r.resources)
  {
    t.(graph := WithEdge(t.graph, tx, h), resources := WithResource(t.resources, key, h))
  }

  // ---------------------------------------------------------------------
  // Lock acquisition
  // ---------------------------------------------------------------------

  /**
   * The first holder of `key` that write-locks it, in holder order. As
   * written (`selfBlocks`) the reader's own write lock counts; corrected, it
   * does not.
   */
  function ReadBlocker<V(==)>(holders: seq<string>, active: map<string, Transaction<V>>, tx: string, key: string, selfBlocks: bool): (r: Option<string>)
    ensures r.Some? ==> r.value in holders && r.value in active && key in active[r.value].writeLocks && (selfBlocks || r.value != tx)
    ensures r.None? ==> forall h :: h in holders && h in active && key in active[h].writeLocks ==> !selfBlocks && h == tx
  {
    if |holders| == 0 then None
    else
      var h := holders[0];
      if (selfBlocks || h != tx) && h in active && key in active[h].writeLocks then Some(h)
      else
        var r := ReadBlocker(holders[1..], active, tx, key, selfBlocks);
        assert forall x :: x in holders ==> x == h || x in holders[1..];
        r
  }

  /**
   * As written, a transaction that write-locked a key is the only holder of
   * it, so its own read under repeatable read finds itself as the blocker;
   * the wait edge it then adds is a cycle on its own, and on an otherwise
   * empty graph the detector reports exactly that cycle, whose victim is
   * the reader itself.
   */
  lemma OwnWriteLockBlocksRead<V>(t: Tables<V>, tx: string, key: string)
    requires TablesOk(t) && tx in t.active && key in t.active[tx].writeLocks
    ensures ReadBlocker(Holders(t.locks, key), t.active, tx, key, true) == Some(tx)
    ensures !AcquireReadSpec(t, tx, key, true).1
    ensures IsCycle(WithEdge(t.graph, tx, tx), [tx])
    ensures Detect(WithEdge(Empty(), tx, tx), true) == Ok([[tx]])
    ensures Victims([[tx]]) == [tx]
  {
    assert t.locks[key] == [tx];
    SelfWaitIsDeadlock(t.graph, tx);
  }

  /** A transaction waiting for itself is a cycle of one, which detection reports and whose victim is the transaction. */
  lemma SelfWaitIsDeadlock(graph: Graph, tx: string)
    requires GraphOk(graph)
    ensures IsCycle(WithEdge(graph, tx, tx), [tx])
    ensures Detect(WithEdge(Empty(), tx, tx), true) == Ok([[tx]])
    ensures Victims([[tx]]) == [tx]
  {
    var g := WithEdge(Empty(), tx, tx);
    assert g.keys == [tx] && g.m == map[tx := [tx]];
    assert Nodes(g) == {tx} by {
      assert tx in g.m[tx];
    }
    SelfLoopDetected(tx);
    assert Victim([tx]) == tx;
    assert Victims([[tx]]) == Victims([]) + [tx];
  }

  lemma SelfLoopDetected(tx: string)
    ensures Detect(ODict([tx], map[tx := [tx]]), true) == Ok([[tx]])
  {
    var g := ODict([tx], map[tx := [tx]]);
    assert Nodes(g) == {tx} by {
      assert tx in g.m[tx];
    }
    var s0 := Search({}, {}, [], false);
    var s1 := Search({tx}, {tx}, [], false);
    assert [] + [tx] == [tx];
    assert s0.(visited := s0.visited + {tx}, stack := s0.stack + {tx}) == s1;
    assert IsPath(g, [tx]) && Successors(g, tx) == [tx];
    assert CycleAt(g, [tx], tx) == [tx];
    var r := Scan(g, true, [tx], [tx], 0, s1);
    assert r.0 && r.1.visited == {tx} && r.1.stack == {tx} && !r.1.failed;
    assert r.1.cycles == [[tx]];
    var d := Dfs(g, true, tx, [], s0);
    assert d.1 == Search({tx}, {}, [[tx]], false);
    assert Roots(g, true, 0, s0) == Roots(g, true, 1, d.1);
  }

  /**
   * `_acquire_read_lock`: granted unless a holder write-locks the key, in
   * which case the reader waits for it and deadlocks are handled. As
   * written (`selfBlocks`) the reader's own write lock blocks it too; the
   * corrected lock manager passes `false`.
   */
  function AcquireReadSpec<V(==)>(t: Tables<V>, tx: string, key: string, selfBlocks: bool): (r: (Tables<V>, bool))
    requires GraphOk(t.graph)
    ensures GraphOk(r.0.graph)
    ensures r.1 <==> ReadBlocker(Holders(t.locks, key), t.active, tx, key, selfBlocks).None?
    ensures r.1 ==> r.0 == t.(locks := Granted(t.locks, key, tx))
  {
    match ReadBlocker(Holders(t.locks, key), t.active, tx, key, selfBlocks)
    case None => (t.(locks := Granted(t.locks, key, tx)), true)
    case Some(h) => Blocked(Waiting(t, tx, h, key))
  }

  /** The wait edges from `tx` to each of `hs`, added in order. */
  function EdgesTo(g: Graph, tx: string, hs: seq<string>): (r: Graph)
    requires GraphOk(g)
    ensures GraphOk(r)
    ensures forall a, b :: Edge(r, a, b) <==> Edge(g, a, b) || (a == tx && b in hs)
  {
    if |hs| == 0 then g
    else
      var r := WithEdge(EdgesTo(g, tx, hs[..|hs| - 1]), tx, hs[|hs| - 1]);
      assert forall b :: b in hs <==> b in hs[..|hs| - 1] || b == hs[|hs| - 1];
      r
  }

  /** Each of `hs` recorded as a holder of `key`, in order. */
  function HoldersOf(res: map<string, set<string>>, key: string, hs: seq<string>): map<string, set<string>>
  {
    if |hs| == 0 then res else WithResource(HoldersOf(res, key, hs[..|hs| - 1]), key, hs[|hs| - 1])
  }

  lemma WaitStep(g: Graph, res: map<string, set<string>>, tx: string, hs: seq<string>, key: string, i: nat)
    requires GraphOk(g) && i < |hs|
    ensures EdgesTo(g, tx, hs[..i + 1]) == WithEdge(EdgesTo(g, tx, hs[..i]), tx, hs[i])
    ensures HoldersOf(res, key, hs[..i + 1]) == WithResource(HoldersOf(res, key, hs[..i]), key, hs[i])
  {
    assert hs[..i + 1][..i] == hs[..i];
  }

  /** `tx` now waits for each of `hs` on `key`. */
  function WaitingAll<V(==)>(t: Tables<V>, tx: string, hs: seq<string>, key: string): (r: Tables<V>)
    requires GraphOk(t.graph)
    ensures GraphOk(r.graph)
  {
    t.(graph := EdgesTo(t.graph, tx, hs), resources := HoldersOf(t.resources, key, hs))
  }

  /** Corrected, a transaction that write-locked a key reads it under its own lock, and nothing changes. */
  lemma OwnWriteLockGrantsRead<V>(t: Tables<V>, tx: string, key: string)
    requires TablesOk(t) && tx in t.active && key in t.active[tx].writeLocks
    ensures AcquireReadSpec(t, tx, key, false) == (t, true)
  {
    assert t.locks[key] == [tx];
    assert ReadBlocker([tx][1..], t.active, tx, key, false) == None;
    assert Granted(t.locks, key, tx) == t.locks;
  }

  /** `_acquire_write_lock`: granted when nobody else holds the key. */
  function AcquireWriteSpec<V(==)>(t: Tables<V>, tx: string, key: string): (r: (Tables<V>, bool))
    requires GraphOk(t.graph)
    ensures GraphOk(r.0.graph)
    ensures r.1 <==> forall h :: h in Holders(t.locks, key) ==> h == tx
    ensures r.1 ==> r.0 == t.(locks := Granted(t.locks, key, tx))
  {
    var others := Without(Holders(t.locks, key), tx);
    if others == [] then (t.(locks := Granted(t.locks, key, tx)), true)
    else
      assert others[0] in Holders(t.locks, key) && others[0] != tx;
      Blocked(WaitingAll(t, tx, others, key))
  }

  lemma BlockedWaitingOnePreserves<V>(t: Tables<V>, tx: string, h: string, key: string)
    requires TablesOk(t)
    ensures TablesOk(Blocked(Waiting(t, tx, h, key)).0)
  {
    var w := Waiting(t, tx, h, key);
    assert TablesOk(w);
    BlockedPreserves(w);
  }

  lemma BlockedWaitingPreserves<V>(t: Tables<V>, tx: string, hs: seq<string>, key: string)
    requires TablesOk(t)
    ensures TablesOk(Blocked(WaitingAll(t, tx, hs, key)).0)
  {
    var w := WaitingAll(t, tx, hs, key);
    assert TablesOk(w);
    BlockedPreserves(w);
  }

  // ---------------------------------------------------------------------
  // The operations
  // ---------------------------------------------------------------------

  /** `begin_transaction`: a new active transaction, or `ValueError` for an id in use. */
  function BeginSpec<V(==)>(t: Tables<V>, id: string, isolation: Isolation, timeout: real, now: real): (r: (Tables<V>, Result<string>))
    ensures id in t.active ==> r.1.Err? && r.0 == t
    ensures id !in t.active ==> r.1 == Ok(id) && IsActive(r.0, id) && r.0.active[id].operations == []
    ensures id !in t.active ==> r.0.stats.total == t.stats.total + 1
  {
    if id in t.active then (t, Err("transaction already exists"))
    else (t.(active := t.active[id := NewTransaction(id, isolation, timeout, now)], stats := t.stats.(total := t.stats.total + 1)), Ok(id))
  }

  lemma BeginPreserves<V>(t: Tables<V>, id: string, isolation: Isolation, timeout: real, now: real)
    requires TablesOk(t)
    ensures TablesOk(BeginSpec(t, id, isolation, timeout, now).0)
  {
  }

  /** Whether a read takes a read lock. */
  predicate LocksReads(isolation: Isolation)
  {
    isolation == RepeatableRead || isolation == Serializable
  }

  /** `read`: the stored value, recorded as a read; under repeatable read or serializable only with a read lock. */
  function ReadSpec<V(==)>(t: Tables<V>, id: string, key: string): (r: (Tables<V>, Result<Option<V>>))
    requires GraphOk(t.graph)
    ensures GraphOk(r.0.graph)
    ensures !IsActive(t, id) ==> r.1.Err? && r.0 == t
    ensures r.1.Ok? ==> r.1.value == Get(t.store, key) && r.0.store == t.store
  {
    if !IsActive(t, id) then (t, Err("transaction does not exist or is not active"))
    else
      var tx := t.active[id];
      if LocksReads(tx.isolation) then
        var (t1, ok) := AcquireReadSpec(t, id, key, false);
        if !ok then (t1, Err("cannot acquire read lock"))
        else
          var v := Get(t1.store, key);
          var tx1 := tx.(readLocks := tx.readLocks + {key}, operations := tx.operations + [ReadOp(key, v)]);
          (t1.(active := t1.active[id := tx1]), Ok(v))
      else
        var v := Get(t.store, key);
        (t.(active := t.active[id := tx.(operations := tx.operations + [ReadOp(key, v)])]), Ok(v))
  }

  lemma ReadPreserves<V>(t: Tables<V>, id: string, key: string)
    requires TablesOk(t)
    ensures TablesOk(ReadSpec(t, id, key).0)
  {
    if IsActive(t, id) {
      var tx := t.active[id];
      if LocksReads(tx.isolation) {
        var b := ReadBlocker(Holders(t.locks, key), t.active, id, key, false);
        if b.Some? {
          BlockedWaitingOnePreserves(t, id, b.value, key);
        } else {
          var v := Get(t.store, key);
          var tx1 := tx.(readLocks := tx.readLocks + {key}, operations := tx.operations + [ReadOp(key, v)]);
          var r := t.(locks := Granted(t.locks, key, id), active := t.active[id := tx1]);
          assert tx1.operations[..|tx.operations|] == tx.operations;
          GrantLocks(t, id, key, tx1, r);
          GrantOps(t, id, key, tx1, r);
          ReadGrantExclusive(t, id, key, tx1, r);
        }
      } else {
        BufferPreserves(t, id, tx.(operations := tx.operations + [ReadOp(key, Get(t.store, key))]));
      }
    }
  }

  /** `tx1` is `tx` with `key` among its locks and one more operation, which is a read or a change of `key` recorded against `store`. */
  ghost predicate Extends<V>(tx: Transaction<V>, tx1: Transaction<V>, key: string, store: map<string, V>)
  {
    tx1.id == tx.id && tx1.status == tx.status
    && tx.readLocks <= tx1.readLocks && tx.writeLocks <= tx1.writeLocks && Held(tx1) == Held(tx) + {key}
    && tx1.writeLocks - tx.writeLocks <= {key}
    && |tx1.operations| == |tx.operations| + 1 && tx1.operations[..|tx.operations|] == tx.operations
    && var op := tx1.operations[|tx.operations|];
    (!op.ReadOp? ==> op.key == key && key in tx1.writeLocks && op.oldValue == Get(store, key))
  }

  /** A grant recorded in the lock table and the transaction keeps the table well formed and in step with the transactions. */
  lemma GrantLocks<V>(t: Tables<V>, id: string, key: string, tx1: Transaction<V>, r: Tables<V>)
    requires TablesOk(t) && IsActive(t, id) && Extends(t.active[id], tx1, key, t.store)
    requires r == t.(locks := Granted(t.locks, key, id), active := t.active[id := tx1])
    ensures GraphOk(r.graph) && ActiveOk(r) && LocksWellFormed(r) && HoldersHold(r) && HeldRecorded(r)
  {
    assert Distinct(Holders(t.locks, key));
  }

  /** A grant keeps every old value current, and the new one is current by construction. */
  lemma GrantOps<V>(t: Tables<V>, id: string, key: string, tx1: Transaction<V>, r: Tables<V>)
    requires TablesOk(t) && IsActive(t, id) && Extends(t.active[id], tx1, key, t.store)
    requires r == t.(locks := Granted(t.locks, key, id), active := t.active[id := tx1])
    ensures OldValuesCurrent(r, None)
  {
    var tx := t.active[id];
    forall x, i | x in r.active && 0 <= i < |r.active[x].operations| && !r.active[x].operations[i].ReadOp?
      ensures r.active[x].operations[i].key in r.active[x].writeLocks
      ensures r.active[x].operations[i].oldValue == Get(r.store, r.active[x].operations[i].key)
    {
      if x == id && i < |tx.operations| {
        assert r.active[x].operations[i] == tx.operations[i];
      }
    }
  }

  /** A read lock granted because no other holder writes the key keeps writers exclusive. */
  lemma ReadGrantExclusive<V>(t: Tables<V>, id: string, key: string, tx1: Transaction<V>, r: Tables<V>)
    requires TablesOk(t) && IsActive(t, id) && Extends(t.active[id], tx1, key, t.store)
    requires tx1.writeLocks == t.active[id].writeLocks
    requires ReadBlocker(Holders(t.locks, key), t.active, id, key, false).None?
    requires r == t.(locks := Granted(t.locks, key, id), active := t.active[id := tx1])
    ensures WritersExclusive(r)
  {
    forall k, h | k in r.locks && h in r.locks[k] && h in r.active && k in r.active[h].writeLocks
      ensures r.locks[k] == [h]
    {
      if k == key {
        assert h == id;
      }
      assert t.locks[k] == [h];
    }
  }

  /** A write lock granted because nobody else holds the key keeps writers exclusive. */
  lemma WriteGrantExclusive<V>(t: Tables<V>, id: string, key: string, tx1: Transaction<V>, r: Tables<V>)
    requires TablesOk(t) && IsActive(t, id) && Extends(t.active[id], tx1, key, t.store)
    requires Without(Holders(t.locks, key), id) == []
    requires r == t.(locks := Granted(t.locks, key, id), active := t.active[id := tx1])
    ensures WritersExclusive(r)
  {
    assert r.locks[key] == [id] by {
      OnlyHolder(Holders(t.locks, key), id);
    }
    forall k, h | k in r.locks && h in r.locks[k] && h in r.active && k in r.active[h].writeLocks
      ensures r.locks[k] == [h]
    {
      if k != key {
        assert k in t.active[h].writeLocks by {
          assert h == id ==> k in r.active[h].writeLocks - {key};
        }
        assert t.locks[k] == [h];
      }
    }
  }

  /** Replacing an active transaction by one with the same locks and more operations keeps the discipline, when the new operations are reads. */
  lemma BufferPreserves<V>(t: Tables<V>, id: string, tx1: Transaction<V>)
    requires TablesOk(t) && id in t.active
    requires tx1 == t.active[id].(operations := tx1.operations)
    requires |tx1.operations| >= |t.active[id].operations|
    requires tx1.operations[..|t.active[id].operations|] == t.active[id].operations
    requires forall i :: |t.active[id].operations| <= i < |tx1.operations| ==> tx1.operations[i].ReadOp?
    ensures TablesOk(t.(active := t.active[id := tx1]))
  {
    var r := t.(active := t.active[id := tx1]);
    forall x, i | x in r.active && 0 <= i < |r.active[x].operations| && !r.active[x].operations[i].ReadOp?
      ensures r.active[x].operations[i].key in r.active[x].writeLocks
      ensures r.active[x].operations[i].oldValue == Get(r.store, r.active[x].operations[i].key)
    {
      if x == id {
        assert r.active[x].operations[i] == t.active[id].operations[i];
      }
    }
  }

  /** A write (`Some`) or a delete (`None`) as a buffered operation. */
  function ChangeOp<V(==)>(key: string, value: Option<V>, prev: Option<V>): (op: Op<V>)
    ensures !op.ReadOp? && op.key == key && op.oldValue == prev && Effect(op) == value
  {
    if value.Some? then WriteOp(key, value.value, prev) else DeleteOp(key, prev)
  }

  /** `write` (`value` present) and `delete` (`value` absent): take the write lock, record the old value, buffer the change. */
  function ChangeSpec<V(==)>(t: Tables<V>, id: string, key: string, value: Option<V>): (r: (Tables<V>, Result<bool>))
    requires GraphOk(t.graph)
    ensures GraphOk(r.0.graph)
    ensures !IsActive(t, id) ==> r.1.Err? && r.0 == t
    ensures r.1.Ok? ==> r.1.value && r.0.store == t.store
  {
    if !IsActive(t, id) then (t, Err("transaction does not exist or is not active"))
    else
      var tx := t.active[id];
      var (t1, ok) := AcquireWriteSpec(t, id, key);
      if !ok then (t1, Err("cannot acquire write lock"))
      else
        var op := ChangeOp(key, value, Get(t1.store, key));
        var tx1 := tx.(writeLocks := tx.writeLocks + {key}, operations := tx.operations + [op]);
        (t1.(active := t1.active[id := tx1]), Ok(true))
  }

  lemma ChangePreserves<V>(t: Tables<V>, id: string, key: string, value: Option<V>)
    requires TablesOk(t)
    ensures TablesOk(ChangeSpec(t, id, key, value).0)
  {
    if IsActive(t, id) {
      var others := Without(Holders(t.locks, key), id);
      if others == [] {
        var tx := t.active[id];
        var op := ChangeOp(key, value, Get(t.store, key));
        var tx1 := tx.(writeLocks := tx.writeLocks + {key}, operations := tx.operations + [op]);
        var r := t.(locks := Granted(t.locks, key, id), active := t.active[id := tx1]);
        assert tx1.operations[..|tx.operations|] == tx.operations;
        GrantLocks(t, id, key, tx1, r);
        GrantOps(t, id, key, tx1, r);
        WriteGrantExclusive(t, id, key, tx1, r);
      } else {
        BlockedWaitingPreserves(t, id, others, key);
      }
    }
  }

  /** Distinct holders with none but `tx` among them are at most `tx` alone. */
  lemma OnlyHolder(hs: seq<string>, tx: string)
    requires Distinct(hs) && Without(hs, tx) == []
    ensures AddTo(hs, tx) == [tx]
  {
    WithoutLength(hs, tx);
    if tx in hs {
      assert hs[0] in hs && hs[0] !in Without(hs, tx);
      assert hs == [tx];
    }
  }

  /**
   * `commit`: apply the buffered writes and deletes in order, release the
   * locks, count the commit, fold its duration into the running mean and
   * forget the transaction.
   */
  function CommitSpec<V(==)>(t: Tables<V>, id: string, now: real): (r: (Tables<V>, Result<bool>))
    requires GraphOk(t.graph)
    ensures GraphOk(r.0.graph)
    ensures !IsActive(t, id) ==> r.1.Err? && r.0 == t
    ensures IsActive(t, id) ==> r.1 == Ok(true) && r.0.store == Apply(t.store, t.active[id].operations)
    ensures IsActive(t, id) ==> r.0.active == t.active - {id} && r.0.stats.committed == t.stats.committed + 1
  {
    if !IsActive(t, id) then (t, Err("transaction does not exist or is not active"))
    else
      var tx := t.active[id];
      var count := t.stats.committed + 1;
      var d := Duration(tx.(committedAt := Some(now)), now);
      var st := t.stats.(committed := count, averageDuration := RunningMean(t.stats.averageDuration, count, d));
      (Clean(t.(store := Apply(t.store, tx.operations), stats := st), id), Ok(true))
  }

  lemma CommitPreserves<V>(t: Tables<V>, id: string, now: real)
    requires TablesOk(t)
    ensures TablesOk(CommitSpec(t, id, now).0)
  {
    if IsActive(t, id) {
      var tx := t.active[id];
      var count := t.stats.committed + 1;
      var d := Duration(tx.(committedAt := Some(now)), now);
      var st := t.stats.(committed := count, averageDuration := RunningMean(t.stats.averageDuration, count, d));
      var t1 := t.(store := Apply(t.store, tx.operations), stats := st);
      forall x, i | x in t1.active && Some(x) != Some(id) && 0 <= i < |t1.active[x].operations| && !t1.active[x].operations[i].ReadOp?
        ensures t1.active[x].operations[i].key in t1.active[x].writeLocks
        ensures t1.active[x].operations[i].oldValue == Get(t1.store, t1.active[x].operations[i].key)
      {
        var k := t.active[x].operations[i].key;
        forall j | 0 <= j < |tx.operations| && !tx.operations[j].ReadOp?
          ensures tx.operations[j].key != k
        {
          if tx.operations[j].key == k {
            WriteLockIsExclusive(t, k, x, id);
          }
        }
        ApplyElsewhere(t.store, tx.operations, k);
      }
      CleanPreserves(t1, id);
    }
  }

  // ---------------------------------------------------------------------
  // The manager
  // ---------------------------------------------------------------------

  class TransactionManager<V(==)> {
    var active: map<string, Transaction<V>>
    var locks: LockTable
    var store: map<string, V>
    var stats: Stats
    const detector: DeadlockDetector

    function State(): Tables<V>
      reads this, detector
    {
      Tables(active, locks, store, detector.graph, detector.resourceLocks, stats)
    }

    ghost predicate Invariant()
      reads this, detector
    {
      TablesOk(State()) && detector.Invariant()
    }

    constructor()
      ensures Invariant() && fresh(detector)
      ensures active == map[] && locks == map[] && store == map[]
      ensures stats == Stats(0, 0, 0, 0, 0.0)
    {
      active := map[];
      locks := map[];
      store := map[];
      stats := Stats(0, 0, 0, 0, 0.0);
      detector := new DeadlockDetector();
    }

    /** `begin_transaction`; an empty id stands for the generated one, `fresh_id`. */
    method Begin(id: string, freshId: string, isolation: Isolation, timeout: real, now: real) returns (r: Result<string>)
      requires detector.Invariant()
      modifies `active, `stats
      ensures detector.Invariant()
      ensures (State(), r) == BeginSpec(old(State()), if id == "" then freshId else id, isolation, timeout, now)
    {
      var txId := if id == "" then freshId else id;
      if txId in active {
        return Err("transaction already exists");
      }
      active := active[txId := NewTransaction(txId, isolation, timeout, now)];
      stats := stats.(total := stats.total + 1);
      r := Ok(txId);
    }

    /** `_release_locks`: `tx` leaves the holders of its read locks, then of its write locks; then the detector forgets it. */
    method ReleaseLocks(tx: string)
      requires detector.Invariant()
      modifies `locks, detector
      ensures detector.Invariant()
      ensures tx !in active ==> locks == old(locks) && detector.graph == old(detector.graph) && detector.resourceLocks == old(detector.resourceLocks)
      ensures tx in active ==> locks == Released(old(locks), tx, Held(active[tx]))
      ensures tx in active ==> detector.graph == Purged(old(detector.graph), tx)
      ensures tx in active ==> detector.resourceLocks == PurgedLocks(old(detector.resourceLocks), tx, old(detector.resourceLocks).Keys)
    {
      if tx !in active {
        return;
      }
      var t := active[tx];
      var done: set<string> := {};
      assert locks == Released(locks, tx, {});
      var readKeys := t.readLocks;
      while readKeys != {}
        invariant readKeys <= t.readLocks && done == t.readLocks - readKeys
        invariant locks == Released(old(locks), tx, done)
        invariant unchanged(detector)
        decreases readKeys
      {
        var k :| k in readKeys;
        ReleasedStep(old(locks), tx, done, k);
        locks := ReleaseStep(locks, k, tx);
        done := done + {k};
        readKeys := readKeys - {k};
      }
      var writes := t.writeLocks;
      while writes != {}
        invariant writes <= t.writeLocks && done == t.readLocks + (t.writeLocks - writes)
        invariant locks == Released(old(locks), tx, done)
        invariant unchanged(detector)
        decreases writes
      {
        var k :| k in writes;
        ReleasedStep(old(locks), tx, done, k);
        locks := ReleaseStep(locks, k, tx);
        done := done + {k};
        writes := writes - {k};
      }
      assert done == Held(t);
      detector.CleanupTransaction(tx);
    }

    /** `abort`. */
    method Abort(id: string) returns (ok: bool)
      requires detector.Invariant()
      modifies this, detector
      ensures detector.Invariant()
      ensures (State(), ok) == AbortSpec(old(State()), id)
    {
      ghost var t0 := State();
      if id !in active {
        return false;
      }
      var ops := active[id].operations;
      var i := |ops|;
      while i > 0
        invariant 0 <= i <= |ops|
        invariant store == Rollback(old(store), ops[i..])
        invariant active == old(active) && locks == old(locks) && stats == old(stats)
        invariant detector.graph == old(detector.graph) && detector.resourceLocks == old(detector.resourceLocks)
      {
        assert ops[i - 1..][1..] == ops[i..];
        store := Undo(store, ops[i - 1]);
        i := i - 1;
      }
      assert ops[0..] == ops;
      ReleaseLocks(id);
      stats := stats.(aborted := stats.aborted + 1);
      active := active - {id};
      ok := true;
    }

    /** `_handle_deadlocks`. */
    method HandleDeadlocks(cycles: seq<seq<string>>)
      requires detector.Invariant()
      modifies this, detector
      ensures detector.Invariant()
      ensures State() == HandleSpec(old(State()), cycles)
    {
      ghost var t0 := State();
      stats := stats.(deadlocks := stats.deadlocks + 1);
      var victims := detector.ResolveDeadlock(cycles);
      assert State() == Counted(t0, victims);
      AbortVictims(victims);
    }

    /** The abort of each victim in turn. */
    method AbortVictims(victims: seq<string>)
      requires detector.Invariant()
      modifies this, detector
      ensures detector.Invariant()
      ensures State() == AbortEach(old(State()), victims)
    {
      ghost var t1 := State();
      var i := 0;
      while i < |victims|
        invariant 0 <= i <= |victims|
        invariant detector.Invariant()
        invariant AbortEach(State(), victims[i..]) == AbortEach(t1, victims)
      {
        ghost var before := State();
        assert victims[i..][1..] == victims[i + 1..];
        var _ := Abort(victims[i]);
        assert AbortEach(before, victims[i..]) == AbortEach(State(), victims[i + 1..]);
        i := i + 1;
      }
    }

    /** `_acquire_read_lock` (corrected). */
    method AcquireReadLock(tx: string, key: string) returns (ok: bool)
      requires detector.Invariant()
      modifies this, detector
      ensures detector.Invariant()
      ensures (State(), ok) == AcquireReadSpec(old(State()), tx, key, false)
    {
      ghost var t0 := State();
      var holders := Holders(locks, key);
      var i := 0;
      while i < |holders|
        invariant 0 <= i <= |holders|
        invariant ReadBlocker(holders, active, tx, key, false) == ReadBlocker(holders[i..], active, tx, key, false)
      {
        var h := holders[i];
        assert holders[i..][1..] == holders[i + 1..];
        if h != tx && h in active && key in active[h].writeLocks {
          detector.AddWaitEdge(tx, h, key);
          assert State() == Waiting(t0, tx, h, key);
          var cycles := DetectCycles(detector.graph);
          if cycles != [] {
            HandleDeadlocks(cycles);
          }
          return false;
        }
        i := i + 1;
      }
      locks := Granted(locks, key, tx);
      ok := true;
    }

    /** The wait edges from `tx` to each of `others`, in order. */
    method WaitForAll(tx: string, others: seq<string>, key: string)
      requires detector.Invariant()
      modifies detector
      ensures detector.Invariant()
      ensures State() == WaitingAll(old(State()), tx, others, key)
    {
      ghost var g0 := detector.graph;
      ghost var res0 := detector.resourceLocks;
      var i := 0;
      while i < |others|
        invariant 0 <= i <= |others|
        invariant detector.Invariant()
        invariant detector.graph == EdgesTo(g0, tx, others[..i])
        invariant detector.resourceLocks == HoldersOf(res0, key, others[..i])
      {
        WaitStep(g0, res0, tx, others, key, i);
        detector.AddWaitEdge(tx, others[i], key);
        i := i + 1;
      }
      assert others[..i] == others;
    }

    /** `_acquire_write_lock`. */
    method AcquireWriteLock(tx: string, key: string) returns (ok: bool)
      requires detector.Invariant()
      modifies this, detector
      ensures detector.Invariant()
      ensures (State(), ok) == AcquireWriteSpec(old(State()), tx, key)
    {
      var others := Without(Holders(locks, key), tx);
      if others != [] {
        WaitForAll(tx, others, key);
        var cycles := DetectCycles(detector.graph);
        if cycles != [] {
          HandleDeadlocks(cycles);
        }
        return false;
      }
      locks := Granted(locks, key, tx);
      ok := true;
    }

    /** `read`. */
    method Read(id: string, key: string) returns (r: Result<Option<V>>)
      requires detector.Invariant()
      modifies this, detector
      ensures detector.Invariant()
      ensures (State(), r) == ReadSpec(old(State()), id, key)
    {
      if !(id in active && active[id].status == Active) {
        return Err("transaction does not exist or is not active");
      }
      var tx := active[id];
      if LocksReads(tx.isolation) {
        var ok := AcquireReadLock(id, key);
        if !ok {
          return Err("cannot acquire read lock");
        }
        tx := tx.(readLocks := tx.readLocks + {key});
      }
      var v := Get(store, key);
      active := active[id := tx.(operations := tx.operations + [ReadOp(key, v)])];
      r := Ok(v);
    }

    /** `write`: buffer the new value; it reaches the store at commit. */
    method Write(id: string, key: string, value: V) returns (r: Result<bool>)
      requires detector.Invariant()
      modifies this, detector
      ensures detector.Invariant()
      ensures (State(), r) == ChangeSpec(old(State()), id, key, Some(value))
    {
      if !(id in active && active[id].status == Active) {
        return Err("transaction does not exist or is not active");
      }
      var tx := active[id];
      var ok := AcquireWriteLock(id, key);
      if !ok {
        return Err("cannot acquire write lock");
      }
      var op := WriteOp(key, value, Get(store, key));
      active := active[id := tx.(writeLocks := tx.writeLocks + {key}, operations := tx.operations + [op])];
      r := Ok(true);
    }

    /** `delete`: buffer the removal; it reaches the store at commit. */
    method Delete(id: string, key: string) returns (r: Result<bool>)
      requires detector.Invariant()
      modifies this, detector
      ensures detector.Invariant()
      ensures (State(), r) == ChangeSpec(old(State()), id, key, None)
    {
      if !(id in active && active[id].status == Active) {
        return Err("transaction does not exist or is not active");
      }
      var tx := active[id];
      var ok := AcquireWriteLock(id, key);
      if !ok {
        return Err("cannot acquire write lock");
      }
      var op := DeleteOp(key, Get(store, key));
      active := active[id := tx.(writeLocks := tx.writeLocks + {key}, operations := tx.operations + [op])];
      r := Ok(true);
    }

    /** `commit`. */
    method Commit(id: string, now: real) returns (r: Result<bool>)
      requires detector.Invariant()
      modifies this, detector
      ensures detector.Invariant()
      ensures (State(), r) == CommitSpec(old(State()), id, now)
    {
      if !(id in active && active[id].status == Active) {
        return Err("transaction does not exist or is not active");
      }
      var tx := active[id];
      var ops := tx.operations;
      var i := 0;
      while i < |ops|
        invariant 0 <= i <= |ops|
        invariant store == Apply(old(store), ops[..i])
        invariant active == old(active) && locks == old(locks) && stats == old(stats)
        invariant detector.graph == old(detector.graph) && detector.resourceLocks == old(detector.resourceLocks)
      {
        assert ops[..i + 1][..i] == ops[..i];
        match ops[i] {
          case ReadOp(_, _) =>
          case WriteOp(k, v, _) =>
            store := store[k := v];
          case DeleteOp(k, _) =>
            store := store - {k};
        }
        i := i + 1;
      }
      assert ops[..i] == ops;
      var committedTx := tx.(status := Committed, committedAt := Some(now));
      ReleaseLocks(id);
      var count := stats.committed + 1;
      var duration := Duration(committedTx, now);
      stats := stats.(committed := count, averageDuration := RunningMean(stats.averageDuration, count, duration));
      active := active - {id};
      r := Ok(true);
    }
  }
}
