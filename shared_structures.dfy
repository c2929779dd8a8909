/**
 * The framework's shared data structures: the action and plan lifecycles,
 * the execution context with its observations, the knowledge network of
 * relationships between knowledge items, and the provenance record with its
 * credibility, usage-based confidence and freshness scoring.
 */
module SharedStructures {
  import opened Outcomes
  import opened Seqs
  import opened Text
  import opened OrderedMaps

  // ---------------------------------------------------------------------
  // Actions and plans
  // ---------------------------------------------------------------------

  datatype ActionStatus = Pending | Executing | Completed | Failed | Skipped

  datatype PlanStatus = Created | PlanExecuting | PlanCompleted | PlanFailed | Cancelled

  /**
   * `execution_time`: the time between start and completion, but only when
   * both timestamps are truthy (a reading of exactly 0.0 counts as unset).
   */
  function Elapsed(startedAt: Option<real>, completedAt: Option<real>): (r: Option<real>)
    ensures r.Some? <==> Truthy(startedAt) && Truthy(completedAt)
    ensures r.Some? ==> startedAt.value + r.value == completedAt.value
  {
    if Truthy(startedAt) && Truthy(completedAt) then Some(completedAt.value - startedAt.value) else None
  }

  /** One tool call: its status and the timestamps its lifecycle records. */
  class Action {
    const toolName: string
    const actionId: string
    var status: ActionStatus
    var startedAt: Option<real>
    var completedAt: Option<real>

    /** A pending action; an empty id becomes `action_<tool>_<milliseconds>`. */
    constructor (toolName: string, actionId: string, now: real)
      requires now >= 0.0
      ensures this.toolName == toolName
      ensures this.actionId == if actionId != "" then actionId else StampedId("action_" + toolName + "_", now)
      ensures status == Pending && startedAt == None && completedAt == None
    {
      this.toolName := toolName;
      this.actionId := if actionId != "" then actionId else StampedId("action_" + toolName + "_", now);
      status, startedAt, completedAt := Pending, None, None;
    }

    method StartExecution(now: real)
      modifies `status, `startedAt
      ensures status == Executing && startedAt == Some(now)
    {
      status, startedAt := Executing, Some(now);
    }

    method CompleteExecution(now: real)
      modifies `status, `completedAt
      ensures status == Completed && completedAt == Some(now)
    {
      status, completedAt := Completed, Some(now);
    }

    method FailExecution(now: real)
      modifies `status, `completedAt
      ensures status == Failed && completedAt == Some(now)
    {
      status, completedAt := Failed, Some(now);
    }

    function ExecutionTime(): (r: Option<real>)
      reads this
      ensures r == Elapsed(startedAt, completedAt)
    {
      Elapsed(startedAt, completedAt)
    }
  }

  /** The actions of `xs` whose status is `st`, in plan order. */
  function WithStatus(xs: seq<Action>, st: ActionStatus): (r: seq<Action>)
    reads xs
    ensures forall i :: 0 <= i < |r| ==> r[i] in xs && r[i].status == st
    ensures forall i :: 0 <= i < |xs| && xs[i].status == st ==> xs[i] in r
    ensures |r| <= |xs|
  {
    if |xs| == 0 then []
    else if xs[0].status == st then [xs[0]] + WithStatus(xs[1..], st)
    else WithStatus(xs[1..], st)
  }

  /** No action is counted both pending and completed, so the two lists never exceed the plan together. */
  lemma {:induction false} StatusListsDisjoint(xs: seq<Action>)
    ensures |WithStatus(xs, Pending)| + |WithStatus(xs, Completed)| <= |xs|
  {
    if |xs| > 0 {
      StatusListsDisjoint(xs[1..]);
    }
  }

  /** A plan: the thought, the actions in order, and possibly a final answer without tools. */
  class Plan {
    const planId: string
    const thought: string
    var actions: seq<Action>
    var finalAnswer: Option<string>
    var status: PlanStatus

    /** A created plan; an empty id becomes `plan_<milliseconds>`. */
    constructor (thought: string, planId: string, finalAnswer: Option<string>, now: real)
      requires now >= 0.0
      ensures this.planId == if planId != "" then planId else StampedId("plan_", now)
      ensures this.thought == thought && actions == [] && this.finalAnswer == finalAnswer && status == Created
    {
      this.planId := if planId != "" then planId else StampedId("plan_", now);
      this.thought := thought;
      actions, this.finalAnswer, status := [], finalAnswer, Created;
    }

    /** `is_direct_answer`: a final answer and no actions. */
    predicate IsDirectAnswer()
      reads this
    {
      finalAnswer.Some? && |actions| == 0
    }

    /** `add_action`: appended in order; a plan with an action is no longer a direct answer. */
    method AddAction(action: Action)
      modifies `actions
      ensures actions == old(actions) + [action]
      ensures !IsDirectAnswer()
      ensures ActionCount() == old(ActionCount()) + 1
    {
      actions := actions + [action];
    }

    method StartExecution()
      modifies `status
      ensures status == PlanExecuting
    {
      status := PlanExecuting;
    }

    method CompleteExecution()
      modifies `status
      ensures status == PlanCompleted
    {
      status := PlanCompleted;
    }

    method FailExecution()
      modifies `status
      ensures status == PlanFailed
    {
      status := PlanFailed;
    }

    method CancelExecution()
      modifies `status
      ensures status == Cancelled
    {
      status := Cancelled;
    }

    function ActionCount(): nat
      reads this
    {
      |actions|
    }

    /** `pending_actions`. */
    function PendingActions(): (r: seq<Action>)
      reads this, actions
      ensures forall i :: 0 <= i < |r| ==> r[i] in actions && r[i].status == Pending
      ensures forall i :: 0 <= i < |actions| && actions[i].status == Pending ==> actions[i] in r
    {
      WithStatus(actions, Pending)
    }

    /** `completed_actions`. */
    function CompletedActions(): (r: seq<Action>)
      reads this, actions
      ensures forall i :: 0 <= i < |r| ==> r[i] in actions && r[i].status == Completed
      ensures forall i :: 0 <= i < |actions| && actions[i].status == Completed ==> actions[i] in r
      ensures |r| + |PendingActions()| <= ActionCount()
    {
      StatusListsDisjoint(actions);
      WithStatus(actions, Completed)
    }
  }

  // ---------------------------------------------------------------------
  // Observations and the execution context
  // ---------------------------------------------------------------------

  /** The result of one action, without its output's content. */
  datatype Observation = Observation(actionId: string, toolName: string, output: string, success: bool, errorMessage: Option<string>)

  /** `is_successful`: reported successful and without an error message. */
  predicate IsSuccessful(o: Observation)
  {
    o.success && o.errorMessage.None?
  }

  /** `successful_observations`. */
  function Successful(os: seq<Observation>): (r: seq<Observation>)
    ensures forall o :: o in r <==> o in os && IsSuccessful(o)
    ensures |r| <= |os|
  {
    if |os| == 0 then []
    else if IsSuccessful(os[0]) then [os[0]] + Successful(os[1..])
    else Successful(os[1..])
  }

  /** `failed_observations`. */
  function Unsuccessful(os: seq<Observation>): (r: seq<Observation>)
    ensures forall o :: o in r <==> o in os && !IsSuccessful(o)
    ensures |r| <= |os|
  {
    if |os| == 0 then []
    else if !IsSuccessful(os[0]) then [os[0]] + Unsuccessful(os[1..])
    else Unsuccessful(os[1..])
  }

  /** Every observation is either successful or failed, never both. */
  lemma {:induction false} ObservationsPartition(os: seq<Observation>)
    ensures |Successful(os)| + |Unsuccessful(os)| == |os|
  {
    if |os| > 0 {
      ObservationsPartition(os[1..]);
    }
  }

  /** `success_rate`: 0 with no observations, otherwise the successful fraction. */
  function SuccessRate(os: seq<Observation>): (r: real)
    ensures 0.0 <= r <= 1.0
    ensures |os| == 0 ==> r == 0.0
    ensures |os| > 0 ==> r == (|Successful(os)| as real) / (|os| as real)
  {
    if |os| == 0 then 0.0
    else
      RatioInUnit(|Successful(os)|, |os|);
      (|Successful(os)| as real) / (|os| as real)
  }

  /** The rate is 1 exactly when no observation failed, and 0 exactly when none succeeded. */
  lemma SuccessRateExtremes(os: seq<Observation>)
    requires |os| > 0
    ensures SuccessRate(os) == 1.0 <==> |Unsuccessful(os)| == 0
    ensures SuccessRate(os) == 0.0 <==> |Successful(os)| == 0
  {
    ObservationsPartition(os);
    RatioInUnit(|Successful(os)|, |os|);
  }

  /** One execution of a plan and the observations it produced. */
  class ExecutionContext {
    const contextId: string
    const plan: Plan
    var observations: seq<Observation>
    var finalResult: Option<string>

    /** An empty id becomes `ctx_<milliseconds>`. */
    constructor (plan: Plan, contextId: string, now: real)
      requires now >= 0.0
      ensures this.contextId == if contextId != "" then contextId else StampedId("ctx_", now)
      ensures this.plan == plan && observations == [] && finalResult == None
    {
      this.contextId := if contextId != "" then contextId else StampedId("ctx_", now);
      this.plan := plan;
      observations, finalResult := [], None;
    }

    /** `add_observation`: appended, and the success rate moves accordingly. */
    method AddObservation(o: Observation)
      modifies `observations
      ensures observations == old(observations) + [o]
      ensures |Successful(observations)| == |Successful(old(observations))| + (if IsSuccessful(o) then 1 else 0)
    {
      SuccessfulAppend(observations, o);
      observations := observations + [o];
    }
  }

  lemma {:induction false} SuccessfulAppend(os: seq<Observation>, o: Observation)
    ensures Successful(os + [o]) == Successful(os) + (if IsSuccessful(o) then [o] else [])
  {
    if |os| > 0 {
      assert (os + [o])[1..] == os[1..] + [o];
      SuccessfulAppend(os[1..], o);
    } else {
      assert (os + [o])[1..] == [];
    }
  }

  // ---------------------------------------------------------------------
  // The knowledge network
  // ---------------------------------------------------------------------

  /** The five relationship lists and the two per-item dictionaries. */
  datatype Network = Network(
    related: seq<string>,
    contradictory: seq<string>,
    supporting: seq<string>,
    derived: seq<string>,
    influences: seq<string>,
    scores: ODict<real>,
    meta: map<string, map<string, string>>)

  /** No list holds an id twice, and the score dictionary is well formed. */
  predicate NetworkOk(n: Network)
  {
    Distinct(n.related) && Distinct(n.contradictory) && Distinct(n.supporting)
    && Distinct(n.derived) && Distinct(n.influences) && Valid(n.scores)
  }

  function EmptyNetwork(): (n: Network)
    ensures NetworkOk(n) && TotalConnections(n) == 0
  {
    Network([], [], [], [], [], Empty(), map[])
  }

  /** Append `id` unless it is already listed. */
  function AddOnce(xs: seq<string>, id: string): (r: seq<string>)
    ensures Distinct(xs) ==> Distinct(r)
    ensures id in r && forall x :: x in r <==> x in xs || x == id
    ensures |r| == |xs| + (if id in xs then 0 else 1)
  {
    if id in xs then xs else xs + [id]
  }

  /** The list a relationship type names, if any. */
  function ListOf(n: Network, kind: string): (r: Option<seq<string>>)
  {
    if kind == "related" then Some(n.related)
    else if kind == "contradictory" then Some(n.contradictory)
    else if kind == "supporting" then Some(n.supporting)
    else if kind == "derived" then Some(n.derived)
    else if kind == "influences" then Some(n.influences)
    else None
  }

  /**
   * `add_relationship`: `id` joins the list its type names unless already
   * there (an unknown type joins none); a given score is recorded and
   * non-empty metadata replaces the id's metadata.
   */
  function Linked(n: Network, id: string, kind: string, score: Option<real>, meta: map<string, string>): (r: Network)
    requires NetworkOk(n)
    ensures NetworkOk(r)
    ensures ListOf(n, kind).Some? ==> ListOf(r, kind) == Some(AddOnce(ListOf(n, kind).value, id))
    ensures kind != "related" ==> r.related == n.related
    ensures kind != "contradictory" ==> r.contradictory == n.contradictory
    ensures kind != "supporting" ==> r.supporting == n.supporting
    ensures kind != "derived" ==> r.derived == n.derived
    ensures kind != "influences" ==> r.influences == n.influences
    ensures r.scores == if score.Some? then Put(n.scores, id, score.value) else n.scores
    ensures r.meta == if |meta| > 0 then n.meta[id := meta] else n.meta
  {
    var lists := if kind == "related" then n.(related := AddOnce(n.related, id))
      else if kind == "contradictory" then n.(contradictory := AddOnce(n.contradictory, id))
      else if kind == "supporting" then n.(supporting := AddOnce(n.supporting, id))
      else if kind == "derived" then n.(derived := AddOnce(n.derived, id))
      else if kind == "influences" then n.(influences := AddOnce(n.influences, id))
      else n;
    lists.(scores := if score.Some? then Put(n.scores, id, score.value) else n.scores,
           meta := if |meta| > 0 then n.meta[id := meta] else n.meta)
  }

  /**
   * `remove_relationship`: `id` leaves every list (one `list.remove` per
   * list, which on duplicate-free lists removes it entirely) and both
   * dictionaries.
   */
  function Unlinked(n: Network, id: string): (r: Network)
    requires NetworkOk(n)
    ensures NetworkOk(r)
    ensures forall x :: x in r.related <==> x in n.related && x != id
    ensures forall x :: x in r.contradictory <==> x in n.contradictory && x != id
    ensures forall x :: x in r.supporting <==> x in n.supporting && x != id
    ensures forall x :: x in r.derived <==> x in n.derived && x != id
    ensures forall x :: x in r.influences <==> x in n.influences && x != id
    ensures id !in r.scores.m && id !in r.meta
    ensures r.scores.m == n.scores.m - {id} && r.meta == n.meta - {id}
  {
    WithoutDistinct(n.related, id);
    WithoutDistinct(n.contradictory, id);
    WithoutDistinct(n.supporting, id);
    WithoutDistinct(n.derived, id);
    WithoutDistinct(n.influences, id);
    Network(Without(n.related, id), Without(n.contradictory, id), Without(n.supporting, id),
            Without(n.derived, id), Without(n.influences, id), Remove(n.scores, id), n.meta - {id})
  }

  /** `total_connections`. */
  function TotalConnections(n: Network): nat
  {
    |n.related| + |n.contradictory| + |n.supporting| + |n.derived| + |n.influences|
  }

  /** Adding a relationship adds one connection exactly when the id is new to a list of a known type. */
  lemma AddRelationshipConnections(n: Network, id: string, kind: string, score: Option<real>, meta: map<string, string>)
    requires NetworkOk(n)
    ensures TotalConnections(Linked(n, id, kind, score, meta))
            == TotalConnections(n) + (if ListOf(n, kind).Some? && id !in ListOf(n, kind).value then 1 else 0)
  {
  }

  /** Adding the same relationship twice leaves the network as adding it once. */
  lemma AddRelationshipIdempotent(n: Network, id: string, kind: string, score: Option<real>, meta: map<string, string>)
    requires NetworkOk(n)
    ensures Linked(Linked(n, id, kind, score, meta), id, kind, score, meta)
            == Linked(n, id, kind, score, meta)
  {
  }

  /** Removing an id that is in no list and has no score or metadata changes nothing. */
  lemma {:induction false} RemoveAbsentRelationship(n: Network, id: string)
    requires NetworkOk(n)
    requires id !in n.related && id !in n.contradictory && id !in n.supporting && id !in n.derived && id !in n.influences
    requires id !in n.scores.m && id !in n.meta
    ensures Unlinked(n, id) == n
  {
    WithoutLength(n.related, id);
    WithoutLength(n.contradictory, id);
    WithoutLength(n.supporting, id);
    WithoutLength(n.derived, id);
    WithoutLength(n.influences, id);
  }

  /** Removing a relationship just added for a new id restores the network. */
  lemma RemoveUndoesAdd(n: Network, id: string, kind: string, score: Option<real>, meta: map<string, string>)
    requires NetworkOk(n)
    requires id !in n.related && id !in n.contradictory && id !in n.supporting && id !in n.derived && id !in n.influences
    requires id !in n.scores.m && id !in n.meta
    ensures Unlinked(Linked(n, id, kind, score, meta), id) == n
  {
    RemoveUndoesAddLists(n, id, kind, score, meta);
    RemoveUndoesAddMaps(n, id, kind, score, meta);
  }

  lemma RemoveUndoesAddLists(n: Network, id: string, kind: string, score: Option<real>, meta: map<string, string>)
    requires NetworkOk(n)
    requires id !in n.related && id !in n.contradictory && id !in n.supporting && id !in n.derived && id !in n.influences
    ensures var u := Unlinked(Linked(n, id, kind, score, meta), id);
            u.related == n.related && u.contradictory == n.contradictory && u.supporting == n.supporting
            && u.derived == n.derived && u.influences == n.influences
  {
    var a := Linked(n, id, kind, score, meta);
    LinkedLists(n, id, kind, score, meta);
    UnlinkNewId(n.related, id, a.related);
    UnlinkNewId(n.contradictory, id, a.contradictory);
    UnlinkNewId(n.supporting, id, a.supporting);
    UnlinkNewId(n.derived, id, a.derived);
    UnlinkNewId(n.influences, id, a.influences);
    UnlinkedFields(a, id);
  }

  lemma RemoveUndoesAddMaps(n: Network, id: string, kind: string, score: Option<real>, meta: map<string, string>)
    requires NetworkOk(n) && id !in n.scores.m && id !in n.meta
    ensures var u := Unlinked(Linked(n, id, kind, score, meta), id);
            u.scores == n.scores && u.meta == n.meta
  {
    var a := Linked(n, id, kind, score, meta);
    UnlinkedFields(a, id);
    RemoveRecordedScore(n.scores, id, score);
    RemoveRecordedMeta(n.meta, id, meta);
  }

  /** Deleting a key that was absent before an optional metadata store leaves the metadata as it was. */
  lemma RemoveRecordedMeta(m: map<string, map<string, string>>, id: string, meta: map<string, string>)
    requires id !in m
    ensures (if |meta| > 0 then m[id := meta] else m) - {id} == m
  {
  }

  /** Deleting a key that was absent before an optional store leaves the dictionary as it was. */
  lemma RemoveRecordedScore(d: ODict<real>, id: string, score: Option<real>)
    requires Valid(d) && id !in d.m
    ensures Remove(if score.Some? then Put(d, id, score.value) else d, id) == d
  {
    if score.Some? {
      RemovePutNew(d, id, score.value);
    } else {
      WithoutLength(d.keys, id);
    }
  }

  /** Each list after `Linked` is the old list, or the old list with `id` appended. */
  lemma LinkedLists(n: Network, id: string, kind: string, score: Option<real>, meta: map<string, string>)
    requires NetworkOk(n) && id !in n.related && id !in n.contradictory && id !in n.supporting && id !in n.derived && id !in n.influences
    ensures var a := Linked(n, id, kind, score, meta);
            && (a.related == n.related || a.related == n.related + [id])
            && (a.contradictory == n.contradictory || a.contradictory == n.contradictory + [id])
            && (a.supporting == n.supporting || a.supporting == n.supporting + [id])
            && (a.derived == n.derived || a.derived == n.derived + [id])
            && (a.influences == n.influences || a.influences == n.influences + [id])
  {
    var a := Linked(n, id, kind, score, meta);
    assert ListOf(n, kind).Some? ==> ListOf(a, kind) == Some(AddOnce(ListOf(n, kind).value, id));
  }

  /** `Unlinked` field by field. */
  lemma UnlinkedFields(n: Network, id: string)
    requires NetworkOk(n)
    ensures Unlinked(n, id) == Network(Without(n.related, id), Without(n.contradictory, id), Without(n.supporting, id),
                                       Without(n.derived, id), Without(n.influences, id), Remove(n.scores, id), n.meta - {id})
  {
  }

  /** A list that gained at most `id` loses exactly it again. */
  lemma UnlinkNewId(xs: seq<string>, id: string, ys: seq<string>)
    requires Distinct(xs) && id !in xs
    requires ys == xs || ys == xs + [id]
    ensures Without(ys, id) == xs
  {
    WithoutLength(xs, id);
    WithoutAppended(xs, id);
  }

  /** Deleting a key just added to a dictionary restores it. */
  lemma RemovePutNew(d: ODict<real>, k: string, v: real)
    requires Valid(d) && k !in d.m
    ensures Remove(Put(d, k, v), k) == d
  {
    WithoutAppended(d.keys, k);
    WithoutLength(d.keys, k);
  }

  lemma {:induction false} WithoutAppended(xs: seq<string>, id: string)
    ensures Without(xs + [id], id) == Without(xs, id)
  {
    if |xs| == 0 {
      assert Without([id], id) == Without([id][1..], id);
    } else {
      assert (xs + [id])[1..] == xs[1..] + [id];
      WithoutAppended(xs[1..], id);
    }
  }

  /** The similarity scores in insertion order. */
  function ScoreValues(d: ODict<real>): (r: seq<real>)
    requires Valid(d)
    ensures |r| == |d.keys|
    ensures forall i :: 0 <= i < |r| ==> r[i] == d.m[d.keys[i]]
  {
    seq(|d.keys|, i requires 0 <= i < |d.keys| => d.m[d.keys[i]])
  }

  /** `connection_strength`: the mean similarity score, 0 with none. */
  function ConnectionStrength(n: Network): (r: real)
    requires NetworkOk(n)
    ensures |n.scores.keys| == 0 ==> r == 0.0
    ensures (forall k :: k in n.scores.m ==> 0.0 <= n.scores.m[k] <= 1.0) ==> 0.0 <= r <= 1.0
  {
    if |n.scores.keys| == 0 then 0.0
    else
      var vs := ScoreValues(n.scores);
      assert (forall k :: k in n.scores.m ==> 0.0 <= n.scores.m[k] <= 1.0) ==> 0.0 <= Mean(vs) <= 1.0 by {
        if forall k :: k in n.scores.m ==> 0.0 <= n.scores.m[k] <= 1.0 {
          MeanBounds(vs, 0.0, 1.0);
        }
      }
      Mean(vs)
  }

  /** The network as an object whose methods change its lists and dictionaries in place. */
  class KnowledgeNetwork {
    var related: seq<string>
    var contradictory: seq<string>
    var supporting: seq<string>
    var derived: seq<string>
    var influences: seq<string>
    var scores: ODict<real>
    var meta: map<string, map<string, string>>

    function State(): Network
      reads this
    {
      Network(related, contradictory, supporting, derived, influences, scores, meta)
    }

    constructor ()
      ensures State() == EmptyNetwork()
    {
      related, contradictory, supporting, derived, influences := [], [], [], [], [];
      scores, meta := Empty(), map[];
    }

    method AddRelationship(id: string, kind: string, score: Option<real>, m: map<string, string>)
      requires NetworkOk(State())
      modifies this
      ensures State() == Linked(old(State()), id, kind, score, m)
    {
      if kind == "related" {
        if id !in related { related := related + [id]; }
      } else if kind == "contradictory" {
        if id !in contradictory { contradictory := contradictory + [id]; }
      } else if kind == "supporting" {
        if id !in supporting { supporting := supporting + [id]; }
      } else if kind == "derived" {
        if id !in derived { derived := derived + [id]; }
      } else if kind == "influences" {
        if id !in influences { influences := influences + [id]; }
      }
      if score.Some? {
        scores := Put(scores, id, score.value);
      }
      if |m| > 0 {
        meta := meta[id := m];
      }
    }

    method RemoveRelationship(id: string)
      requires NetworkOk(State())
      modifies this
      ensures State() == Unlinked(old(State()), id)
    {
      related := Without(related, id);
      contradictory := Without(contradictory, id);
      supporting := Without(supporting, id);
      derived := Without(derived, id);
      influences := Without(influences, id);
      scores := Remove(scores, id);
      meta := meta - {id};
    }
  }

  // ---------------------------------------------------------------------
  // Knowledge provenance
  // ---------------------------------------------------------------------

  datatype VerificationStatus = NotVerified | PendingVerification | PartiallyVerified | Verified | Conflicting | Outdated | Invalid

  /** A validation record: when, with what outcome and confidence, and the conflicts it found. */
  datatype Validation = Validation(date: real, status: VerificationStatus, confidence: real, conflicts: seq<string>)

  predicate ValidationVerified(v: Validation)
  {
    v.status == Verified || v.status == PartiallyVerified
  }

  predicate ValidationConflicted(v: Validation)
  {
    |v.conflicts| > 0 || v.status == Conflicting
  }

  datatype CredibilityLevel = VeryHigh | High | Medium | Low | VeryLow | Unverified

  /** Position of a level on the scale, `Unverified` lowest. */
  function Rank(l: CredibilityLevel): nat
  {
    match l
    case Unverified => 0
    case VeryLow => 1
    case Low => 2
    case Medium => 3
    case High => 4
    case VeryHigh => 5
  }

  /** The level an average confidence earns: thresholds 0.9, 0.7, 0.5, 0.3 and 0.1. */
  function CredibilityFor(avg: real): (l: CredibilityLevel)
    ensures l == VeryHigh <==> avg >= 0.9
    ensures l == Unverified <==> avg < 0.1
  {
    if avg >= 0.9 then VeryHigh
    else if avg >= 0.7 then High
    else if avg >= 0.5 then Medium
    else if avg >= 0.3 then Low
    else if avg >= 0.1 then VeryLow
    else Unverified
  }

  /** A higher average never earns a lower level, and each level covers one band. */
  lemma CredibilityMonotone(a: real, b: real)
    requires a <= b
    ensures Rank(CredibilityFor(a)) <= Rank(CredibilityFor(b))
    ensures CredibilityFor(a) == CredibilityFor(b) <== (a >= 0.9 || b < 0.1
              || (0.7 <= a && b < 0.9) || (0.5 <= a && b < 0.7) || (0.3 <= a && b < 0.5) || (0.1 <= a && b < 0.3))
  {
  }

  /** The validations dated after `cutoff`, in order. */
  function DatedAfter(vs: seq<Validation>, cutoff: real): (r: seq<Validation>)
    ensures forall v :: v in r <==> v in vs && v.date > cutoff
    ensures |r| <= |vs|
  {
    if |vs| == 0 then []
    else if vs[0].date > cutoff then [vs[0]] + DatedAfter(vs[1..], cutoff)
    else DatedAfter(vs[1..], cutoff)
  }

  /** The validations the credibility is computed from: those of the last 24 hours, else the last three. */
  function RecentValidations(vs: seq<Validation>, now: real): (r: seq<Validation>)
    requires |vs| > 0
    ensures 0 < |r| <= |vs|
    ensures forall v :: v in r ==> v in vs
  {
    var day := DatedAfter(vs, now - 86400.0);
    if |day| > 0 then day
    else
      var last := LastN(vs, 3);
      assert forall v :: v in last ==> v in vs;
      last
  }

  function Confidences(vs: seq<Validation>): (r: seq<real>)
    ensures |r| == |vs| && forall i :: 0 <= i < |vs| ==> r[i] == vs[i].confidence
  {
    seq(|vs|, i requires 0 <= i < |vs| => vs[i].confidence)
  }

  /**
   * `_update_credibility_from_validations`: the mean confidence of the
   * recent validations becomes the confidence score, and its level the
   * credibility; with no validations nothing changes.
   */
  function Assess(vs: seq<Validation>, now: real, confidence: real, level: CredibilityLevel): (r: (real, CredibilityLevel))
    ensures |vs| == 0 ==> r == (confidence, level)
    ensures |vs| > 0 ==> r.1 == CredibilityFor(r.0)
    ensures |vs| > 0 && (forall v :: v in vs ==> 0.0 <= v.confidence <= 1.0) ==> 0.0 <= r.0 <= 1.0
  {
    if |vs| == 0 then (confidence, level)
    else
      var recent := RecentValidations(vs, now);
      var cs := Confidences(recent);
      assert (forall v :: v in vs ==> 0.0 <= v.confidence <= 1.0) ==> 0.0 <= Mean(cs) <= 1.0 by {
        if forall v :: v in vs ==> 0.0 <= v.confidence <= 1.0 {
          assert forall i :: 0 <= i < |cs| ==> recent[i] in vs;
          MeanBounds(cs, 0.0, 1.0);
        }
      }
      var avg := Mean(cs);
      (avg, CredibilityFor(avg))
  }

  /** Validations all at one confidence give that confidence and its level. */
  lemma AssessUniform(vs: seq<Validation>, now: real, c: real, confidence: real, level: CredibilityLevel)
    requires |vs| > 0 && forall v :: v in vs ==> v.confidence == c
    ensures Assess(vs, now, confidence, level) == (c, CredibilityFor(c))
  {
    var recent := RecentValidations(vs, now);
    var cs := Confidences(recent);
    forall i | 0 <= i < |cs|
      ensures cs[i] == c
    {
      assert recent[i] in vs;
    }
    MeanConstant(cs, c);
  }

  /** The usage counters. */
  datatype Usage = Usage(accessCount: nat, successful: nat, failed: nat, lastAccessed: real)

  /** `record_usage`'s counters: one more access and exactly one more success or failure. */
  function RecordedUsage(u: Usage, success: bool, now: real): (r: Usage)
    ensures r.accessCount == u.accessCount + 1 && r.lastAccessed == now
    ensures r.successful + r.failed == u.successful + u.failed + 1
    ensures success <==> r.successful == u.successful + 1
    ensures !success <==> r.failed == u.failed + 1
  {
    if success then u.(accessCount := u.accessCount + 1, lastAccessed := now, successful := u.successful + 1)
    else u.(accessCount := u.accessCount + 1, lastAccessed := now, failed := u.failed + 1)
  }

  /** `success_rate`: successes over applications, 0 with none. */
  function UsageSuccessRate(u: Usage): (r: real)
    ensures 0.0 <= r <= 1.0
    ensures u.successful + u.failed == 0 ==> r == 0.0
  {
    var total := u.successful + u.failed;
    if total == 0 then 0.0
    else
      RatioInUnit(u.successful, total);
      (u.successful as real) / (total as real)
  }

  /**
   * `_adjust_confidence_from_usage`: once used, the confidence moves by a
   * tenth of how far the success rate is from one half, kept within [0, 1].
   */
  function AdjustedConfidence(confidence: real, u: Usage): (r: real)
    ensures u.successful + u.failed == 0 ==> r == confidence
    ensures u.successful + u.failed > 0 ==> 0.0 <= r <= 1.0
    ensures 0.0 <= confidence <= 1.0 ==> confidence - 0.05 <= r <= confidence + 0.05
    ensures 0.0 <= confidence <= 1.0 && UsageSuccessRate(u) >= 0.5 ==> r >= confidence
    ensures 0.0 <= confidence <= 1.0 && UsageSuccessRate(u) <= 0.5 ==> r <= confidence
  {
    if u.successful + u.failed > 0 then Clamp(confidence + (UsageSuccessRate(u) - 0.5) * 0.1, 0.0, 1.0)
    else confidence
  }

  /** Usage recorded from fresh counters keeps the access count equal to the applications counted. */
  lemma {:induction false} UsageCountsAgree(u: Usage, outcomes: seq<bool>, now: real)
    requires u.accessCount == u.successful + u.failed
    ensures var r := RecordAll(u, outcomes, now);
            r.accessCount == r.successful + r.failed && r.accessCount == u.accessCount + |outcomes|
            && r.successful == u.successful + CountTrue(outcomes)
    decreases |outcomes|
  {
    if |outcomes| > 0 {
      UsageCountsAgree(u, outcomes[..|outcomes| - 1], now);
    }
  }

  /** `record_usage` for each outcome in turn. */
  function RecordAll(u: Usage, outcomes: seq<bool>, now: real): Usage
  {
    if |outcomes| == 0 then u else RecordedUsage(RecordAll(u, outcomes[..|outcomes| - 1], now), outcomes[|outcomes| - 1], now)
  }

  /** `freshness_score` from the age in days: 1.0 within a day down to 0.1 after a year. */
  function Freshness(ageDays: real): (r: real)
    ensures 0.1 <= r <= 1.0
  {
    if ageDays <= 1.0 then 1.0
    else if ageDays <= 7.0 then 0.8
    else if ageDays <= 30.0 then 0.6
    else if ageDays <= 90.0 then 0.4
    else if ageDays <= 365.0 then 0.2
    else 0.1
  }

  /** Older knowledge is never fresher. */
  lemma FreshnessNonIncreasing(a: real, b: real)
    requires a <= b
    ensures Freshness(b) <= Freshness(a)
  {
  }

  /** `age_in_days`. */
  function AgeInDays(creation: real, now: real): real
  {
    (now - creation) / 86400.0
  }

  /**
   * The identifiers `__post_init__` produces, as written: the timestamp is
   * only computed when the provenance id is empty, so an empty knowledge id
   * with a given provenance id reads an unbound local and raises.
   */
  function ProvenanceIdsAsWritten(provenanceId: string, knowledgeId: string, now: real): (r: Result<(string, string)>)
    requires now >= 0.0
    ensures r.Err? <==> provenanceId != "" && knowledgeId == ""
  {
    if provenanceId == "" then
      Ok((StampedId("provenance_", now), if knowledgeId == "" then StampedId("knowledge_", now) else knowledgeId))
    else if knowledgeId == "" then Err("UnboundLocalError: timestamp")
    else Ok((provenanceId, knowledgeId))
  }

  /** A provenance record created with its own id but no knowledge id cannot be built. */
  lemma GivenProvenanceIdWithoutKnowledgeIdRaises()
    ensures ProvenanceIdsAsWritten("provenance_1", "", 1.0).Err?
  {
  }

  /** The identifiers with the timestamp always available: both ids are set, given ones kept. */
  function ProvenanceIds(provenanceId: string, knowledgeId: string, now: real): (r: (string, string))
    requires now >= 0.0
    ensures r.0 != "" && r.1 != ""
    ensures provenanceId != "" ==> r.0 == provenanceId
    ensures knowledgeId != "" ==> r.1 == knowledgeId
    ensures provenanceId == "" ==> r.0 == StampedId("provenance_", now)
    ensures knowledgeId == "" ==> r.1 == StampedId("knowledge_", now)
  {
    (if provenanceId == "" then StampedId("provenance_", now) else provenanceId,
     if knowledgeId == "" then StampedId("knowledge_", now) else knowledgeId)
  }

  /** Where the written code succeeds, the corrected ids are the same. */
  lemma ProvenanceIdsAgree(provenanceId: string, knowledgeId: string, now: real)
    requires now >= 0.0 && ProvenanceIdsAsWritten(provenanceId, knowledgeId, now).Ok?
    ensures ProvenanceIdsAsWritten(provenanceId, knowledgeId, now).value == ProvenanceIds(provenanceId, knowledgeId, now)
  {
  }

  /** A source reference, reduced to what the provenance record compares. */
  datatype SourceReference = SourceReference(url: Option<string>, title: Option<string>, author: Option<string>)

  /** A knowledge update record, without its free-form fields. */
  datatype KnowledgeUpdate = KnowledgeUpdate(updateType: string, confidenceChange: real)

  /** The provenance record of one knowledge item. */
  class KnowledgeProvenance {
    const provenanceId: string
    const knowledgeId: string
    const creationDate: real
    var lastUpdated: real
    var primarySource: Option<SourceReference>
    var additionalSources: seq<SourceReference>
    var credibility: CredibilityLevel
    var confidence: real
    var validations: seq<Validation>
    var updates: seq<KnowledgeUpdate>
    var usage: Usage
    var contextTags: set<string>
    var expiration: Option<real>

    /** A fresh record; the ids follow `ProvenanceIds` and the usage counters start at zero. */
    constructor (provenanceId: string, knowledgeId: string, now: real)
      requires now >= 0.0
      ensures (this.provenanceId, this.knowledgeId) == ProvenanceIds(provenanceId, knowledgeId, now)
      ensures creationDate == now && lastUpdated == now
      ensures primarySource == None && additionalSources == [] && validations == [] && updates == []
      ensures credibility == Unverified && confidence == 0.0
      ensures usage == Usage(0, 0, 0, 0.0) && contextTags == {} && expiration == None
    {
      var ids := ProvenanceIds(provenanceId, knowledgeId, now);
      this.provenanceId, this.knowledgeId := ids.0, ids.1;
      creationDate, lastUpdated := now, now;
      primarySource, additionalSources, validations, updates := None, [], [], [];
      credibility, confidence := Unverified, 0.0;
      usage, contextTags, expiration := Usage(0, 0, 0, 0.0), {}, None;
    }

    /** The number of sources, as the summary counts them. */
    function SourceCount(): nat
      reads this
    {
      |additionalSources| + (if primarySource.Some? then 1 else 0)
    }

    /**
     * `add_source`: the source becomes primary when asked or when there is
     * none yet, and is otherwise appended; replacing a primary loses the old one.
     */
    method AddSource(source: SourceReference, isPrimary: bool, now: real)
      modifies `primarySource, `additionalSources, `lastUpdated
      ensures isPrimary || old(primarySource).None? ==> primarySource == Some(source) && additionalSources == old(additionalSources)
      ensures !(isPrimary || old(primarySource).None?) ==> primarySource == old(primarySource) && additionalSources == old(additionalSources) + [source]
      ensures SourceCount() == old(SourceCount()) + (if isPrimary && old(primarySource).Some? then 0 else 1)
      ensures lastUpdated == now
    {
      if isPrimary || primarySource.None? {
        primarySource := Some(source);
      } else {
        additionalSources := additionalSources + [source];
      }
      lastUpdated := now;
    }

    /** `add_validation`: recorded, then the confidence and credibility are reassessed. */
    method AddValidation(v: Validation, now: real)
      modifies `validations, `confidence, `credibility, `lastUpdated
      ensures validations == old(validations) + [v]
      ensures (confidence, credibility) == Assess(validations, now, old(confidence), old(credibility))
      ensures credibility == CredibilityFor(confidence)
      ensures lastUpdated == now
    {
      validations := validations + [v];
      var a := Assess(validations, now, confidence, credibility);
      confidence, credibility := a.0, a.1;
      lastUpdated := now;
    }

    method AddUpdate(u: KnowledgeUpdate, now: real)
      modifies `updates, `lastUpdated
      ensures updates == old(updates) + [u] && lastUpdated == now
    {
      updates := updates + [u];
      lastUpdated := now;
    }

    /** `record_usage`: the counters advance and the confidence is adjusted by the new success rate. */
    method RecordUsage(success: bool, now: real)
      modifies `usage, `confidence
      ensures usage == RecordedUsage(old(usage), success, now)
      ensures confidence == AdjustedConfidence(old(confidence), usage)
      ensures 0.0 <= confidence <= 1.0
    {
      usage := RecordedUsage(usage, success, now);
      confidence := AdjustedConfidence(confidence, usage);
    }

    method AddContextTag(tag: string)
      modifies `contextTags
      ensures contextTags == old(contextTags) + {tag}
    {
      contextTags := contextTags + {tag};
    }

    /** `remove_context_tag`: discarding an absent tag is not an error. */
    method RemoveContextTag(tag: string)
      modifies `contextTags
      ensures contextTags == old(contextTags) - {tag}
    {
      contextTags := contextTags - {tag};
    }

    method SetExpiration(date: real)
      modifies `expiration
      ensures expiration == Some(date)
    {
      expiration := Some(date);
    }

    /** `is_expired`: only a truthy expiration date can expire. */
    predicate IsExpired(now: real)
      reads this
    {
      Truthy(expiration) && now > expiration.value
    }

    predicate IsVerified()
      reads this
    {
      exists i :: 0 <= i < |validations| && ValidationVerified(validations[i])
    }

    predicate HasConflicts()
      reads this
    {
      exists i :: 0 <= i < |validations| && ValidationConflicted(validations[i])
    }

    function FreshnessScore(now: real): (r: real)
      reads this
      ensures 0.1 <= r <= 1.0
    {
      Freshness(AgeInDays(creationDate, now))
    }
  }
}
