/**
 * The LangChain-side bandit engine: arms keyed by id with reward and
 * Beta-posterior statistics, a bounded action log, the deterministic
 * selection rules (greedy exploitation and UCB1 with unpulled arms first),
 * arm rankings and reset.
 */
module MabEngine {
  import opened Outcomes
  import opened Seqs
  import opened OrderedMaps
  import opened Sorting

  /** `MABArm` without its free-form metadata and confidence radius. */
  datatype MabArm = MabArm(
    armId: string,
    name: string,
    totalPulls: nat,
    totalReward: real,
    successCount: nat,
    failureCount: nat,
    rewardHistory: seq<real>,
    pullTimestamps: seq<real>,
    lastUpdated: real,
    thompsonAlpha: real,
    thompsonBeta: real)

  /** A fresh arm with the dataclass defaults. */
  function NewArm(armId: string, name: string, now: real): (a: MabArm)
    ensures a.armId == armId && a.totalPulls == 0 && a.totalReward == 0.0
    ensures a.thompsonAlpha == 1.0 && a.thompsonBeta == 1.0 && a.rewardHistory == []
  {
    MabArm(armId, name, 0, 0.0, 0, 0, [], [], now, 1.0, 1.0)
  }

  /** `average_reward`: total reward over `max(total_pulls, 1)`. */
  function AverageReward(a: MabArm): (r: real)
    ensures a.totalPulls == 0 ==> r == a.totalReward
    ensures a.totalPulls > 0 ==> r * (a.totalPulls as real) == a.totalReward
  {
    a.totalReward / ((if a.totalPulls >= 1 then a.totalPulls else 1) as real)
  }

  /** `success_rate`: successes over `max(successes + failures, 1)`. */
  function ArmSuccessRate(a: MabArm): (r: real)
    ensures 0.0 <= r <= 1.0
    ensures a.successCount + a.failureCount == 0 ==> r == 0.0
  {
    var attempts := a.successCount + a.failureCount;
    (a.successCount as real) / ((if attempts >= 1 then attempts else 1) as real)
  }

  /** The Beta posterior counts every graded pull once: alpha + beta = 2 + graded pulls. */
  predicate PosteriorConsistent(a: MabArm)
  {
    a.thompsonAlpha + a.thompsonBeta == 2.0 + (a.successCount + a.failureCount) as real
  }

  /** Python's `xs[-n:]` as written, where `xs[-0:]` is the whole list. */
  function PySuffix<T>(xs: seq<T>, n: nat): (r: seq<T>)
    ensures n > 0 ==> |r| <= n
    ensures n == 0 ==> r == xs
  {
    if n == 0 then xs else LastN(xs, n)
  }

  /**
   * Arm statistics after one graded pull with reward `reward` at time
   * `now`: one more pull, the reward added, exactly one of the success
   * (reward above 0.5) and failure counters up by one, the newest reward
   * and timestamp last in histories of at most `maxHistory` entries, and
   * the posterior kept consistent.
   */
  function Rewarded(a: MabArm, reward: real, now: real, maxHistory: nat): (b: MabArm)
    ensures b.armId == a.armId && b.name == a.name
    ensures b.totalPulls == a.totalPulls + 1 && b.totalReward == a.totalReward + reward
    ensures reward > 0.5 ==> b.successCount == a.successCount + 1 && b.failureCount == a.failureCount
    ensures reward <= 0.5 ==> b.failureCount == a.failureCount + 1 && b.successCount == a.successCount
    ensures maxHistory > 0 ==> |b.rewardHistory| <= maxHistory
    ensures |b.rewardHistory| > 0 && b.rewardHistory[|b.rewardHistory| - 1] == reward
    ensures |a.rewardHistory| == |a.pullTimestamps| ==>
      |b.rewardHistory| == |b.pullTimestamps| && b.pullTimestamps[|b.pullTimestamps| - 1] == now
    ensures PosteriorConsistent(a) ==> PosteriorConsistent(b)
  {
    var rewards := a.rewardHistory + [reward];
    var stamps := a.pullTimestamps + [now];
    var trim := |rewards| > maxHistory;
    a.(totalPulls := a.totalPulls + 1,
       totalReward := a.totalReward + reward,
       successCount := if reward > 0.5 then a.successCount + 1 else a.successCount,
       failureCount := if reward > 0.5 then a.failureCount else a.failureCount + 1,
       rewardHistory := if trim then PySuffix(rewards, maxHistory) else rewards,
       pullTimestamps := if trim then PySuffix(stamps, maxHistory) else stamps,
       lastUpdated := now,
       thompsonAlpha := a.thompsonAlpha + reward,
       thompsonBeta := a.thompsonBeta + (1.0 - reward))
  }

  /** `reset` on one arm: counters and histories cleared, the posterior back to Beta(1, 1). */
  function ResetArm(a: MabArm): (b: MabArm)
    ensures b.armId == a.armId && b.totalPulls == 0 && b.totalReward == 0.0
    ensures b.successCount == 0 && b.failureCount == 0 && b.rewardHistory == [] && b.pullTimestamps == []
    ensures PosteriorConsistent(b)
  {
    a.(totalPulls := 0, totalReward := 0.0, successCount := 0, failureCount := 0,
       rewardHistory := [], pullTimestamps := [], thompsonAlpha := 1.0, thompsonBeta := 1.0)
  }

  // ---------------------------------------------------------------------
  // Deterministic selection rules
  // ---------------------------------------------------------------------

  /** A selection value: UCB1 gives an unpulled arm `float('inf')`. */
  datatype Score = Finite(v: real) | Infinite

  predicate Below(a: Score, b: Score)
  {
    match (a, b)
    case (Finite(x), Finite(y)) => x < y
    case (Finite(_), Infinite) => true
    case (Infinite, _) => false
  }

  /** What `max(keys, key=...)` returns: the first position holding a largest score. */
  function FirstBest(xs: seq<Score>): (i: nat)
    requires |xs| > 0
    ensures i < |xs|
    ensures forall j :: 0 <= j < |xs| ==> !Below(xs[i], xs[j])
    ensures forall j :: 0 <= j < i ==> Below(xs[j], xs[i])
  {
    if |xs| == 1 then 0
    else
      var p := FirstBest(xs[..|xs| - 1]);
      if Below(xs[p], xs[|xs| - 1]) then |xs| - 1 else p
  }

  /** The average rewards, in arm order. */
  function Averages(d: ODict<MabArm>): (r: seq<Score>)
    requires Valid(d)
    ensures |r| == |d.keys|
    ensures forall i :: 0 <= i < |r| ==> r[i] == Finite(AverageReward(d.m[d.keys[i]]))
  {
    seq(|d.keys|, i requires 0 <= i < |d.keys| => Finite(AverageReward(d.m[d.keys[i]])))
  }

  /** The exploitation branch of `_epsilon_greedy_selection`: the first arm with the highest average reward. */
  function GreedyArm(d: ODict<MabArm>): (r: Option<string>)
    requires Valid(d)
    ensures r.None? <==> Size(d) == 0
    ensures r.Some? ==> r.value in d.m
    ensures r.Some? ==> forall k :: k in d.m ==> AverageReward(d.m[k]) <= AverageReward(d.m[r.value])
  {
    if Size(d) == 0 then None
    else
      var i := FirstBest(Averages(d));
      assert forall k :: k in d.m ==> exists j :: 0 <= j < |d.keys| && d.keys[j] == k;
      Some(d.keys[i])
  }

  /** The UCB1 value of each arm, given each arm's confidence term `c·sqrt(ln n / pulls)`. */
  function Ucb1Scores(d: ODict<MabArm>, terms: map<string, real>): (r: seq<Score>)
    requires Valid(d) && forall k :: k in d.m ==> k in terms
    ensures |r| == |d.keys|
    ensures forall i :: 0 <= i < |r| ==> (r[i].Infinite? <==> d.m[d.keys[i]].totalPulls == 0)
  {
    seq(|d.keys|, i requires 0 <= i < |d.keys| =>
      var a := d.m[d.keys[i]];
      if a.totalPulls == 0 then Infinite else Finite(AverageReward(a) + terms[d.keys[i]]))
  }

  /**
   * `_ucb1_selection`: before any round the choice is random (`None`
   * here); afterwards the first arm with the largest UCB1 value.
   */
  function Ucb1Arm(d: ODict<MabArm>, terms: map<string, real>, totalRounds: nat): (r: Option<string>)
    requires Valid(d) && forall k :: k in d.m ==> k in terms
    ensures r.Some? ==> r.value in d.m
    ensures r.None? <==> Size(d) == 0 || totalRounds == 0
  {
    if Size(d) == 0 || totalRounds == 0 then None
    else Some(d.keys[FirstBest(Ucb1Scores(d, terms))])
  }

  /** UCB1 tries an arm that was never pulled before any other: the first such arm in order. */
  lemma UnpulledArmFirst(d: ODict<MabArm>, terms: map<string, real>, totalRounds: nat, k: nat)
    requires Valid(d) && (forall x :: x in d.m ==> x in terms) && totalRounds > 0
    requires k < |d.keys| && d.m[d.keys[k]].totalPulls == 0
    requires forall j :: 0 <= j < k ==> d.m[d.keys[j]].totalPulls > 0
    ensures Ucb1Arm(d, terms, totalRounds) == Some(d.keys[k])
  {
    var s := Ucb1Scores(d, terms);
    var i := FirstBest(s);
    assert s[k].Infinite?;
    assert !Below(s[i], s[k]);
    assert s[i].Infinite?;
    assert !Below(s[k], s[i]);
  }

  // ---------------------------------------------------------------------
  // Rankings
  // ---------------------------------------------------------------------

  /** The `(arm_id, average_reward)` pairs in arm order. */
  function RankEntries(d: ODict<MabArm>): (r: seq<(string, real)>)
    requires Valid(d)
    ensures |r| == |d.keys|
    ensures forall i :: 0 <= i < |r| ==> r[i] == (d.keys[i], AverageReward(d.m[d.keys[i]]))
  {
    seq(|d.keys|, i requires 0 <= i < |d.keys| => (d.keys[i], AverageReward(d.m[d.keys[i]])))
  }

  /** `get_arm_rankings`. */
  function Rankings(d: ODict<MabArm>): seq<(string, real)>
    requires Valid(d)
  {
    SortBy(RankEntries(d), true)
  }

  /**
   * The rankings list every arm once with its average reward, highest
   * first, and the top-ranked arm is the one greedy exploitation picks.
   */
  lemma RankingsCorrect(d: ODict<MabArm>)
    requires Valid(d)
    ensures Ordered(Rankings(d), true) && multiset(Rankings(d)) == multiset(RankEntries(d))
    ensures |Rankings(d)| == Size(d)
    ensures Size(d) > 0 ==> GreedyArm(d) == Some(Rankings(d)[0].0)
  {
    SortByCorrect(RankEntries(d), true);
    if Size(d) > 0 {
      SortByHead(RankEntries(d), true, FirstBest(Averages(d)));
    }
  }

  // ---------------------------------------------------------------------
  // The engine
  // ---------------------------------------------------------------------

  /** `MABAction` without its context: which arm was chosen and the reward it got, once known. */
  datatype MabAction = MabAction(armId: string, reward: Option<real>)

  /** The `MABConfiguration` fields the bookkeeping uses. */
  datatype EngineConfig = EngineConfig(enableColdStart: bool, maxHistoryLength: nat)

  /** A deque with `maxlen`: appending to a full one drops the oldest entry. */
  function DequeAppend<T>(xs: seq<T>, x: T, maxLen: nat): (r: seq<T>)
    ensures |r| <= maxLen || r == xs + [x]
    ensures |xs| < maxLen ==> r == xs + [x]
    ensures |r| > 0 ==> r[|r| - 1] == x
  {
    LastN(xs + [x], maxLen)
  }

  /** `_is_exploration_action`: the action's arm is gone, or is not the top-ranked arm. */
  function IsExplorationAction(d: ODict<MabArm>, action: MabAction): bool
    requires Valid(d)
  {
    Size(d) == 0 || action.armId !in d.m || action.armId != Rankings(d)[0].0
  }

  /** An action on a present arm counts as exploitation exactly when greedy exploitation would pick its arm. */
  lemma ExplorationIsNotGreedy(d: ODict<MabArm>, action: MabAction)
    requires Valid(d) && action.armId in d.m
    ensures IsExplorationAction(d, action) <==> GreedyArm(d) != Some(action.armId)
  {
    RankingsCorrect(d);
  }

  class IntelligentMabEngine {
    const config: EngineConfig
    var arms: ODict<MabArm>
    var actions: seq<MabAction>
    var totalRounds: nat
    var totalActions: nat
    var totalReward: real
    var coldStartActions: nat

    ghost predicate Invariant()
      reads this
    {
      && Valid(arms)
      && (forall k :: k in arms.m ==> arms.m[k].armId == k)
      && |actions| <= config.maxHistoryLength
    }

    constructor (config: EngineConfig)
      ensures Invariant()
      ensures this.config == config && arms == Empty() && actions == []
      ensures totalRounds == 0 && totalActions == 0 && totalReward == 0.0 && coldStartActions == 0
    {
      this.config := config;
      arms := Empty();
      actions := [];
      totalRounds, totalActions, totalReward, coldStartActions := 0, 0, 0.0, 0;
    }

    /** `add_arm`: a new id is stored last, seeded with one neutral pull when cold start is on. */
    method AddArm(arm: MabArm) returns (added: bool)
      requires Invariant()
      modifies `arms
      ensures Invariant()
      ensures added <==> arm.armId !in old(arms).m
      ensures !added ==> arms == old(arms)
      ensures added ==> arms == Put(old(arms), arm.armId,
        if config.enableColdStart then arm.(totalPulls := 1, totalReward := 0.5) else arm)
    {
      if arm.armId in arms.m {
        return false;
      }
      var stored := if config.enableColdStart then arm.(totalPulls := 1, totalReward := 0.5) else arm;
      arms := Put(arms, arm.armId, stored);
      added := true;
    }

    /** `remove_arm`. */
    method RemoveArm(armId: string) returns (removed: bool)
      requires Invariant()
      modifies `arms
      ensures Invariant()
      ensures removed <==> armId in old(arms).m
      ensures arms == Remove(old(arms), armId)
    {
      removed := armId in arms.m;
      arms := Remove(arms, armId);
    }

    /**
     * The bookkeeping of `select_arm` once the algorithm has made its
     * choice `pick`: no arms gives `None`; otherwise the action is logged
     * and counted, as a cold-start action when the arm was never pulled.
     */
    method SelectArm(pick: string) returns (r: Option<string>)
      requires Invariant() && (Size(arms) > 0 ==> pick in arms.m)
      modifies `actions, `totalActions, `coldStartActions
      ensures Invariant()
      ensures Size(arms) == 0 ==>
        r == None && actions == old(actions) && totalActions == old(totalActions) && coldStartActions == old(coldStartActions)
      ensures Size(arms) > 0 ==>
        && r == Some(pick)
        && actions == DequeAppend(old(actions), MabAction(pick, None), config.maxHistoryLength)
        && totalActions == old(totalActions) + 1
        && coldStartActions == old(coldStartActions) + (if arms.m[pick].totalPulls == 0 then 1 else 0)
    {
      if Size(arms) == 0 {
        return None;
      }
      actions := DequeAppend(actions, MabAction(pick, None), config.maxHistoryLength);
      totalActions := totalActions + 1;
      if arms.m[pick].totalPulls == 0 {
        coldStartActions := coldStartActions + 1;
      }
      r := Some(pick);
    }

    /**
     * `update_reward`: an unknown arm changes nothing; otherwise the arm
     * takes one graded pull, the round and reward totals grow, and the
     * latest action gets the reward if it is this arm's and still ungraded.
     */
    method UpdateReward(armId: string, reward: real, now: real) returns (ok: bool)
      requires Invariant()
      modifies `arms, `actions, `totalRounds, `totalReward
      ensures Invariant()
      ensures ok <==> armId in old(arms).m
      ensures !ok ==>
        arms == old(arms) && actions == old(actions) && totalRounds == old(totalRounds) && totalReward == old(totalReward)
      ensures ok ==>
        && arms == Put(old(arms), armId, Rewarded(old(arms).m[armId], reward, now, config.maxHistoryLength))
        && totalRounds == old(totalRounds) + 1
        && totalReward == old(totalReward) + reward
        && actions == GradedLast(old(actions), armId, reward)
    {
      if armId !in arms.m {
        return false;
      }
      arms := Put(arms, armId, Rewarded(arms.m[armId], reward, now, config.maxHistoryLength));
      totalRounds := totalRounds + 1;
      totalReward := totalReward + reward;
      actions := GradedLast(actions, armId, reward);
      ok := true;
    }

    /** `reset`: every arm cleared, the action log emptied and all totals zero. */
    method Reset()
      requires Invariant()
      modifies `arms, `actions, `totalRounds, `totalActions, `totalReward, `coldStartActions
      ensures Invariant()
      ensures arms == ResetAll(old(arms))
      ensures actions == [] && totalRounds == 0 && totalActions == 0 && totalReward == 0.0 && coldStartActions == 0
    {
      arms := ResetAll(arms);
      actions := [];
      totalRounds, totalActions, totalReward, coldStartActions := 0, 0, 0.0, 0;
    }

    /** `active_arms` of `get_performance_metrics`: arms pulled at least once. */
    function ActiveArms(): (r: nat)
      reads this
      requires Valid(arms)
      ensures r <= Size(arms)
    {
      var d := arms;
      var active := seq(|d.keys|, i requires 0 <= i < |d.keys| => d.m[d.keys[i]].totalPulls > 0);
      CountTrueBound(active);
      CountTrue(active)
    }
  }

  /** The last action, when it is `armId`'s and ungraded, gets `reward`; the log is otherwise unchanged. */
  function GradedLast(actions: seq<MabAction>, armId: string, reward: real): (r: seq<MabAction>)
    ensures |r| == |actions| && (|r| > 0 ==> r[..|r| - 1] == actions[..|actions| - 1])
    ensures |actions| > 0 && actions[|actions| - 1] == MabAction(armId, None) ==>
      |r| == |actions| && r[|r| - 1] == MabAction(armId, Some(reward))
    ensures !(|actions| > 0 && actions[|actions| - 1] == MabAction(armId, None)) ==> r == actions
  {
    if |actions| > 0 && actions[|actions| - 1] == MabAction(armId, None)
    then actions[|actions| - 1 := MabAction(armId, Some(reward))]
    else actions
  }

  /** Every arm reset, in the same order. */
  function ResetAll(d: ODict<MabArm>): (r: ODict<MabArm>)
    requires Valid(d)
    ensures Valid(r) && r.keys == d.keys
    ensures forall k :: k in r.m ==> r.m[k] == ResetArm(d.m[k])
  {
    ODict(d.keys, map k | k in d.m :: ResetArm(d.m[k]))
  }
}
