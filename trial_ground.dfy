/**
 * The cognitive engine's converger extends the path converger with a
 * "trial ground" for new strategies: strategies learned from exploration
 * enter with an initial success signal and a decaying exploration boost,
 * paths that keep failing become culling candidates (with hysteresis),
 * and candidates that meet the culling rule are removed. It also keeps
 * separate arms for tools and weights every reward by the source of the
 * feedback.
 */
module TrialGround {
  import opened Outcomes
  import opened Seqs
  import opened Text
  import opened OrderedMaps
  import opened DecisionArm
  import opened PathScoring
  import opened ColdStart
  import opened ToolScoring
  import PathConverger

  // The trial-ground configuration of the converger.
  const ExplorationBoostRounds: nat := 10
  const LearnedPathBonus := 0.15
  /** The permanent boost of a learned path. */
  const LearnedPathPermanentBonus := 0.05
  const CullingThreshold := 0.25
  const CullingMinSamples: nat := 20
  /** A candidate leaves the culling list only at 20% above the threshold. */
  const RecoveryThreshold := CullingThreshold * 1.2
  const ConsecutiveFailuresLimit: nat := 10
  const LearnedProtectionSeconds := 3600.0
  const WatchPeriodSeconds := 1800.0
  const HeavyTrialCount: nat := 50
  const MaxCulledHistory: nat := 100
  const TrialHistoryLimit: nat := 1000
  const TrialHistoryKeep: nat := 800
  /** Tool selection starts using the convergence level after this many rounds. */
  const ToolWarmupSelections: nat := 10

  // Where a path comes from.
  const LearnedExploration := "learned_exploration"
  const ManualAddition := "manual_addition"
  const StaticTemplate := "static_template"
  const UnknownSource := "unknown"

  predicate LearnedIdMarker(id: string)
  {
    Contains(id, "learned_") || Contains(id, "explored_") || Contains(id, "generated_")
  }

  predicate ManualIdMarker(id: string)
  {
    Contains(id, "custom_") || Contains(id, "manual_") || Contains(id, "user_")
  }

  predicate LearnedTypeMarker(pathType: string)
  {
    Contains(pathType, "学习") || Contains(pathType, "探索") || Contains(pathType, "发现")
  }

  predicate LearnedDescriptionMarker(description: string)
  {
    Contains(description, "从探索中学习") || Contains(description, "知识发现")
    || Contains(description, "外部智慧") || Contains(description, "动态生成")
  }

  /**
   * `_detect_path_source`: the id's naming pattern first, then the path
   * type, then the description of the path when one is given; a path
   * without any marker is a static template.
   */
  function DetectPathSource(strategyId: string, pathType: string, description: Option<string>): (src: string)
    ensures src == LearnedExploration || src == ManualAddition || src == StaticTemplate
    ensures LearnedIdMarker(strategyId) ==> src == LearnedExploration
    ensures src == ManualAddition <==> !LearnedIdMarker(strategyId) && ManualIdMarker(strategyId)
    ensures src == StaticTemplate <==>
      !LearnedIdMarker(strategyId) && !ManualIdMarker(strategyId) && !LearnedTypeMarker(pathType)
      && (description.None? || !LearnedDescriptionMarker(description.value))
  {
    if LearnedIdMarker(strategyId) then LearnedExploration
    else if ManualIdMarker(strategyId) then ManualAddition
    else if |pathType| > 0 && LearnedTypeMarker(pathType) then LearnedExploration
    else if description.Some? && LearnedDescriptionMarker(description.value) then LearnedExploration
    else StaticTemplate
  }

  /** The source named by the caller, unless it said "unknown". */
  function EffectiveSource(pathSource: string, detected: string): string
  {
    if pathSource != UnknownSource then pathSource else detected
  }

  /** The arm a new strategy starts with: learned paths get one success and 0.3, manual ones one success and 0.2. */
  function InitialArm(strategyId: string, pathType: string, source: string): (a: Arm)
    ensures a.pathId == strategyId && a.option == pathType
    ensures a.activationCount == 0 && a.failureCount == 0 && a.recentRewards == [] && a.recentResults == []
    ensures source == LearnedExploration ==> a.successCount == 1 && a.totalReward == 0.3 && a.rlRewardHistory == [0.3]
    ensures source == ManualAddition ==> a.successCount == 1 && a.totalReward == 0.2 && a.rlRewardHistory == [0.2]
    ensures source == LearnedExploration || source == ManualAddition ==> SuccessRate(a) == 1.0
    ensures source != LearnedExploration && source != ManualAddition ==> a == NewArm(strategyId, pathType)
  {
    var base := NewArm(strategyId, pathType);
    if source == LearnedExploration then base.(successCount := 1, totalReward := 0.3, rlRewardHistory := [0.3])
    else if source == ManualAddition then base.(successCount := 1, totalReward := 0.2, rlRewardHistory := [0.2])
    else base
  }

  /**
   * `get_exploration_boost`: 1 plus a bonus that decays linearly with the
   * remaining boosted rounds, plus a small permanent bonus for learned paths.
   */
  function ExplorationBoost(boosts: map<string, int>, learned: set<string>, id: string): (b: real)
    ensures b >= 1.0
    ensures b > 1.0 <==> id in learned || (id in boosts && boosts[id] > 0)
    ensures id in learned ==> b >= 1.0 + LearnedPathPermanentBonus
    ensures (id !in boosts || boosts[id] <= ExplorationBoostRounds as int) ==>
      b <= 1.0 + LearnedPathBonus + LearnedPathPermanentBonus
    ensures id in boosts && boosts[id] == ExplorationBoostRounds as int ==>
      b == 1.0 + LearnedPathBonus + (if id in learned then LearnedPathPermanentBonus else 0.0)
  {
    var active := if id in boosts && boosts[id] > 0
                  then LearnedPathBonus * ((boosts[id] as real) / (ExplorationBoostRounds as real))
                  else 0.0;
    1.0 + active + (if id in learned then LearnedPathPermanentBonus else 0.0)
  }

  /** One boosted round less lowers the boost by a tenth of the bonus. */
  lemma BoostDecays(boosts: map<string, int>, learned: set<string>, id: string)
    requires id in boosts && boosts[id] > 0
    ensures ExplorationBoost(boosts[id := boosts[id] - 1], learned, id)
            == ExplorationBoost(boosts, learned, id) - LearnedPathBonus / (ExplorationBoostRounds as real)
  {
    var r := boosts[id] as real;
    assert LearnedPathBonus * ((r - 1.0) / 10.0) == LearnedPathBonus * (r / 10.0) - LearnedPathBonus / 10.0;
  }

  /** The trailing failures of a result history. */
  predicate TrailingFailures(results: seq<bool>, n: nat)
  {
    n <= |results|
    && (forall i :: |results| - n <= i < |results| ==> !results[i])
    && (n < |results| ==> results[|results| - 1 - n])
  }

  /** `_calculate_consecutive_failures`: counts back from the newest result until a success. */
  method ConsecutiveFailures(results: seq<bool>) returns (n: nat)
    ensures TrailingFailures(results, n)
  {
    n := 0;
    var i := |results|;
    while i > 0 && !results[i - 1]
      invariant 0 <= i <= |results| && n == |results| - i
      invariant forall j :: i <= j < |results| ==> !results[j]
    {
      n := n + 1;
      i := i - 1;
    }
  }

  /**
   * The culling-candidate set after an outcome: an arm with fewer than 20
   * activations is ignored; one below the threshold joins; one already in
   * the set leaves only when it has recovered to 20% above the threshold.
   */
  function CandidatesAfter(candidates: set<string>, id: string, a: Arm): (r: set<string>)
    ensures a.activationCount < CullingMinSamples ==> r == candidates
    ensures a.activationCount >= CullingMinSamples && SuccessRate(a) < CullingThreshold ==> r == candidates + {id}
    ensures a.activationCount >= CullingMinSamples && SuccessRate(a) >= RecoveryThreshold ==> r == candidates - {id}
    ensures CullingThreshold <= SuccessRate(a) < RecoveryThreshold ==> r == candidates
    ensures r - {id} == candidates - {id}
  {
    if a.activationCount < CullingMinSamples then candidates
    else if SuccessRate(a) < CullingThreshold then candidates + {id}
    else if id in candidates && SuccessRate(a) >= RecoveryThreshold then candidates - {id}
    else candidates
  }

  /** A path that is neither clearly failing nor clearly recovered keeps its candidacy either way. */
  lemma CullingHysteresis(candidates: set<string>, id: string, a: Arm)
    requires CullingThreshold <= SuccessRate(a) < RecoveryThreshold
    ensures id in CandidatesAfter(candidates, id, a) <==> id in candidates
    ensures id !in CandidatesAfter(candidates - {id}, id, a)
    ensures a.activationCount >= CullingMinSamples ==> id in CandidatesAfter(candidates + {id}, id, a)
  {
  }

  /** What `_check_culling_candidates` records for a new candidate. */
  datatype Watch = Watch(successRate: real, addedAt: real, sampleCount: nat, consecutiveFailures: nat)

  datatype CullReason =
    | LearnedProtected
    | LearnedInProbation
    | GoldenTemplate
    | TooManyFailures(failures: nat)
    | PersistentlyPoor
    | PoorAfterManyTrials
    | NotEligible

  datatype CullDecision = CullDecision(cull: bool, reason: CullReason)

  /**
   * `_should_cull_path`. `learnedSince` is the trial start of a learned path
   * (`None` for other paths), `watch` the watch-list entry if any. A learned
   * path is protected unless its rate is at most half the threshold and its
   * trial has lasted an hour; a golden template is never culled; then ten
   * consecutive failures, a rate below 80% of the threshold for more than
   * half an hour of watching, or a low rate after more than 50 trials cull.
   */
  function ShouldCull(learnedSince: Option<real>, a: Arm, watch: Option<Watch>, golden: bool, now: real): (d: CullDecision)
    ensures golden ==> !d.cull
    ensures learnedSince.Some? && SuccessRate(a) > CullingThreshold * 0.5 ==> !d.cull
    ensures learnedSince.Some? && now - learnedSince.value < LearnedProtectionSeconds ==> !d.cull
    ensures learnedSince.None? && !golden && watch.Some? && watch.value.consecutiveFailures >= ConsecutiveFailuresLimit ==>
      d.cull && d.reason == TooManyFailures(watch.value.consecutiveFailures)
    ensures d.cull <==>
      !golden
      && (learnedSince.Some? ==> SuccessRate(a) <= CullingThreshold * 0.5 && now - learnedSince.value >= LearnedProtectionSeconds)
      && ((watch.Some? && watch.value.consecutiveFailures >= ConsecutiveFailuresLimit)
          || (SuccessRate(a) < CullingThreshold * 0.8 && watch.Some? && now - watch.value.addedAt > WatchPeriodSeconds)
          || (a.activationCount > HeavyTrialCount && SuccessRate(a) < CullingThreshold))
  {
    if learnedSince.Some? && SuccessRate(a) > CullingThreshold * 0.5 then CullDecision(false, LearnedProtected)
    else if learnedSince.Some? && now - learnedSince.value < LearnedProtectionSeconds then CullDecision(false, LearnedInProbation)
    else if golden then CullDecision(false, GoldenTemplate)
    else
      var failures := if watch.Some? then watch.value.consecutiveFailures else 0;
      var addedAt := if watch.Some? then watch.value.addedAt else now;
      if failures >= ConsecutiveFailuresLimit then CullDecision(true, TooManyFailures(failures))
      else if SuccessRate(a) < CullingThreshold * 0.8 && now - addedAt > WatchPeriodSeconds then CullDecision(true, PersistentlyPoor)
      else if a.activationCount > HeavyTrialCount && SuccessRate(a) < CullingThreshold then CullDecision(true, PoorAfterManyTrials)
      else CullDecision(false, NotEligible)
  }

  /** The registry entry of a learned path. */
  datatype LearnedMeta = LearnedMeta(markedAt: real, trialStartTime: real)

  /** One entry of the trial history. */
  datatype TrialEntry = TrialEntry(strategyId: string, pathType: string, source: string, entryTime: real, entryRound: nat)

  /** One entry of the culling history. */
  datatype CullRecord = CullRecord(strategyId: string, culledAt: real, reason: CullReason, successRate: real,
                                   activations: nat, totalReward: real, wasLearned: bool)

  /** The decision for one candidate, from the tables of the converger. */
  function DecisionFor(id: string, arms: map<string, Arm>, learned: map<string, LearnedMeta>,
                       watch: map<string, Watch>, golden: set<string>, now: real): CullDecision
    requires id in arms
  {
    ShouldCull(if id in learned then Some(learned[id].trialStartTime) else None, arms[id],
               if id in watch then Some(watch[id]) else None, id in golden, now)
  }

  /** The candidates among `ids` that are culled. */
  function CulledAmong(ids: set<string>, arms: map<string, Arm>, learned: map<string, LearnedMeta>,
                       watch: map<string, Watch>, golden: set<string>, now: real): (r: set<string>)
    ensures r <= ids && r <= arms.Keys
    ensures r !! golden
  {
    set id | id in ids && id in arms && DecisionFor(id, arms, learned, watch, golden, now).cull
  }

  /** The elements of a sequence, as a set. */
  function Elements<T>(xs: seq<T>): set<T>
  {
    set i | 0 <= i < |xs| :: xs[i]
  }

  lemma ElementsAppend<T>(xs: seq<T>, x: T)
    ensures Elements(xs + [x]) == Elements(xs) + {x}
  {
    var ys := xs + [x];
    assert ys[|xs|] == x;
    forall y | y in Elements(xs) ensures y in Elements(ys) {
      var i :| 0 <= i < |xs| && xs[i] == y;
      assert ys[i] == y;
    }
  }

  /** Culling other candidates leaves the decision about `id` as it was. */
  lemma DecisionUnaffected(id: string, gone: set<string>, arms: map<string, Arm>, learned: map<string, LearnedMeta>,
                           watch: map<string, Watch>, golden: set<string>, now: real)
    requires id in arms && id !in gone
    ensures id in arms - gone && (arms - gone)[id] == arms[id]
    ensures (id in learned - gone <==> id in learned) && (id in learned ==> (learned - gone)[id] == learned[id])
    ensures DecisionFor(id, arms - gone, learned - gone, watch, golden, now) == DecisionFor(id, arms, learned, watch, golden, now)
  {
  }

  /** Reviewing one more candidate adds it to the culled set exactly when it is culled. */
  lemma CulledAmongStep(ids: set<string>, id: string, arms: map<string, Arm>, learned: map<string, LearnedMeta>,
                        watch: map<string, Watch>, golden: set<string>, now: real)
    ensures CulledAmong(ids + {id}, arms, learned, watch, golden, now)
            == CulledAmong(ids, arms, learned, watch, golden, now)
               + (if id in arms && DecisionFor(id, arms, learned, watch, golden, now).cull then {id} else {})
  {
  }

  /**
   * The bookkeeping of a culling sweep after the candidates in `reviewed`:
   * `gone` are the culled ones, listed once each in `culled` with their
   * records, `spared` lists the reviewed candidates that keep their arm, and
   * `toRemove` the ones that leave the candidate list.
   */
  ghost predicate Sweep(reviewed: set<string>, gone: set<string>, culled: seq<string>, spared: seq<string>,
                        toRemove: set<string>, records: seq<CullRecord>, arms: map<string, Arm>,
                        learned: map<string, LearnedMeta>, watch: map<string, Watch>, golden: set<string>, now: real)
  {
    && gone == CulledAmong(reviewed, arms, learned, watch, golden, now)
    && Elements(culled) == gone && Distinct(culled)
    && toRemove == (reviewed - arms.Keys) + gone
    && Elements(spared) == reviewed * arms.Keys - gone
    && |records| == |culled|
    && (forall i :: 0 <= i < |records| ==> records[i].strategyId == culled[i])
  }

  lemma SweepStep(reviewed: set<string>, gone: set<string>, culled: seq<string>, spared: seq<string>,
                  toRemove: set<string>, records: seq<CullRecord>, arms: map<string, Arm>,
                  learned: map<string, LearnedMeta>, watch: map<string, Watch>, golden: set<string>, now: real,
                  id: string, hadArm: bool, wasCulled: bool, record: CullRecord)
    requires Sweep(reviewed, gone, culled, spared, toRemove, records, arms, learned, watch, golden, now)
    requires id !in reviewed && hadArm == (id in arms)
    requires wasCulled <==> id in arms && DecisionFor(id, arms, learned, watch, golden, now).cull
    requires wasCulled ==> record.strategyId == id
    ensures wasCulled ==> Sweep(reviewed + {id}, gone + {id}, culled + [id], spared, toRemove + {id}, records + [record],
                                arms, learned, watch, golden, now)
    ensures !wasCulled && !hadArm ==> Sweep(reviewed + {id}, gone, culled, spared, toRemove + {id}, records,
                                            arms, learned, watch, golden, now)
    ensures !wasCulled && hadArm ==> Sweep(reviewed + {id}, gone, culled, spared + [id], toRemove, records,
                                           arms, learned, watch, golden, now)
  {
    CulledAmongStep(reviewed, id, arms, learned, watch, golden, now);
    ElementsAppend(culled, id);
    ElementsAppend(spared, id);
    assert id !in gone;
  }

  lemma SweepDone(reviewed: set<string>, gone: set<string>, culled: seq<string>, spared: seq<string>,
                  toRemove: set<string>, records: seq<CullRecord>, arms: map<string, Arm>,
                  learned: map<string, LearnedMeta>, watch: map<string, Watch>, golden: set<string>, now: real)
    requires Sweep(reviewed, gone, culled, spared, toRemove, records, arms, learned, watch, golden, now)
    ensures reviewed - toRemove == reviewed * arms.Keys - gone
    ensures Elements(spared) == reviewed - toRemove
  {
  }

  /** The tool-level convergence: `max(0, 1 - 2.5 * var)` of the sampled rates, 0 with fewer than two. */
  function ToolConvergenceLevel(arms: seq<Arm>): (c: real)
    ensures 0.0 <= c <= 1.0
    ensures |SampledRates(arms)| < 2 ==> c == 0.0
  {
    var rates := SampledRates(arms);
    if |arms| < 2 || |rates| < 2 then 0.0
    else
      VarianceNonNegative(rates);
      Max(0.0, 1.0 - Variance(rates) * 2.5)
  }

  /** `_select_best_algorithm_for_tools`: Thompson for the first 10 rounds, then by convergence at 0.3 and 0.6. */
  function ToolAlgorithmFor(totalSelections: nat, hasArms: bool, convergence: real): (alg: string)
    ensures alg == Thompson || alg == Ucb || alg == EpsilonGreedy
    ensures totalSelections < ToolWarmupSelections || !hasArms ==> alg == Thompson
    ensures totalSelections >= ToolWarmupSelections && hasArms ==>
      (alg == Thompson <==> convergence < 0.3) && (alg == Ucb <==> 0.3 <= convergence < 0.6)
      && (alg == EpsilonGreedy <==> convergence >= 0.6)
  {
    if totalSelections < ToolWarmupSelections then Thompson
    else if !hasArms then Thompson
    else if convergence < 0.3 then Thompson
    else if convergence < 0.6 then Ucb
    else EpsilonGreedy
  }

  /** The algorithm a tool round runs: automatic choice resolves against the tool arms. */
  function ToolAlgorithmUsed(requested: string, totalSelections: nat, tools: ODict<Arm>): string
    requires Valid(tools)
  {
    if requested == AutoAlgorithm
    then ToolAlgorithmFor(totalSelections, Size(tools) > 0, ToolConvergenceLevel(PathConverger.ArmList(tools)))
    else requested
  }

  /** The arm table with the arm of `id` replaced by `a`, which carries the same id. */
  function WithArm(d: ODict<Arm>, id: string, a: Arm): (r: ODict<Arm>)
    requires PathConverger.ArmsKeyed(d) && id in d.m && a.pathId == id
    ensures PathConverger.ArmsKeyed(r)
    ensures r.keys == d.keys && r.m == d.m[id := a]
  {
    ODict(d.keys, d.m[id := a])
  }

  /** The arm table after making sure every listed tool has an arm named after itself. */
  function EnsureToolArms(d: ODict<Arm>, tools: seq<string>): (r: ODict<Arm>)
    requires PathConverger.ArmsKeyed(d)
    ensures PathConverger.ArmsKeyed(r)
  {
    if |tools| == 0 then d
    else
      var t := tools[|tools| - 1];
      PathConverger.EnsureArm(EnsureToolArms(d, tools[..|tools| - 1]), t, t)
  }

  /**
   * Every listed tool has an arm, no other arm is created, existing arms are
   * untouched and a created arm is a fresh one named after its tool.
   */
  lemma {:induction false} EnsureToolArmsKeyed(d: ODict<Arm>, tools: seq<string>)
    requires PathConverger.ArmsKeyed(d)
    ensures forall t :: t in tools ==> t in EnsureToolArms(d, tools).m
    ensures forall k :: k in EnsureToolArms(d, tools).m ==> k in d.m || k in tools
    ensures forall k :: k in d.m ==> k in EnsureToolArms(d, tools).m && EnsureToolArms(d, tools).m[k] == d.m[k]
    ensures forall k :: k in EnsureToolArms(d, tools).m && k !in d.m ==> EnsureToolArms(d, tools).m[k] == NewArm(k, k)
    decreases |tools|
  {
    if |tools| > 0 {
      var init := tools[..|tools| - 1];
      EnsureToolArmsKeyed(d, init);
      assert tools == init + [tools[|tools| - 1]];
    }
  }

  lemma EnsureToolArmsHas(d: ODict<Arm>, tools: seq<string>)
    requires PathConverger.ArmsKeyed(d)
    ensures forall t :: t in tools ==> t in EnsureToolArms(d, tools).m
  {
    EnsureToolArmsKeyed(d, tools);
  }

  /** The candidates of a tool round: the arm of each listed tool, in list order. */
  function ToolCandidates(d: ODict<Arm>, tools: seq<string>): (cs: seq<Arm>)
    requires forall t :: t in tools ==> t in d.m
    ensures |cs| == |tools|
    ensures forall i :: 0 <= i < |tools| ==> cs[i] == d.m[tools[i]]
  {
    seq(|tools|, i requires 0 <= i < |tools| => d.m[tools[i]])
  }

  /**
   * How a tool round chooses, given the tool arms before it and the round
   * number: once every listed tool has an arm, the algorithm of the round
   * chooses candidate `k` by its rule.
   */
  predicate ToolChoice(before: ODict<Arm>, tools: seq<string>, algorithm: string, round: nat,
                       draws: seq<real>, u: real, pick: nat, confidenceBound: (nat, nat) -> real, k: nat)
    requires PathConverger.ArmsKeyed(before) && |draws| == |tools|
  {
    var prepared := EnsureToolArms(before, tools);
    EnsureToolArmsHas(before, tools);
    ToolChoiceRule(ToolAlgorithmUsed(algorithm, round, prepared), ToolCandidates(prepared, tools), draws, u, pick,
                   confidenceBound, k)
  }

  /** The creation loop of `select_best_tool`: an arm for every listed tool that has none. */
  method PrepareToolArms(d: ODict<Arm>, tools: seq<string>) returns (r: ODict<Arm>)
    requires PathConverger.ArmsKeyed(d)
    ensures r == EnsureToolArms(d, tools)
  {
    r := d;
    var i := 0;
    while i < |tools|
      invariant 0 <= i <= |tools|
      invariant r == EnsureToolArms(d, tools[..i])
    {
      assert tools[..i + 1][..i] == tools[..i];
      if tools[i] !in r.m {
        r := Put(r, tools[i], NewArm(tools[i], tools[i]));
      }
      i := i + 1;
    }
    assert tools[..|tools|] == tools;
  }

  /** The entries with no boosted round left. */
  function ExpiredBoosts(b: map<string, int>): set<string>
  {
    set k | k in b && b[k] <= 0
  }

  /** The loop of `_cleanup_expired_exploration_boosts`: every entry with no boosted round left is deleted and counted. */
  method WithoutExpiredBoosts(b0: map<string, int>) returns (b: map<string, int>, cleaned: nat)
    ensures forall k :: k in b <==> k in b0 && b0[k] > 0
    ensures forall k :: k in b ==> b[k] == b0[k]
    ensures cleaned == |ExpiredBoosts(b0)| && b0.Keys - b.Keys == ExpiredBoosts(b0)
  {
    b := b0;
    var todo := ExpiredBoosts(b0);
    ghost var removed: set<string> := {};
    cleaned := 0;
    while todo != {}
      invariant removed + todo == ExpiredBoosts(b0) && removed !! todo
      invariant b.Keys == b0.Keys - removed
      invariant forall k :: k in b ==> b[k] == b0[k]
      invariant cleaned == |removed|
      decreases todo
    {
      var k :| k in todo;
      todo := todo - {k};
      b := b - {k};
      removed := removed + {k};
      cleaned := cleaned + 1;
    }
  }

  /** Every path arm carries its own key as id. */
  predicate ArmsOwnIds(arms: map<string, Arm>)
  {
    forall k :: k in arms ==> arms[k].pathId == k
  }

  /** Every remaining boost lies within the ten boosted rounds. */
  predicate BoostsBounded(b: map<string, int>)
  {
    forall k :: k in b ==> 0 <= b[k] <= ExplorationBoostRounds as int
  }

  /** Removing entries keeps both properties. */
  lemma RemovalKeeps(arms: map<string, Arm>, b: map<string, int>, gone: set<string>)
    requires ArmsOwnIds(arms) && BoostsBounded(b)
    ensures ArmsOwnIds(arms - gone) && BoostsBounded(b - gone)
  {
  }

  /**
   * The trial ground of the converger: learned paths, remaining boosted
   * rounds, promotion and culling candidates with their watch entries, the
   * culling history and the trial history.
   */
  datatype TrialGroundState = TrialGroundState(
    learnedPaths: map<string, LearnedMeta>,
    boosts: map<string, int>,
    promotionCandidates: set<string>,
    cullingCandidates: set<string>,
    watchList: map<string, Watch>,
    culledPaths: seq<CullRecord>,
    trialHistory: seq<TrialEntry>)

  const EmptyTrialGround := TrialGroundState(map[], map[], {}, {}, map[], [], [])

  /** A watch entry exactly for each culling candidate, boosts within ten rounds, a bounded trial history. */
  predicate TrialGroundValid(t: TrialGroundState)
  {
    t.watchList.Keys == t.cullingCandidates
    && BoostsBounded(t.boosts)
    && |t.trialHistory| <= TrialHistoryLimit
  }

  /** The trial history after an entry: over 1000 entries only the newest 800 are kept. */
  function WithEntry(h: seq<TrialEntry>, e: TrialEntry): (r: seq<TrialEntry>)
    ensures |h| <= TrialHistoryLimit ==> |r| <= TrialHistoryLimit
    ensures |r| > 0 && r[|r| - 1] == e
    ensures |h| < TrialHistoryLimit ==> r == h + [e]
    ensures |h| >= TrialHistoryLimit ==> |r| == TrialHistoryKeep && r == (h + [e])[|h| + 1 - TrialHistoryKeep..]
  {
    var appended := h + [e];
    if |appended| > TrialHistoryLimit then LastN(appended, TrialHistoryKeep) else appended
  }

  /** `_mark_as_learned_path`: the path is registered and gets its ten boosted rounds. */
  function MarkedLearned(t: TrialGroundState, id: string, now: real): (r: TrialGroundState)
    ensures TrialGroundValid(t) ==> TrialGroundValid(r)
    ensures id in r.learnedPaths && r.learnedPaths[id].trialStartTime == now
    ensures id in r.boosts && r.boosts[id] == ExplorationBoostRounds as int
    ensures forall k :: k != id ==> ((k in r.learnedPaths) == (k in t.learnedPaths)) && ((k in r.boosts) == (k in t.boosts))
    ensures r.(learnedPaths := t.learnedPaths, boosts := t.boosts) == t
  {
    t.(learnedPaths := t.learnedPaths[id := LearnedMeta(now, now)], boosts := t.boosts[id := ExplorationBoostRounds as int])
  }

  /**
   * A new strategy entered in the trial ground: a learned-exploration path is
   * marked learned first, then the entry joins the bounded trial history.
   */
  function Entered(t: TrialGroundState, e: TrialEntry): (r: TrialGroundState)
    ensures TrialGroundValid(t) ==> TrialGroundValid(r)
    ensures r.cullingCandidates == t.cullingCandidates && r.watchList == t.watchList
    ensures |r.trialHistory| > 0 && r.trialHistory[|r.trialHistory| - 1] == e
    ensures e.source == LearnedExploration ==>
      e.strategyId in r.learnedPaths && e.strategyId in r.boosts && r.boosts[e.strategyId] == ExplorationBoostRounds as int
    ensures e.source != LearnedExploration ==> r.learnedPaths == t.learnedPaths && r.boosts == t.boosts
  {
    var marked := if e.source == LearnedExploration then MarkedLearned(t, e.strategyId, e.entryTime) else t;
    marked.(trialHistory := WithEntry(t.trialHistory, e))
  }

  /**
   * The trial entry of a new strategy: its type given or inferred from the
   * id, and its source named by the caller or detected.
   */
  function StrategyEntry(id: string, pathType: Option<string>, pathSource: string, description: Option<string>,
                         now: real, round: nat): (e: TrialEntry)
    ensures e.strategyId == id && e.entryTime == now && e.entryRound == round
    ensures e.pathType == if pathType.Some? then pathType.value else InferPathType(id)
    ensures pathSource != UnknownSource ==> e.source == pathSource
  {
    var t := if pathType.Some? then pathType.value else InferPathType(id);
    TrialEntry(id, t, EffectiveSource(pathSource, DetectPathSource(id, t, description)), now, round)
  }

  /** The arm a strategy's trial entry seeds. */
  function EntryArm(e: TrialEntry): Arm
  {
    InitialArm(e.strategyId, e.pathType, e.source)
  }

  /** The arm of the entry's strategy: the stored one, or the one its entry seeds. */
  function ArmOrFresh(arms: map<string, Arm>, e: TrialEntry): (a: Arm)
    ensures e.strategyId in arms ==> a == arms[e.strategyId]
    ensures e.strategyId !in arms ==> a.pathId == e.strategyId && a.activationCount == 0 && a.option == e.pathType
  {
    if e.strategyId in arms then arms[e.strategyId] else EntryArm(e)
  }

  /**
   * An outcome recorded on a strategy's path arm: the arm, created from the
   * strategy's entry when missing, takes the source-weighted reward, and the
   * trial ground gains the entry of a new strategy.
   */
  ghost predicate PathFed(arms0: map<string, Arm>, trial0: TrialGroundState, id: string, success: bool, reward: real,
                          source: string, now: real, round: nat, arms1: map<string, Arm>, trial1: TrialGroundState)
  {
    var e := StrategyEntry(id, None, UnknownSource, None, now, round);
    && arms1 == arms0[id := Updated(ArmOrFresh(arms0, e), success, AdjustRewardBySource(reward, source, success), now)]
    && trial1.(cullingCandidates := trial0.cullingCandidates, watchList := trial0.watchList) == Fed(trial0, id in arms0, e)
  }

  /**
   * An outcome recorded by `update_path_performance`: on the path arm when
   * the id names a path or nothing, otherwise on the tool arm, where it also
   * credits the algorithm of the latest tool selection. Culling candidacy is
   * left aside.
   */
  ghost predicate ArmFed(arms0: map<string, Arm>, trial0: TrialGroundState, tools0: ODict<Arm>,
                         perf0: map<string, PathConverger.AlgorithmStats>, history: seq<PathConverger.SelectionRecord>,
                         id: string, success: bool, reward: real, source: string, now: real, round: nat,
                         arms1: map<string, Arm>, trial1: TrialGroundState, tools1: ODict<Arm>,
                         perf1: map<string, PathConverger.AlgorithmStats>)
  {
    if id in arms0 || id !in tools0.m then
      PathFed(arms0, trial0, id, success, reward, source, now, round, arms1, trial1) && tools1 == tools0 && perf1 == perf0
    else
      && arms1 == arms0 && trial1 == trial0
      && tools1.keys == tools0.keys
      && tools1.m == tools0.m[id := Updated(tools0.m[id], success, AdjustRewardBySource(reward, source, success), now)]
      && perf1 == PathConverger.CreditAlgorithm(perf0, history, id, success)
  }

  /** The culling check, which touches only the candidates and the watch list, keeps a recorded outcome recorded. */
  lemma CullingKeepsArmFed(arms0: map<string, Arm>, trial0: TrialGroundState, tools0: ODict<Arm>,
                           perf0: map<string, PathConverger.AlgorithmStats>, history: seq<PathConverger.SelectionRecord>,
                           id: string, success: bool, reward: real, source: string, now: real, round: nat,
                           arms1: map<string, Arm>, trial1: TrialGroundState, tools1: ODict<Arm>,
                           perf1: map<string, PathConverger.AlgorithmStats>, trial2: TrialGroundState)
    requires ArmFed(arms0, trial0, tools0, perf0, history, id, success, reward, source, now, round, arms1, trial1, tools1, perf1)
    requires trial2.(cullingCandidates := trial1.cullingCandidates, watchList := trial1.watchList) == trial1
    requires !(id in arms0 || id !in tools0.m) ==> trial2 == trial1
    ensures ArmFed(arms0, trial0, tools0, perf0, history, id, success, reward, source, now, round, arms1, trial2, tools1, perf1)
  {
  }

  /** A strategy created and then updated ends up with the updated arm alone, still keyed by its id. */
  lemma Overwritten(arms0: map<string, Arm>, arms1: map<string, Arm>, id: string, b: Arm)
    requires ArmsOwnIds(arms1) && id in arms1 && b.pathId == arms1[id].pathId
    requires arms1 == arms0 || arms1 == arms0[id := arms1[id]]
    ensures ArmsOwnIds(arms1[id := b]) && arms1[id := b] == arms0[id := b]
  {
  }

  /** The trial ground after an outcome: unchanged for a known strategy, otherwise with the new entry. */
  function Fed(t: TrialGroundState, known: bool, e: TrialEntry): TrialGroundState
  {
    if known then t else Entered(t, e)
  }

  /** A culled path leaves the learned paths, the boosts and the promotion candidates; its record is appended. */
  function WithoutCulled(t: TrialGroundState, gone: set<string>, records: seq<CullRecord>): (r: TrialGroundState)
    ensures TrialGroundValid(t) ==> TrialGroundValid(r)
    ensures r.learnedPaths.Keys == t.learnedPaths.Keys - gone && r.boosts.Keys == t.boosts.Keys - gone
    ensures r.promotionCandidates == t.promotionCandidates - gone
    ensures r.culledPaths == t.culledPaths + records
    ensures r.(learnedPaths := t.learnedPaths, boosts := t.boosts, promotionCandidates := t.promotionCandidates,
               culledPaths := t.culledPaths) == t
  {
    t.(learnedPaths := t.learnedPaths - gone, boosts := t.boosts - gone,
       promotionCandidates := t.promotionCandidates - gone, culledPaths := t.culledPaths + records)
  }

  /**
   * A tool round, from the tool arms, round count and history before it to
   * those after it: the round is counted, every tool has an arm, the chosen
   * arm is activated and the round is recorded with the algorithm that ran.
   */
  ghost predicate ToolRoundDone(tools: seq<string>, algorithm: string, choice: nat, now: real,
                                arms0: ODict<Arm>, total0: nat, history0: seq<PathConverger.SelectionRecord>,
                                arms1: ODict<Arm>, total1: nat, history1: seq<PathConverger.SelectionRecord>)
    requires PathConverger.ArmsKeyed(arms0)
  {
    var prepared := EnsureToolArms(arms0, tools);
    choice < |tools| && tools[choice] in prepared.m &&
    var t := tools[choice];
    && total1 == total0 + 1
    && arms1.keys == prepared.keys
    && arms1.m == prepared.m[t := PathConverger.Activated(prepared.m[t], now)]
    && history1 == history0 + [PathConverger.SelectionRecord(
         t, prepared.m[t].option, ToolAlgorithmUsed(algorithm, total1, prepared), now, total1)]
  }

  /** The cognitive converger's trial-ground, tool and feedback-source state. */
  class TrialConverger {
    var pathArms: map<string, Arm>
    var toolArms: ODict<Arm>
    var totalPathSelections: nat
    var totalToolSelections: nat
    /** A tool record is a selection record whose path fields hold the tool id and name. */
    var toolSelectionHistory: seq<PathConverger.SelectionRecord>
    var toolAlgorithmPerformance: map<string, PathConverger.AlgorithmStats>
    var sourceTracking: map<string, SourceStats>
    var trial: TrialGroundState

    /** Arms keyed by their ids, a valid trial ground and statistics for exactly the four feedback sources. */
    ghost predicate Invariant()
      reads this
    {
      ArmsOwnIds(pathArms)
      && PathConverger.ArmsKeyed(toolArms)
      && TrialGroundValid(trial)
      && sourceTracking.Keys == TrackedSources
      && PathConverger.StatsConsistent(toolAlgorithmPerformance)
    }

    constructor ()
      ensures Invariant()
      ensures pathArms == map[] && toolArms == Empty() && trial == EmptyTrialGround
      ensures totalPathSelections == 0 && totalToolSelections == 0
      ensures toolSelectionHistory == [] && toolAlgorithmPerformance == map[]
      ensures forall s :: s in TrackedSources ==> sourceTracking[s] == NoFeedback
    {
      pathArms := map[];
      toolArms := Empty();
      totalPathSelections, totalToolSelections := 0, 0;
      toolSelectionHistory := [];
      toolAlgorithmPerformance := map[];
      sourceTracking := map[Retrospection := NoFeedback, UserFeedback := NoFeedback,
                            AutoEvaluation := NoFeedback, ToolVerification := NoFeedback];
      trial := EmptyTrialGround;
    }

    /** `is_learned_path`. */
    predicate IsLearnedPath(id: string)
      reads this
    {
      id in trial.learnedPaths
    }

    /** `get_exploration_boost` on the current trial ground. */
    function GetExplorationBoost(id: string): (b: real)
      reads this
      ensures Invariant() ==> 1.0 <= b <= 1.0 + LearnedPathBonus + LearnedPathPermanentBonus
      ensures b > 1.0 <==> IsLearnedPath(id) || (id in trial.boosts && trial.boosts[id] > 0)
    {
      ExplorationBoost(trial.boosts, trial.learnedPaths.Keys, id)
    }

    /**
     * `_create_strategy_arm_if_missing`: a new strategy gets an arm seeded by
     * its source; a learned one is registered and boosted; every new strategy
     * is entered in the trial history. An existing arm is returned unchanged.
     */
    method CreateStrategyArm(id: string, pathType: Option<string>, pathSource: string,
                             description: Option<string>, now: real) returns (a: Arm)
      requires Invariant()
      modifies `pathArms, `trial
      ensures Invariant()
      ensures id in old(pathArms) ==> a == old(pathArms)[id] && pathArms == old(pathArms) && trial == old(trial)
      ensures id !in old(pathArms) ==>
        var e := StrategyEntry(id, pathType, pathSource, description, now, totalPathSelections);
        && a == EntryArm(e)
        && pathArms == old(pathArms)[id := a]
        && trial == Entered(old(trial), e)
      ensures a == pathArms[id]
    {
      if id !in pathArms {
        var e := StrategyEntry(id, pathType, pathSource, description, now, totalPathSelections);
        a := EntryArm(e);
        pathArms := pathArms[id := a];
        trial := Entered(trial, e);
      } else {
        a := pathArms[id];
      }
    }

    /** `_create_tool_arm_if_missing`; without a name the tool id is the name. */
    method CreateToolArm(id: string, name: Option<string>) returns (a: Arm)
      requires Invariant()
      modifies `toolArms
      ensures Invariant()
      ensures toolArms == PathConverger.EnsureArm(old(toolArms), id, if name.Some? then name.value else id)
      ensures a == toolArms.m[id]
    {
      if id !in toolArms.m {
        toolArms := Put(toolArms, id, NewArm(id, if name.Some? then name.value else id));
      }
      a := toolArms.m[id];
    }

    /** `_update_exploration_boost`: one boosted round is used up. */
    method UpdateExplorationBoost(id: string)
      requires Invariant()
      modifies `trial
      ensures Invariant()
      ensures trial == old(trial).(boosts := if id in old(trial).boosts && old(trial).boosts[id] > 0
                                             then old(trial).boosts[id := old(trial).boosts[id] - 1]
                                             else old(trial).boosts)
      ensures GetExplorationBoost(id) <= old(GetExplorationBoost(id))
    {
      if id in trial.boosts && trial.boosts[id] > 0 {
        BoostDecays(trial.boosts, trial.learnedPaths.Keys, id);
        trial := trial.(boosts := trial.boosts[id := trial.boosts[id] - 1]);
      }
    }

    /** `_check_culling_candidates` after an outcome of the path `id` whose arm is now `a`. */
    method CheckCullingCandidates(id: string, a: Arm, now: real)
      requires Invariant()
      modifies `trial
      ensures Invariant()
      ensures trial.cullingCandidates == CandidatesAfter(old(trial).cullingCandidates, id, a)
      ensures id in trial.cullingCandidates && id !in old(trial).cullingCandidates ==>
        var w := trial.watchList[id];
        w.successRate == SuccessRate(a) && w.addedAt == now && w.sampleCount == a.activationCount
        && TrailingFailures(a.recentResults, w.consecutiveFailures)
      ensures trial.watchList - {id} == old(trial).watchList - {id}
      ensures id in old(trial).cullingCandidates && id in trial.cullingCandidates ==> trial.watchList == old(trial).watchList
      ensures trial.(cullingCandidates := old(trial).cullingCandidates, watchList := old(trial).watchList) == old(trial)
    {
      if a.activationCount < CullingMinSamples {
        return;
      }
      var rate := SuccessRate(a);
      if rate < CullingThreshold {
        if id !in trial.cullingCandidates {
          var failures := ConsecutiveFailures(a.recentResults);
          trial := trial.(cullingCandidates := trial.cullingCandidates + {id},
                          watchList := trial.watchList[id := Watch(rate, now, a.activationCount, failures)]);
        }
      } else if id in trial.cullingCandidates {
        if rate >= RecoveryThreshold {
          trial := trial.(cullingCandidates := trial.cullingCandidates - {id}, watchList := trial.watchList - {id});
        }
      }
    }

    /** `_cull_path`: an arm that exists is recorded in the culling history and removed with its trial-ground entries. */
    method CullPath(id: string, reason: CullReason, now: real)
      modifies `pathArms, `trial
      ensures id !in old(pathArms) ==> pathArms == old(pathArms) && trial == old(trial)
      ensures id in old(pathArms) ==>
        var a := old(pathArms)[id];
        && pathArms == old(pathArms) - {id}
        && trial == WithoutCulled(old(trial), {id}, [CullRecord(id, now, reason, SuccessRate(a), a.activationCount,
                                                                a.totalReward, id in old(trial).learnedPaths)])
    {
      if id in pathArms {
        var a := pathArms[id];
        var record := CullRecord(id, now, reason, SuccessRate(a), a.activationCount, a.totalReward, id in trial.learnedPaths);
        pathArms := pathArms - {id};
        trial := WithoutCulled(trial, {id}, [record]);
      }
    }

    /**
     * One candidate of `execute_automatic_culling`, reviewed against the
     * tables as they were before the sweep (`arms0`, `trial0`), of which the
     * candidates in `gone` have been culled so far with the given records.
     */
    method ReviewCandidate(id: string, golden: set<string>, now: real, ghost arms0: map<string, Arm>,
                           ghost trial0: TrialGroundState, ghost gone: set<string>, ghost records: seq<CullRecord>)
      returns (wasCulled: bool)
      requires id !in gone
      requires pathArms == arms0 - gone && trial == WithoutCulled(trial0, gone, records)
      modifies `pathArms, `trial
      ensures wasCulled <==> id in arms0 && DecisionFor(id, arms0, trial0.learnedPaths, trial0.watchList, golden, now).cull
      ensures !wasCulled ==> pathArms == old(pathArms) && trial == old(trial)
      ensures wasCulled ==>
        var a := arms0[id];
        var record := CullRecord(id, now, DecisionFor(id, arms0, trial0.learnedPaths, trial0.watchList, golden, now).reason,
                                 SuccessRate(a), a.activationCount, a.totalReward, id in trial0.learnedPaths);
        pathArms == arms0 - (gone + {id}) && trial == WithoutCulled(trial0, gone + {id}, records + [record])
    {
      wasCulled := false;
      if id in pathArms {
        DecisionUnaffected(id, gone, arms0, trial0.learnedPaths, trial0.watchList, golden, now);
        var d := ShouldCull(if id in trial.learnedPaths then Some(trial.learnedPaths[id].trialStartTime) else None, pathArms[id],
                            if id in trial.watchList then Some(trial.watchList[id]) else None, id in golden, now);
        if d.cull {
          CullPath(id, d.reason, now);
          wasCulled := true;
        }
      }
    }

    /**
     * `execute_automatic_culling`: every candidate is reviewed once against
     * the tables as they were; those that meet the culling rule are culled,
     * those without an arm dropped, and the rest spared and kept as
     * candidates. `golden` holds the ids of the golden templates.
     */
    method ExecuteAutomaticCulling(golden: set<string>, now: real) returns (culled: seq<string>, spared: seq<string>)
      requires Invariant()
      modifies `pathArms, `trial
      ensures Invariant()
      ensures var t0 := old(trial);
        var gone := CulledAmong(t0.cullingCandidates, old(pathArms), t0.learnedPaths, t0.watchList, golden, now);
        && Elements(culled) == gone && Distinct(culled)
        && pathArms == old(pathArms) - gone
        && trial.learnedPaths == t0.learnedPaths - gone
        && trial.boosts == t0.boosts - gone
        && trial.promotionCandidates == t0.promotionCandidates - gone
        && trial.cullingCandidates == t0.cullingCandidates * old(pathArms).Keys - gone
        && Elements(spared) == trial.cullingCandidates
        && trial.trialHistory == t0.trialHistory
      ensures |trial.culledPaths| == |old(trial).culledPaths| + |culled|
      ensures trial.culledPaths[..|old(trial).culledPaths|] == old(trial).culledPaths
      ensures forall i :: 0 <= i < |culled| ==> trial.culledPaths[|old(trial).culledPaths| + i].strategyId == culled[i]
    {
      ghost var arms0, trial0 := pathArms, trial;
      var toRemove;
      ghost var gone, records;
      culled, spared, toRemove, gone, records := SweepCandidates(golden, now);
      SweepDone(trial0.cullingCandidates, gone, culled, spared, toRemove, records, arms0, trial0.learnedPaths, trial0.watchList, golden, now);
      RemovalKeeps(arms0, trial0.boosts, gone);
      trial := trial.(cullingCandidates := trial.cullingCandidates - toRemove, watchList := trial.watchList - toRemove);
    }

    /** The review loop of `execute_automatic_culling`: every candidate decided once, the culled ones removed as they go. */
    method SweepCandidates(golden: set<string>, now: real)
      returns (culled: seq<string>, spared: seq<string>, toRemove: set<string>, ghost gone: set<string>, ghost records: seq<CullRecord>)
      modifies `pathArms, `trial
      ensures Sweep(old(trial).cullingCandidates, gone, culled, spared, toRemove, records, old(pathArms),
                    old(trial).learnedPaths, old(trial).watchList, golden, now)
      ensures pathArms == old(pathArms) - gone && trial == WithoutCulled(old(trial), gone, records)
    {
      ghost var arms0, trial0 := pathArms, trial;
      var candidates := trial.cullingCandidates;
      var todo := candidates;
      ghost var reviewed: set<string> := {};
      gone, records := {}, [];
      toRemove := {};
      culled, spared := [], [];
      while todo != {}
        invariant reviewed + todo == candidates && reviewed !! todo
        invariant Sweep(reviewed, gone, culled, spared, toRemove, records, arms0, trial0.learnedPaths, trial0.watchList, golden, now)
        invariant pathArms == arms0 - gone && trial == WithoutCulled(trial0, gone, records)
        decreases todo
      {
        var id :| id in todo;
        todo := todo - {id};
        var hadArm := id in pathArms;
        var wasCulled := ReviewCandidate(id, golden, now, arms0, trial0, gone, records);
        ghost var record := if wasCulled then trial.culledPaths[|trial.culledPaths| - 1]
                            else CullRecord(id, now, NotEligible, 0.0, 0, 0.0, false);
        SweepStep(reviewed, gone, culled, spared, toRemove, records, arms0, trial0.learnedPaths, trial0.watchList,
                  golden, now, id, hadArm, wasCulled, record);
        reviewed := reviewed + {id};
        if wasCulled {
          gone := gone + {id};
          toRemove := toRemove + {id};
          culled := culled + [id];
          records := records + [record];
        } else if !hadArm {
          toRemove := toRemove + {id};
        } else {
          spared := spared + [id];
        }
      }
    }

    /** `_cleanup_expired_exploration_boosts` on the trial ground. */
    method CleanupExpiredBoosts() returns (cleaned: nat)
      requires Invariant()
      modifies `trial
      ensures Invariant()
      ensures forall k :: k in trial.boosts <==> k in old(trial).boosts && old(trial).boosts[k] > 0
      ensures forall k :: k in trial.boosts ==> trial.boosts[k] == old(trial).boosts[k]
      ensures cleaned == |ExpiredBoosts(old(trial).boosts)|
      ensures trial.(boosts := old(trial).boosts) == old(trial)
    {
      var b;
      b, cleaned := WithoutExpiredBoosts(trial.boosts);
      trial := trial.(boosts := b);
    }

    /** `_manage_culled_history`: keeps the newest 100 records and reports how many were dropped. */
    method ManageCulledHistory() returns (trimmed: nat)
      requires Invariant()
      modifies `trial
      ensures Invariant()
      ensures trial == old(trial).(culledPaths := LastN(old(trial).culledPaths, MaxCulledHistory))
      ensures |trial.culledPaths| <= MaxCulledHistory
      ensures trimmed == |old(trial).culledPaths| - |trial.culledPaths|
    {
      trimmed := 0;
      var history := trial.culledPaths;
      if |history| > MaxCulledHistory {
        trimmed := |history| - MaxCulledHistory;
        trial := trial.(culledPaths := history[|history| - MaxCulledHistory..]);
      }
    }

    /** `is_tool_cold` on the current tool arms. */
    function IsToolCold(name: string, c: ColdStartConfig, now: real): (r: ColdReport)
      reads this
      ensures name !in toolArms.m ==> r.isColdStart && r.coldScore == 1.0 && r.confidence == 0.0
                                      && r.recommendation == Exploration
      ensures r.confidence == 1.0 - r.coldScore
    {
      ColdReportFor(if name in toolArms.m then Some(toolArms.m[name]) else None, c, now)
    }

    /** `_record_feedback_source`: only the four tracked sources are counted. */
    method RecordFeedbackSource(source: string, success: bool, reward: real)
      requires Invariant()
      modifies `sourceTracking
      ensures Invariant()
      ensures sourceTracking == if source in old(sourceTracking)
                                then old(sourceTracking)[source := Tracked(old(sourceTracking)[source], success, reward)]
                                else old(sourceTracking)
    {
      if source in sourceTracking {
        sourceTracking := sourceTracking[source := Tracked(sourceTracking[source], success, reward)];
      }
    }

    /** The arm update of `update_path_performance` on a path or a tool arm. */
    method RecordArmOutcome(id: string, success: bool, reward: real, source: string, now: real)
      requires Invariant()
      requires id in pathArms || id in toolArms.m
      modifies `pathArms, `toolArms, `toolAlgorithmPerformance
      ensures Invariant()
      ensures id in old(pathArms) ==>
        pathArms == old(pathArms)[id := Updated(old(pathArms)[id], success, AdjustRewardBySource(reward, source, success), now)]
        && toolArms == old(toolArms) && toolAlgorithmPerformance == old(toolAlgorithmPerformance)
      ensures id !in old(pathArms) ==>
        && pathArms == old(pathArms)
        && toolArms.keys == old(toolArms).keys
        && toolArms.m == old(toolArms).m[id := Updated(old(toolArms).m[id], success, AdjustRewardBySource(reward, source, success), now)]
        && toolAlgorithmPerformance == PathConverger.CreditAlgorithm(old(toolAlgorithmPerformance), toolSelectionHistory, id, success)
    {
      var adjusted := AdjustRewardBySource(reward, source, success);
      if id in pathArms {
        pathArms := pathArms[id := Updated(pathArms[id], success, adjusted, now)];
      } else {
        PathConverger.CreditAlgorithmConsistent(toolAlgorithmPerformance, toolSelectionHistory, id, success);
        toolAlgorithmPerformance := PathConverger.CreditAlgorithm(toolAlgorithmPerformance, toolSelectionHistory, id, success);
        toolArms := WithArm(toolArms, id, Updated(toolArms.m[id], success, adjusted, now));
      }
    }

    /**
     * `update_path_performance` with a feedback source: an unknown id gets a
     * path arm; the reward is weighted by its source before it reaches the
     * arm, the raw reward is what the source statistics record, and a path
     * arm is then checked for culling candidacy.
     */
    method UpdatePathPerformance(id: string, success: bool, reward: real, source: string, now: real)
      requires Invariant()
      modifies `pathArms, `toolArms, `toolAlgorithmPerformance, `sourceTracking, `trial
      ensures Invariant()
      ensures ArmFed(old(pathArms), old(trial), old(toolArms), old(toolAlgorithmPerformance), toolSelectionHistory,
                     id, success, reward, source, now, totalPathSelections, pathArms, trial, toolArms, toolAlgorithmPerformance)
      ensures id in old(pathArms) || id !in old(toolArms).m ==>
        id in pathArms && trial.cullingCandidates == CandidatesAfter(old(trial).cullingCandidates, id, pathArms[id])
      ensures sourceTracking == if source in old(sourceTracking)
                                then old(sourceTracking)[source := Tracked(old(sourceTracking)[source], success, reward)]
                                else old(sourceTracking)
    {
      ghost var arms0, trial0, tools0, perf0 := pathArms, trial, toolArms, toolAlgorithmPerformance;
      FeedArm(id, success, reward, source, now);
      ghost var trial1 := trial;
      RecordOutcome(id, success, reward, source, now);
      CullingKeepsArmFed(arms0, trial0, tools0, perf0, toolSelectionHistory, id, success, reward, source, now, totalPathSelections,
                         pathArms, trial1, toolArms, toolAlgorithmPerformance, trial);
    }

    /** The rest of `update_path_performance`: the source statistics take the raw reward, and a path arm is checked for culling. */
    method RecordOutcome(id: string, success: bool, reward: real, source: string, now: real)
      requires Invariant()
      modifies `sourceTracking, `trial
      ensures Invariant()
      ensures id in pathArms ==> trial.cullingCandidates == CandidatesAfter(old(trial).cullingCandidates, id, pathArms[id])
      ensures trial.(cullingCandidates := old(trial).cullingCandidates, watchList := old(trial).watchList) == old(trial)
      ensures id !in pathArms ==> trial == old(trial)
      ensures sourceTracking == if source in old(sourceTracking)
                                then old(sourceTracking)[source := Tracked(old(sourceTracking)[source], success, reward)]
                                else old(sourceTracking)
    {
      RecordFeedbackSource(source, success, reward);
      if id in pathArms {
        CheckCullingCandidates(id, pathArms[id], now);
      }
    }

    /** The arm half of `update_path_performance`: an unknown id gets a path arm, then the arm records the outcome. */
    method FeedArm(id: string, success: bool, reward: real, source: string, now: real)
      requires Invariant()
      modifies `pathArms, `toolArms, `toolAlgorithmPerformance, `trial
      ensures Invariant()
      ensures ArmFed(old(pathArms), old(trial), old(toolArms), old(toolAlgorithmPerformance), toolSelectionHistory,
                     id, success, reward, source, now, totalPathSelections, pathArms, trial, toolArms, toolAlgorithmPerformance)
      ensures trial.cullingCandidates == old(trial).cullingCandidates && trial.watchList == old(trial).watchList
    {
      if id in pathArms || id !in toolArms.m {
        FeedPath(id, success, reward, source, now);
      } else {
        RecordArmOutcome(id, success, reward, source, now);
      }
    }

    /** `update_path_performance` on a path: the arm, created if missing, records the outcome. */
    method FeedPath(id: string, success: bool, reward: real, source: string, now: real)
      requires Invariant()
      modifies `pathArms, `trial
      ensures Invariant()
      ensures PathFed(old(pathArms), old(trial), id, success, reward, source, now, totalPathSelections, pathArms, trial)
      ensures trial.cullingCandidates == old(trial).cullingCandidates && trial.watchList == old(trial).watchList
    {
      ghost var arms0 := pathArms;
      var a := CreateStrategyArm(id, None, UnknownSource, None, now);
      var b := Updated(a, success, AdjustRewardBySource(reward, source, success), now);
      Overwritten(arms0, pathArms, id, b);
      pathArms := pathArms[id := b];
    }

    /**
     * `select_best_tool`. The random draws of the bandit algorithms are
     * parameters (see the ToolScoring module). An empty list is an error, a
     * single tool is returned without a round; otherwise a round is run and
     * candidate `k` is the one the round's algorithm chooses.
     */
    method SelectBestTool(tools: seq<string>, algorithm: string, draws: seq<real>, u: real, pick: nat,
                          confidenceBound: (nat, nat) -> real, now: real) returns (r: Result<string>, k: nat)
      requires Invariant()
      requires |draws| == |tools| && BetaDraws(draws) && (|tools| == 0 || pick < |tools|)
      modifies `toolArms, `totalToolSelections, `toolSelectionHistory
      ensures Invariant()
      ensures r.Err? <==> |tools| == 0
      ensures |tools| <= 1 ==> unchanged(this)
      ensures |tools| == 1 ==> r == Ok(tools[0]) && k == 0
      ensures |tools| >= 2 ==>
        ToolChoice(old(toolArms), tools, algorithm, old(totalToolSelections) + 1, draws, u, pick, confidenceBound, k)
      ensures |tools| >= 2 ==> r.Ok? && k < |tools| && tools[k] in toolArms.m && r.value == toolArms.m[tools[k]].option
      ensures |tools| >= 2 ==> ToolRoundDone(tools, algorithm, k, now, old(toolArms), old(totalToolSelections),
                                             old(toolSelectionHistory), toolArms, totalToolSelections, toolSelectionHistory)
    {
      k := 0;
      if |tools| == 0 {
        r := Err("the tool list is empty");
      } else if |tools| == 1 {
        r := Ok(tools[0]);
      } else {
        var name;
        k, name := RunToolRound(tools, algorithm, draws, u, pick, confidenceBound, now);
        r := Ok(name);
      }
    }

    /** The round of `select_best_tool` for two or more tools; the chosen candidate and its arm's name are returned. */
    method RunToolRound(tools: seq<string>, algorithm: string, draws: seq<real>, u: real, pick: nat,
                        confidenceBound: (nat, nat) -> real, now: real) returns (k: nat, name: string)
      requires Invariant()
      requires 2 <= |tools| && |draws| == |tools| && BetaDraws(draws) && pick < |tools|
      modifies `toolArms, `totalToolSelections, `toolSelectionHistory
      ensures Invariant()
      ensures ToolChoice(old(toolArms), tools, algorithm, old(totalToolSelections) + 1, draws, u, pick, confidenceBound, k)
      ensures ToolRoundDone(tools, algorithm, k, now, old(toolArms), old(totalToolSelections), old(toolSelectionHistory),
                            toolArms, totalToolSelections, toolSelectionHistory)
      ensures k < |tools| && tools[k] in toolArms.m && name == toolArms.m[tools[k]].option
    {
      k, name := ToolRound(tools, algorithm, draws, u, pick, confidenceBound, now);
    }

    /** The state change of a tool round, which touches the tool arms, the round count and the tool history only. */
    method ToolRound(tools: seq<string>, algorithm: string, draws: seq<real>, u: real, pick: nat,
                     confidenceBound: (nat, nat) -> real, now: real) returns (k: nat, name: string)
      requires PathConverger.ArmsKeyed(toolArms)
      requires 0 < |tools| && |draws| == |tools| && BetaDraws(draws) && pick < |tools|
      modifies `toolArms, `totalToolSelections, `toolSelectionHistory
      ensures PathConverger.ArmsKeyed(toolArms)
      ensures ToolChoice(old(toolArms), tools, algorithm, old(totalToolSelections) + 1, draws, u, pick, confidenceBound, k)
      ensures ToolRoundDone(tools, algorithm, k, now, old(toolArms), old(totalToolSelections), old(toolSelectionHistory),
                            toolArms, totalToolSelections, toolSelectionHistory)
      ensures k < |tools| && tools[k] in toolArms.m && name == toolArms.m[tools[k]].option
    {
      totalToolSelections := totalToolSelections + 1;
      var prepared := PrepareToolArms(toolArms, tools);
      EnsureToolArmsHas(toolArms, tools);
      var alg := ToolAlgorithmUsed(algorithm, totalToolSelections, prepared);
      k := RunToolAlgorithm(alg, ToolCandidates(prepared, tools), draws, u, pick, confidenceBound);
      name := ActivateTool(prepared, tools[k], alg, now);
    }

    /** The chosen tool's arm activated in the prepared table, and the round recorded. */
    method ActivateTool(prepared: ODict<Arm>, t: string, alg: string, now: real) returns (name: string)
      requires PathConverger.ArmsKeyed(prepared) && t in prepared.m
      modifies `toolArms, `toolSelectionHistory
      ensures PathConverger.ArmsKeyed(toolArms)
      ensures toolArms.keys == prepared.keys && toolArms.m == prepared.m[t := PathConverger.Activated(prepared.m[t], now)]
      ensures name == prepared.m[t].option
      ensures toolSelectionHistory == old(toolSelectionHistory) + [PathConverger.SelectionRecord(t, name, alg, now, totalToolSelections)]
    {
      name := prepared.m[t].option;
      toolArms := WithArm(prepared, t, PathConverger.Activated(prepared.m[t], now));
      toolSelectionHistory := toolSelectionHistory + [PathConverger.SelectionRecord(t, name, alg, now, totalToolSelections)];
    }
  }
}
