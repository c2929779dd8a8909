/**
 * The scoring rules of the path converger: the per-arm scores of its three
 * bandit algorithms, the choice between them, the convergence level, the
 * stability and confidence measures, the recent trend and the success
 * streak, and the inference of a path type from a strategy id.
 *
 * Random draws enter as parameters: `draws[i]` is the Beta sample taken for
 * arm `i`, `u` the uniform draw of epsilon-greedy and `pick` the index a
 * uniform random choice lands on.  The UCB confidence radius
 * `sqrt(2 ln T / n)` enters as the function `confidenceBound(T, n)`.
 */
module PathScoring {
  import opened Outcomes
  import opened Seqs
  import opened Text
  import opened DecisionArm

  const Thompson := "thompson_sampling"
  const Ucb := "ucb_variant"
  const EpsilonGreedy := "epsilon_greedy"
  const AutoAlgorithm := "auto"

  // ---------------------------------------------------------------------
  // Reward signal shared by the three algorithms
  // ---------------------------------------------------------------------

  /** `max(0, min(1, (avg + 1) / 2))`: an average reward in [-1, 1] mapped onto [0, 1]. */
  function NormalizedReward(avg: real): (r: real)
    ensures 0.0 <= r <= 1.0
    ensures -1.0 <= avg <= 1.0 ==> r == (avg + 1.0) / 2.0
  {
    Clamp((avg + 1.0) / 2.0, 0.0, 1.0)
  }

  /** The normalized mean of an arm's RL reward history. */
  function RewardSignal(a: Arm): (r: real)
    requires |a.rlRewardHistory| > 0
    ensures 0.0 <= r <= 1.0
  {
    NormalizedReward(Mean(a.rlRewardHistory))
  }

  /** Sum of the activation counts of the candidate arms (an arm listed twice counts twice). */
  function ArmActivations(arms: seq<Arm>): (n: nat)
    ensures n == 0 <==> forall i :: 0 <= i < |arms| ==> arms[i].activationCount == 0
  {
    if |arms| == 0 then 0 else ArmActivations(arms[..|arms| - 1]) + arms[|arms| - 1].activationCount
  }

  // ---------------------------------------------------------------------
  // Thompson sampling
  // ---------------------------------------------------------------------

  /**
   * The score of one arm given its Beta draw: blended 80/20 with the reward
   * signal when there is a reward history, minus a usage penalty of at most
   * 0.1, floored at 0.
   */
  function ThompsonScore(a: Arm, draw: real, totalSelections: nat): (s: real)
    ensures s >= 0.0
    ensures 0.0 <= draw <= 1.0 ==> s <= 1.0
    ensures |a.rlRewardHistory| == 0 ==> Max(0.0, draw - 0.1) <= s <= Max(0.0, draw)
    ensures |a.rlRewardHistory| == 0 && a.activationCount == 0 ==> s == Max(0.0, draw)
  {
    var blended := if |a.rlRewardHistory| > 0 then draw * 0.8 + RewardSignal(a) * 0.2 else draw;
    var ratio := (a.activationCount as real) / ((totalSelections + 1) as real);
    assert ratio >= 0.0;
    var penalty := Min(0.1, ratio * 0.2);
    Max(0.0, blended - penalty)
  }

  function ThompsonScores(arms: seq<Arm>, draws: seq<real>, totalSelections: nat): (ss: seq<real>)
    requires |draws| == |arms|
    ensures |ss| == |arms|
    ensures forall i :: 0 <= i < |arms| ==> ss[i] == ThompsonScore(arms[i], draws[i], totalSelections)
  {
    seq(|arms|, i requires 0 <= i < |arms| => ThompsonScore(arms[i], draws[i], totalSelections))
  }

  /** `_thompson_sampling_for_paths`: the first arm with the highest sampled score. */
  method ThompsonChoice(arms: seq<Arm>, draws: seq<real>, totalSelections: nat) returns (k: nat)
    requires |arms| > 0 && |draws| == |arms|
    ensures IsFirstMax(ThompsonScores(arms, draws, totalSelections), k)
  {
    ghost var scores := ThompsonScores(arms, draws, totalSelections);
    var best := -1.0;
    k := 0;
    var i := 0;
    while i < |arms|
      invariant 0 <= i <= |arms|
      invariant k <= i && (i == 0 ==> best == -1.0)
      invariant i > 0 ==> k < i && best == scores[k]
      invariant forall j :: 0 <= j < i ==> scores[j] <= best
      invariant forall j :: 0 <= j < k ==> scores[j] < best
    {
      var s := ThompsonScore(arms[i], draws[i], totalSelections);
      if s > best {
        best := s;
        k := i;
      }
      i := i + 1;
    }
  }

  // ---------------------------------------------------------------------
  // UCB variant
  // ---------------------------------------------------------------------

  /** The exploitation part of the UCB value: the success rate, blended 70/30 with the reward signal. */
  function UcbBase(a: Arm): (r: real)
    ensures 0.0 <= r <= 1.0
    ensures |a.rlRewardHistory| == 0 ==> r == SuccessRate(a)
  {
    if |a.rlRewardHistory| > 0 then SuccessRate(a) * 0.7 + RewardSignal(a) * 0.3 else SuccessRate(a)
  }

  function UcbValues(arms: seq<Arm>, confidenceBound: (nat, nat) -> real): (vs: seq<real>)
    ensures |vs| == |arms|
    ensures forall i :: 0 <= i < |arms| ==>
      vs[i] == UcbBase(arms[i]) + confidenceBound(ArmActivations(arms), arms[i].activationCount) * 1.2
  {
    seq(|arms|, i requires 0 <= i < |arms| =>
      UcbBase(arms[i]) + confidenceBound(ArmActivations(arms), arms[i].activationCount) * 1.2)
  }

  /**
   * `_ucb_variant_for_paths`: a random arm when no arm was ever activated;
   * otherwise the first never-activated arm if there is one, else the first
   * arm with the highest UCB value.
   */
  predicate UcbRule(arms: seq<Arm>, confidenceBound: (nat, nat) -> real, pick: nat, k: nat)
  {
    k < |arms|
    && (ArmActivations(arms) == 0 ==> k == pick)
    && (ArmActivations(arms) > 0 && (exists i :: 0 <= i < |arms| && arms[i].activationCount == 0) ==>
          arms[k].activationCount == 0 && forall j :: 0 <= j < k ==> arms[j].activationCount > 0)
    && ((forall i :: 0 <= i < |arms| ==> arms[i].activationCount > 0) ==>
          IsFirstMax(UcbValues(arms, confidenceBound), k))
  }

  method UcbChoice(arms: seq<Arm>, confidenceBound: (nat, nat) -> real, pick: nat) returns (k: nat)
    requires |arms| > 0 && pick < |arms|
    ensures UcbRule(arms, confidenceBound, pick, k)
  {
    var totalRounds := ArmActivations(arms);
    if totalRounds == 0 {
      return pick;
    }
    ghost var values := UcbValues(arms, confidenceBound);
    var best := 0.0;
    k := 0;
    var i := 0;
    while i < |arms|
      invariant 0 <= i <= |arms|
      invariant forall j :: 0 <= j < i ==> arms[j].activationCount > 0
      invariant k <= i && (i > 0 ==> k < i && best == values[k])
      invariant forall j :: 0 <= j < i ==> values[j] <= best
      invariant forall j :: 0 <= j < k ==> values[j] < best
    {
      if arms[i].activationCount == 0 {
        return i;
      }
      var v := UcbBase(arms[i]) + confidenceBound(totalRounds, arms[i].activationCount) * 1.2;
      if i == 0 || v > best {
        best := v;
        k := i;
      }
      i := i + 1;
    }
  }

  // ---------------------------------------------------------------------
  // Epsilon-greedy
  // ---------------------------------------------------------------------

  /** `max(0.1, 0.4 / (1 + 0.008 * total))`: starts at 0.4 and reaches its floor 0.1 at 375 activations. */
  function ExplorationRate(totalActivations: nat): (eps: real)
    ensures 0.1 <= eps <= 0.4
    ensures totalActivations == 0 ==> eps == 0.4
    ensures totalActivations >= 375 ==> eps == 0.1
  {
    var d := 1.0 + (totalActivations as real) * 0.008;
    var q := 0.4 / d;
    assert q * d == 0.4;
    Max(0.1, q)
  }

  /** More activations never raise the exploration rate. */
  lemma ExplorationRateNonIncreasing(t1: nat, t2: nat)
    requires t1 <= t2
    ensures ExplorationRate(t2) <= ExplorationRate(t1)
  {
    var d1 := 1.0 + (t1 as real) * 0.008;
    var d2 := 1.0 + (t2 as real) * 0.008;
    var q1 := 0.4 / d1;
    var q2 := 0.4 / d2;
    assert q1 * d1 == 0.4 && q2 * d2 == 0.4;
  }

  /** The exploitation score before the over-use penalty: the success rate blended 60/40 with the reward signal. */
  function ExploitBase(a: Arm): (r: real)
    ensures 0.0 <= r <= 1.0
  {
    if |a.rlRewardHistory| > 0 then SuccessRate(a) * 0.6 + RewardSignal(a) * 0.4 else SuccessRate(a)
  }

  /** An arm used in more than half of all activations loses 5% of its score. */
  function ExploitScore(a: Arm, totalActivations: nat): (s: real)
    ensures 0.95 * ExploitBase(a) <= s <= ExploitBase(a)
    ensures (a.activationCount as real) / ((totalActivations + 1) as real) <= 0.5 ==> s == ExploitBase(a)
  {
    var usage := (a.activationCount as real) / ((totalActivations + 1) as real);
    if usage > 0.5 then ExploitBase(a) * 0.95 else ExploitBase(a)
  }

  function ExploitScores(arms: seq<Arm>): (ss: seq<real>)
    ensures |ss| == |arms|
    ensures forall i :: 0 <= i < |arms| ==> ss[i] == ExploitScore(arms[i], ArmActivations(arms))
  {
    seq(|arms|, i requires 0 <= i < |arms| => ExploitScore(arms[i], ArmActivations(arms)))
  }

  /**
   * `_epsilon_greedy_for_paths`: explores (a random arm) exactly when the
   * uniform draw falls below the exploration rate, and otherwise takes the
   * first arm with the highest exploitation score.
   */
  predicate EpsilonRule(arms: seq<Arm>, u: real, pick: nat, k: nat)
  {
    (u < ExplorationRate(ArmActivations(arms)) ==> k == pick)
    && (u >= ExplorationRate(ArmActivations(arms)) ==> IsFirstMax(ExploitScores(arms), k))
  }

  method EpsilonChoice(arms: seq<Arm>, u: real, pick: nat) returns (k: nat, explored: bool)
    requires |arms| > 0 && pick < |arms|
    ensures k < |arms|
    ensures explored <==> u < ExplorationRate(ArmActivations(arms))
    ensures EpsilonRule(arms, u, pick, k)
  {
    var total := ArmActivations(arms);
    if u < ExplorationRate(total) {
      return pick, true;
    }
    explored := false;
    ghost var scores := ExploitScores(arms);
    var best := 0.0;
    k := 0;
    var i := 0;
    while i < |arms|
      invariant 0 <= i <= |arms|
      invariant k <= i && (i > 0 ==> k < i && best == scores[k])
      invariant forall j :: 0 <= j < i ==> scores[j] <= best
      invariant forall j :: 0 <= j < k ==> scores[j] < best
    {
      var s := ExploitScore(arms[i], total);
      if i == 0 || s > best {
        best := s;
        k := i;
      }
      i := i + 1;
    }
  }

  // ---------------------------------------------------------------------
  // Convergence and algorithm choice
  // ---------------------------------------------------------------------

  /** The success rates of the arms that have been tried, in arm order. */
  function SampledRates(arms: seq<Arm>): (rs: seq<real>)
    ensures |rs| <= |arms|
    ensures forall i :: 0 <= i < |rs| ==> 0.0 <= rs[i] <= 1.0
  {
    if |arms| == 0 then []
    else
      var last := arms[|arms| - 1];
      SampledRates(arms[..|arms| - 1]) + (if TotalUses(last) > 0 then [SuccessRate(last)] else [])
  }

  /** The loop that collects `success_count / total` of every tried arm. */
  method CollectSampledRates(arms: seq<Arm>) returns (rates: seq<real>)
    ensures rates == SampledRates(arms)
  {
    rates := [];
    var i := 0;
    while i < |arms|
      invariant 0 <= i <= |arms|
      invariant rates == SampledRates(arms[..i])
    {
      assert arms[..i + 1][..i] == arms[..i];
      var total := arms[i].successCount + arms[i].failureCount;
      if total > 0 {
        rates := rates + [(arms[i].successCount as real) / (total as real)];
      }
      i := i + 1;
    }
    assert arms[..|arms|] == arms;
  }

  /** `max(0, 1 - 3.5 * var)` of the sampled rates, and 0 with fewer than two of them. */
  function ConvergenceLevel(arms: seq<Arm>): (c: real)
    ensures 0.0 <= c <= 1.0
    ensures |SampledRates(arms)| < 2 ==> c == 0.0
    ensures |arms| < 2 ==> c == 0.0
  {
    var rates := SampledRates(arms);
    if |arms| < 2 || |rates| < 2 then 0.0
    else
      VarianceNonNegative(rates);
      Max(0.0, 1.0 - Variance(rates) * 3.5)
  }

  /** `_calculate_path_convergence_level`. */
  method CalculateConvergenceLevel(arms: seq<Arm>) returns (c: real)
    ensures c == ConvergenceLevel(arms)
  {
    if |arms| < 2 {
      return 0.0;
    }
    var rates := CollectSampledRates(arms);
    if |rates| < 2 {
      return 0.0;
    }
    c := Max(0.0, 1.0 - Variance(rates) * 3.5);
  }

  /** Arms whose tried ones all share one success rate are fully converged. */
  lemma EqualRatesFullyConverged(arms: seq<Arm>)
    requires |SampledRates(arms)| >= 2
    requires forall i :: 0 <= i < |SampledRates(arms)| ==> SampledRates(arms)[i] == SampledRates(arms)[0]
    ensures ConvergenceLevel(arms) == 1.0
  {
    ConstantVarianceZero(SampledRates(arms));
  }

  /**
   * `_select_best_algorithm_for_paths`: Thompson sampling while there are
   * fewer than 15 selections or no arms, then by convergence level.
   */
  function AlgorithmFor(totalSelections: nat, hasArms: bool, convergence: real): (alg: string)
    ensures alg == Thompson <==> totalSelections < 15 || !hasArms || convergence < 0.4
    ensures alg == Ucb <==> totalSelections >= 15 && hasArms && 0.4 <= convergence < 0.7
    ensures alg == EpsilonGreedy <==> totalSelections >= 15 && hasArms && convergence >= 0.7
  {
    if totalSelections < 15 then Thompson
    else if !hasArms then Thompson
    else if convergence < 0.4 then Thompson
    else if convergence < 0.7 then Ucb
    else EpsilonGreedy
  }

  /** Number of recorded trials over all arms. */
  function TotalSamples(arms: seq<Arm>): nat
  {
    if |arms| == 0 then 0 else TotalSamples(arms[..|arms| - 1]) + TotalUses(arms[|arms| - 1])
  }

  /** The convergence threshold 0.05 widened by 1.2 for paths. */
  const PathVarianceThreshold := 0.05 * 1.2
  const MinSamples: nat := 10

  /**
   * `check_path_convergence`: at least two arms, at least `MinSamples`
   * trials, at least two tried arms, and a variance of their success rates
   * below the widened threshold.
   */
  function PathsConverged(arms: seq<Arm>): (r: bool)
    ensures r ==> |arms| >= 2 && TotalSamples(arms) >= MinSamples && |SampledRates(arms)| >= 2
  {
    var rates := SampledRates(arms);
    |arms| >= 2 && TotalSamples(arms) >= MinSamples && |rates| >= 2 && Variance(rates) < PathVarianceThreshold
  }

  /** Converged paths have a convergence level above 0.79, so once past 15 selections the choice is epsilon-greedy. */
  lemma ConvergedPathsUseEpsilonGreedy(arms: seq<Arm>, totalSelections: nat)
    requires PathsConverged(arms)
    requires totalSelections >= 15
    ensures ConvergenceLevel(arms) > 0.79
    ensures AlgorithmFor(totalSelections, true, ConvergenceLevel(arms)) == EpsilonGreedy
  {
  }

  /** Tried arms that all share one success rate, with enough samples, count as converged. */
  lemma EqualRatesConverge(arms: seq<Arm>)
    requires |arms| >= 2 && TotalSamples(arms) >= MinSamples
    requires |SampledRates(arms)| >= 2
    requires forall i :: 0 <= i < |SampledRates(arms)| ==> SampledRates(arms)[i] == SampledRates(arms)[0]
    ensures PathsConverged(arms)
  {
    ConstantVarianceZero(SampledRates(arms));
  }

  // ---------------------------------------------------------------------
  // Golden-template criteria and stability
  // ---------------------------------------------------------------------

  const SuccessRateThreshold := 0.90
  const MinSamplesRequired: nat := 20
  const StabilityWindow: nat := 10

  /** `_check_golden_criteria`. */
  predicate MeetsGoldenCriteria(a: Arm)
  {
    SuccessRate(a) >= SuccessRateThreshold && a.activationCount >= MinSamplesRequired
  }

  /**
   * `_check_path_stability`: a full window of the last 10 results whose
   * success rate is at least 95% of the overall one.
   */
  function IsStable(a: Arm): (r: bool)
    ensures r ==> |a.recentResults| >= StabilityWindow
  {
    |a.recentResults| >= StabilityWindow
    && (CountTrue(LastN(a.recentResults, StabilityWindow)) as real) / (StabilityWindow as real) >= SuccessRate(a) * 0.95
  }

  /** A full window of successes is always stable. */
  lemma TenSuccessesAreStable(a: Arm)
    requires |a.recentResults| >= StabilityWindow
    requires forall i :: |a.recentResults| - StabilityWindow <= i < |a.recentResults| ==> a.recentResults[i]
    ensures IsStable(a)
  {
    var w := LastN(a.recentResults, StabilityWindow);
    assert forall i :: 0 <= i < |w| ==> w[i] == a.recentResults[|a.recentResults| - StabilityWindow + i];
    CountTrueAll(w);
  }

  /** A strategy ready for promotion succeeded in at least 9 of its last 10 results. */
  lemma PromotableHasNineOfTen(a: Arm)
    requires MeetsGoldenCriteria(a) && IsStable(a)
    ensures CountTrue(LastN(a.recentResults, StabilityWindow)) >= 9
  {
    var n := CountTrue(LastN(a.recentResults, StabilityWindow));
    assert (n as real) / 10.0 >= 0.855;
  }

  /** Success rate of the 5-result window starting at `i`. */
  function WindowRate(xs: seq<bool>, i: nat): (r: real)
    requires i + 5 <= |xs|
    ensures 0.0 <= r <= 1.0
  {
    Fraction(xs[i..i + 5])
  }

  /** The success rates of all sliding 5-result windows. */
  function WindowRates(xs: seq<bool>): (rs: seq<real>)
    ensures |rs| == if |xs| >= 5 then |xs| - 4 else 0
    ensures forall i :: 0 <= i < |rs| ==> rs[i] == WindowRate(xs, i)
  {
    if |xs| < 5 then [] else seq(|xs| - 4, i requires 0 <= i < |xs| - 4 => WindowRate(xs, i))
  }

  /**
   * `_calculate_stability_score`: 0 below 10 activations, 0.5 with fewer than
   * 6 recent results, else `max(0, 1 - 4 * var)` of the window rates over the
   * last 20 results.
   */
  function StabilityScore(a: Arm): (s: real)
    ensures 0.0 <= s <= 1.0
    ensures a.activationCount < 10 ==> s == 0.0
    ensures a.activationCount >= 10 && |a.recentResults| < 6 ==> s == 0.5
  {
    if a.activationCount < 10 then 0.0
    else
      var recent := LastN(a.recentResults, 20);
      if |recent| < 5 then 0.5
      else
        var rates := WindowRates(recent);
        if |rates| < 2 then 0.5
        else
          VarianceNonNegative(rates);
          Max(0.0, 1.0 - Variance(rates) * 4.0)
  }

  /** The loop over the sliding windows. */
  method CalculateStabilityScore(a: Arm) returns (s: real)
    ensures s == StabilityScore(a)
  {
    if a.activationCount < 10 {
      return 0.0;
    }
    var recent := LastN(a.recentResults, 20);
    if |recent| < 5 {
      return 0.5;
    }
    var rates := [];
    var i := 0;
    while i < |recent| - 5 + 1
      invariant 0 <= i <= |recent| - 4
      invariant |rates| == i
      invariant forall j :: 0 <= j < i ==> rates[j] == WindowRate(recent, j)
    {
      var window := recent[i..i + 5];
      var rate := (CountTrue(window) as real) / (|window| as real);
      assert rate == WindowRate(recent, i);
      rates := rates + [rate];
      i := i + 1;
    }
    assert rates == WindowRates(recent);
    if |rates| < 2 {
      return 0.5;
    }
    VarianceNonNegative(rates);
    s := Max(0.0, 1.0 - Variance(rates) * 4.0);
  }

  /** An arm whose last six or more results (of at most 20) were all successes has stability 1. */
  lemma UnbrokenSuccessIsFullyStable(a: Arm)
    requires a.activationCount >= 10
    requires |a.recentResults| >= 6
    requires forall i :: 0 <= i < |a.recentResults| ==> a.recentResults[i]
    ensures StabilityScore(a) == 1.0
  {
    var recent := LastN(a.recentResults, 20);
    var rates := WindowRates(recent);
    forall i | 0 <= i < |rates| ensures rates[i] == 1.0 {
      var w := recent[i..i + 5];
      assert forall j :: 0 <= j < |w| ==> w[j] == recent[i + j];
      FractionAllTrue(w);
    }
    ConstantVarianceZero(rates);
  }

  // ---------------------------------------------------------------------
  // Confidence
  // ---------------------------------------------------------------------

  /** The sample-size part of the confidence: 0.2, 0.4, 0.6 or 0.8 by activation count. */
  function BaseConfidence(activations: nat): (b: real)
    ensures b == 0.2 || b == 0.4 || b == 0.6 || b == 0.8
    ensures activations >= 20 <==> b == 0.8
  {
    if activations < 5 then 0.2 else if activations < 10 then 0.4 else if activations < 20 then 0.6 else 0.8
  }

  /** `_calculate_recent_performance_factor`: 0.5 with fewer than 3 results, else the success rate of the last 5. */
  function RecentPerformanceFactor(a: Arm): (r: real)
    ensures 0.0 <= r <= 1.0
    ensures |a.recentResults| < 3 ==> r == 0.5
  {
    if |a.recentResults| < 3 then 0.5
    else
      Fraction(LastN(a.recentResults, 5))
  }

  /** `get_path_confidence`: a 30/40/20/10 blend of sample size, success, stability and recent performance, clamped to [0, 1]. */
  function PathConfidence(a: Arm): (c: real)
    ensures 0.0 <= c <= 1.0
    ensures a.activationCount < 5 ==> c <= 0.76
  {
    var stability := if a.activationCount >= 10 then StabilityScore(a) else 0.5;
    Clamp(BaseConfidence(a.activationCount) * 0.3 + SuccessRate(a) * 0.4 + stability * 0.2
          + RecentPerformanceFactor(a) * 0.1, 0.0, 1.0)
  }

  /** A freshly created arm has confidence 0.21, below the default low-confidence threshold 0.3. */
  lemma NewArmConfidence(pathId: string, option: string)
    ensures PathConfidence(NewArm(pathId, option)) == 0.21
  {
    var a := NewArm(pathId, option);
    assert TotalUses(a) == 0;
  }

  function MaxConfidence(arms: seq<Arm>): (m: real)
    requires |arms| > 0
    ensures forall i :: 0 <= i < |arms| ==> PathConfidence(arms[i]) <= m
    ensures exists i :: 0 <= i < |arms| && PathConfidence(arms[i]) == m
  {
    if |arms| == 1 then PathConfidence(arms[0])
    else
      var rest := MaxConfidence(arms[..|arms| - 1]);
      assert forall i :: 0 <= i < |arms| - 1 ==> arms[..|arms| - 1][i] == arms[i];
      Max(rest, PathConfidence(arms[|arms| - 1]))
  }

  /** `check_low_confidence_scenario`: true with no arms, else when every arm's confidence is below the threshold. */
  function LowConfidenceScenario(arms: seq<Arm>, threshold: real): (r: bool)
    ensures r <==> forall i :: 0 <= i < |arms| ==> PathConfidence(arms[i]) < threshold
  {
    |arms| == 0 || MaxConfidence(arms) < threshold
  }

  // ---------------------------------------------------------------------
  // Trend and streak
  // ---------------------------------------------------------------------

  const Improving := "improving"
  const Declining := "declining"
  const Stable := "stable"
  const InsufficientData := "insufficient_data"

  /** `_calculate_recent_trend`: the later half of the last 10 results against the earlier half, with a 0.1 margin. */
  function RecentTrend(results: seq<bool>): (t: string)
    ensures t == InsufficientData <==> |results| < 4
    ensures t == InsufficientData || t == Improving || t == Declining || t == Stable
  {
    if |results| < 4 then InsufficientData
    else
      var recent := LastN(results, 10);
      var mid := |recent| / 2;
      if mid < 2 then InsufficientData
      else
        var earlier := Fraction(recent[..mid]);
        var later := Fraction(recent[mid..]);
        if later > earlier + 0.1 then Improving
        else if later < earlier - 0.1 then Declining
        else Stable
  }

  /** An unbroken success record of at least 4 results is stable. */
  lemma AllSuccessTrendIsStable(results: seq<bool>)
    requires |results| >= 4
    requires forall i :: 0 <= i < |results| ==> results[i]
    ensures RecentTrend(results) == Stable
  {
    var recent := LastN(results, 10);
    var mid := |recent| / 2;
    assert forall i :: 0 <= i < |recent| ==> recent[i];
    var e, l := recent[..mid], recent[mid..];
    assert forall i :: 0 <= i < |e| ==> e[i] == recent[i];
    assert forall i :: 0 <= i < |l| ==> l[i] == recent[mid + i];
    FractionAllTrue(e);
    FractionAllTrue(l);
  }

  /** `_calculate_consecutive_successes`: the length of the run of successes that ends the history. */
  method ConsecutiveSuccesses(results: seq<bool>) returns (n: nat)
    ensures n <= |results|
    ensures forall i :: |results| - n <= i < |results| ==> results[i]
    ensures n < |results| ==> !results[|results| - 1 - n]
  {
    n := 0;
    while n < |results| && results[|results| - 1 - n]
      invariant n <= |results|
      invariant forall i :: |results| - n <= i < |results| ==> results[i]
    {
      n := n + 1;
    }
  }

  // ---------------------------------------------------------------------
  // Path type inference
  // ---------------------------------------------------------------------

  const DefaultPathType := "通用方法型"

  /** The eight thinking-path types. */
  const PathTypes: seq<string> := ["系统分析型", "创新突破型", "批判质疑型", "实用务实型",
                                   "整体综合型", "探索调研型", "协作咨询型", "适应灵活型"]

  /** The strategy-id to path-type table, in its declaration order. */
  const StrategyTypeTable: seq<(string, string)> := [
    ("systematic_analytical", "系统分析型"),
    ("creative_innovative", "创新突破型"),
    ("critical_questioning", "批判质疑型"),
    ("practical_pragmatic", "实用务实型"),
    ("holistic_comprehensive", "整体综合型"),
    ("exploratory_investigative", "探索调研型"),
    ("collaborative_consultative", "协作咨询型"),
    ("adaptive_flexible", "适应灵活型"),
    ("系统分析", "系统分析型"),
    ("创新突破", "创新突破型"),
    ("批判质疑", "批判质疑型"),
    ("实用务实", "实用务实型"),
    ("整体综合", "整体综合型"),
    ("探索调研", "探索调研型"),
    ("协作咨询", "协作咨询型"),
    ("适应灵活", "适应灵活型")
  ]

  /** The keyword rules of the last inference step: two English keywords and a Chinese one per type. */
  const KeywordTable: seq<(string, string, string, string)> := [
    ("systematic", "analytical", "系统", "系统分析型"),
    ("creative", "innovative", "创新", "创新突破型"),
    ("critical", "questioning", "批判", "批判质疑型"),
    ("practical", "pragmatic", "实用", "实用务实型"),
    ("holistic", "comprehensive", "整体", "整体综合型"),
    ("exploratory", "investigative", "探索", "探索调研型"),
    ("collaborative", "consultative", "协作", "协作咨询型"),
    ("adaptive", "flexible", "适应", "适应灵活型")
  ]

  predicate KeysDistinct(table: seq<(string, string)>)
  {
    forall i, j :: 0 <= i < j < |table| ==> table[i].0 != table[j].0
  }

  /** The value of the entry whose key is `key` (a dictionary lookup). */
  function DirectType(table: seq<(string, string)>, key: string): (r: Option<string>)
    requires KeysDistinct(table)
    ensures r.Some? ==> exists i :: 0 <= i < |table| && table[i] == (key, r.value)
    ensures r.None? <==> forall i :: 0 <= i < |table| ==> table[i].0 != key
    ensures forall i :: 0 <= i < |table| && table[i].0 == key ==> r == Some(table[i].1)
  {
    if |table| == 0 then None
    else if table[0].0 == key then Some(table[0].1)
    else
      var r := DirectType(table[1..], key);
      assert forall i :: 0 <= i < |table| - 1 ==> table[1..][i] == table[i + 1];
      r
  }

  /**
   * The value of the first entry whose key contains, or is contained in,
   * `lowered`. The source lower-cases each key first; the keys of the
   * strategy table hold no upper-case letters, so each key is its own
   * lower-cased form.
   */
  function FuzzyType(table: seq<(string, string)>, lowered: string): (r: Option<string>)
    ensures r.Some? ==> exists i :: 0 <= i < |table| && table[i].1 == r.value
  {
    if |table| == 0 then None
    else if Contains(lowered, table[0].0) || Contains(table[0].0, lowered) then Some(table[0].1)
    else
      var r := FuzzyType(table[1..], lowered);
      assert forall i :: 0 <= i < |table| - 1 ==> table[1..][i] == table[i + 1];
      r
  }

  function KeywordType(table: seq<(string, string, string, string)>, id: string, lowered: string): (r: Option<string>)
    ensures r.Some? ==> exists i :: 0 <= i < |table| && table[i].3 == r.value
  {
    if |table| == 0 then None
    else if Contains(lowered, table[0].0) || Contains(lowered, table[0].1) || Contains(id, table[0].2) then Some(table[0].3)
    else
      var r := KeywordType(table[1..], id, lowered);
      assert forall i :: 0 <= i < |table| - 1 ==> table[1..][i] == table[i + 1];
      r
  }

  lemma TablesWellFormed()
    ensures KeysDistinct(StrategyTypeTable)
    ensures forall i :: 0 <= i < |StrategyTypeTable| ==> StrategyTypeTable[i].1 in PathTypes
    ensures forall i :: 0 <= i < |KeywordTable| ==> KeywordTable[i].3 in PathTypes
  {
  }

  /** The three inference steps over given tables. */
  function InferFrom(table: seq<(string, string)>, keywords: seq<(string, string, string, string)>,
                     strategyId: string): (t: string)
    requires KeysDistinct(table)
    ensures t == DefaultPathType || (exists i :: 0 <= i < |table| && table[i].1 == t)
                                 || (exists i :: 0 <= i < |keywords| && keywords[i].3 == t)
    ensures forall i :: 0 <= i < |table| && table[i].0 == strategyId ==> t == table[i].1
  {
    match DirectType(table, strategyId)
    case Some(t) => t
    case None =>
      var lowered := Lower(strategyId);
      match FuzzyType(table, lowered)
      case Some(t) => t
      case None =>
        match KeywordType(keywords, strategyId, lowered)
        case Some(t) => t
        case None => DefaultPathType
  }

  /**
   * `_infer_path_type_from_strategy_id`: the table entry for the id, else the
   * first fuzzy match, else the first keyword rule, else the general type.
   */
  function InferPathType(strategyId: string): string
  {
    InferFrom(StrategyTypeTable, KeywordTable, strategyId)
  }

  /** The inferred type is a known path type or the general type, and a table entry for the id decides it. */
  lemma InferPathTypeKnown(strategyId: string)
    ensures InferPathType(strategyId) in PathTypes || InferPathType(strategyId) == DefaultPathType
    ensures forall i :: 0 <= i < |StrategyTypeTable| && StrategyTypeTable[i].0 == strategyId ==>
      InferPathType(strategyId) == StrategyTypeTable[i].1
  {
    TablesWellFormed();
  }
}
