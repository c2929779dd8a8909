/**
 * The cognitive engine's self-assessment of a tool arm ("is this tool
 * cold?"), the source-dependent reward adjustment and the per-source
 * feedback statistics.
 *
 * The thresholds and weights of the cold-start rule are configuration
 * (`MAB_CONFIG["cold_start_threshold"]`) and enter as a `ColdStartConfig`.
 */
module ColdStart {
  import opened Outcomes
  import opened Seqs
  import opened DecisionArm

  datatype ColdStartConfig = ColdStartConfig(
    minUsageCount: real,
    minReliabilityScore: real,
    maxIdleHours: real,
    minSampleSize: real,
    usageWeight: real,
    reliabilityWeight: real,
    recencyWeight: real,
    sampleWeight: real,
    explorationTriggerThreshold: real)

  /** Non-negative detection weights that sum to one. */
  predicate WeightsNormalised(c: ColdStartConfig)
  {
    c.usageWeight >= 0.0 && c.reliabilityWeight >= 0.0 && c.recencyWeight >= 0.0 && c.sampleWeight >= 0.0
    && c.usageWeight + c.reliabilityWeight + c.recencyWeight + c.sampleWeight == 1.0
  }

  /** Samples needed before the success rate counts towards reliability. */
  const MinReliableSamples: nat := 3
  /** Samples at which the reliability is no longer scaled down. */
  const FullSampleCount := 10.0
  const SecondsPerHour := 3600.0

  const Exploration := "exploration"
  const Experience := "experience"

  lemma ProductInUnit(x: real, y: real)
    requires 0.0 <= x <= 1.0 && 0.0 <= y <= 1.0
    ensures 0.0 <= x * y <= x
  {
    NonNegativeProduct(x, y);
    NonNegativeProduct(x, 1.0 - y);
    assert x * y + x * (1.0 - y) == x;
  }

  lemma NonNegativeProduct(x: real, y: real)
    requires 0.0 <= x && 0.0 <= y
    ensures 0.0 <= x * y
  {
  }

  /** Facts about `x / d` for a positive divisor. */
  lemma Quotient(x: real, d: real)
    requires d > 0.0
    ensures (x / d) * d == x
    ensures x >= 0.0 ==> x / d >= 0.0
    ensures x >= d ==> x / d >= 1.0
    ensures x < d ==> x / d < 1.0
  {
  }

  /** `max(0, 1 - n / max(limit, 1))`: 1 for nothing seen, 0 once `n` reaches the limit. */
  function ShortfallFactor(n: nat, limit: real): (r: real)
    ensures 0.0 <= r <= 1.0
    ensures n == 0 ==> r == 1.0
    ensures (n as real) >= Max(limit, 1.0) ==> r == 0.0
    ensures (n as real) < Max(limit, 1.0) ==> r > 0.0
  {
    var d := Max(limit, 1.0);
    Quotient(n as real, d);
    Max(0.0, 1.0 - (n as real) / d)
  }

  /** The success rate scaled by `min(1, samples / 10)`; 0 with fewer than three samples. */
  function AdjustedReliability(a: Arm): (r: real)
    ensures 0.0 <= r <= SuccessRate(a)
    ensures TotalUses(a) < MinReliableSamples ==> r == 0.0
    ensures (TotalUses(a) as real) >= FullSampleCount ==> r == SuccessRate(a)
  {
    var total := TotalUses(a);
    if total >= MinReliableSamples then
      Quotient(total as real, FullSampleCount);
      var adjustment := Min(1.0, (total as real) / FullSampleCount);
      var rate := SuccessRate(a);
      ProductInUnit(rate, adjustment);
      rate * adjustment
    else 0.0
  }

  /** `max(0, 1 - adjusted / max(min_reliability, 0.1))`. */
  function ReliabilityFactor(adjusted: real, minReliability: real): (r: real)
    requires adjusted >= 0.0
    ensures 0.0 <= r <= 1.0
    ensures adjusted == 0.0 ==> r == 1.0
    ensures adjusted >= Max(minReliability, 0.1) ==> r == 0.0
  {
    var d := Max(minReliability, 0.1);
    Quotient(adjusted, d);
    Max(0.0, 1.0 - adjusted / d)
  }

  /** Hours since the arm was last used; `None` stands for infinity (never used). */
  function IdleHours(a: Arm, now: real): (h: Option<real>)
    ensures h.None? <==> a.lastUsed <= 0.0
    ensures h.Some? && now >= a.lastUsed ==> h.value >= 0.0
  {
    if a.lastUsed > 0.0 then Some((now - a.lastUsed) / SecondsPerHour) else None
  }

  /** `min(1, idle / max(max_idle, 1))`; infinite idleness gives 1. */
  function RecencyFactor(idle: Option<real>, maxIdle: real): (r: real)
    ensures r <= 1.0
    ensures idle.None? ==> r == 1.0
    ensures idle.Some? && idle.value >= 0.0 ==> r >= 0.0
    ensures idle.Some? && idle.value >= Max(maxIdle, 1.0) ==> r == 1.0
  {
    match idle
    case None => 1.0
    case Some(h) =>
      var d := Max(maxIdle, 1.0);
      Quotient(h, d);
      Min(1.0, h / d)
  }

  /** What `_calculate_cold_start_factors` reports; an infinite idle time is reported as -1. */
  datatype ColdFactors = ColdFactors(
    usageCount: nat,
    usageFactor: real,
    reliabilityScore: real,
    reliabilityFactor: real,
    idleHours: real,
    recencyFactor: real,
    sampleSize: nat,
    sampleFactor: real)

  /** The four factors are fractions; only the recency one needs a clock that has not run backwards. */
  predicate FactorsInUnit(f: ColdFactors)
  {
    0.0 <= f.usageFactor <= 1.0 && 0.0 <= f.reliabilityFactor <= 1.0
    && 0.0 <= f.recencyFactor <= 1.0 && 0.0 <= f.sampleFactor <= 1.0
  }

  function ColdStartFactors(a: Arm, c: ColdStartConfig, now: real): (f: ColdFactors)
    ensures f.usageCount == a.activationCount && f.sampleSize == TotalUses(a)
    ensures 0.0 <= f.usageFactor <= 1.0 && 0.0 <= f.reliabilityFactor <= 1.0 && 0.0 <= f.sampleFactor <= 1.0
    ensures f.recencyFactor <= 1.0
    ensures now >= a.lastUsed ==> FactorsInUnit(f)
    ensures TotalUses(a) < MinReliableSamples ==> f.reliabilityScore == 0.0 && f.reliabilityFactor == 1.0
    ensures a.activationCount == 0 ==> f.usageFactor == 1.0
    ensures TotalUses(a) == 0 ==> f.sampleFactor == 1.0
    ensures a.lastUsed <= 0.0 ==> f.recencyFactor == 1.0 && f.idleHours == -1.0
  {
    var adjusted := AdjustedReliability(a);
    var idle := IdleHours(a, now);
    ColdFactors(
      a.activationCount,
      ShortfallFactor(a.activationCount, c.minUsageCount),
      adjusted,
      ReliabilityFactor(adjusted, c.minReliabilityScore),
      if idle.Some? then idle.value else -1.0,
      RecencyFactor(idle, c.maxIdleHours),
      TotalUses(a),
      ShortfallFactor(TotalUses(a), c.minSampleSize))
  }

  /** The weighted cold score. */
  function ColdScore(f: ColdFactors, c: ColdStartConfig): real
  {
    f.usageFactor * c.usageWeight + f.reliabilityFactor * c.reliabilityWeight
    + f.recencyFactor * c.recencyWeight + f.sampleFactor * c.sampleWeight
  }

  lemma WeightedFactor(x: real, w: real) returns (p: real)
    requires 0.0 <= x <= 1.0 && 0.0 <= w
    ensures p == x * w && 0.0 <= p <= w
  {
    p := x * w;
    NonNegativeProduct(x, w);
    NonNegativeProduct(1.0 - x, w);
    assert x * w + (1.0 - x) * w == w;
  }

  lemma BoundedTerms(u: real, r: real, t: real, s: real, wu: real, wr: real, wt: real, ws: real)
    requires 0.0 <= u <= wu && 0.0 <= r <= wr && 0.0 <= t <= wt && 0.0 <= s <= ws
    requires wu + wr + wt + ws == 1.0
    ensures 0.0 <= u + r + t + s <= 1.0
  {
  }

  /** With normalised weights a weighted score of fractions is a fraction. */
  lemma ColdScoreInUnit(f: ColdFactors, c: ColdStartConfig)
    requires WeightsNormalised(c) && FactorsInUnit(f)
    ensures 0.0 <= ColdScore(f, c) <= 1.0
  {
    var u, r, t, s := f.usageFactor, f.reliabilityFactor, f.recencyFactor, f.sampleFactor;
    var wu, wr, wt, ws := c.usageWeight, c.reliabilityWeight, c.recencyWeight, c.sampleWeight;
    var pu := WeightedFactor(u, wu);
    var pr := WeightedFactor(r, wr);
    var pt := WeightedFactor(t, wt);
    var ps := WeightedFactor(s, ws);
    BoundedTerms(pu, pr, pt, ps, wu, wr, wt, ws);
  }

  /** The answer of `is_tool_cold`, without the rounding and the explanatory text. */
  datatype ColdReport = ColdReport(
    isColdStart: bool,
    coldScore: real,
    confidence: real,
    usageCount: nat,
    reliabilityScore: real,
    idleHours: Option<real>,
    sampleSize: nat,
    recommendation: string)

  /**
   * `is_tool_cold` for the tool's arm, `None` when the tool has none: an
   * unknown tool is absolutely cold; a known one is cold exactly when its
   * weighted score exceeds the trigger threshold.
   */
  function ColdReportFor(arm: Option<Arm>, c: ColdStartConfig, now: real): (r: ColdReport)
    ensures arm.None? ==> r.isColdStart && r.coldScore == 1.0 && r.confidence == 0.0
                          && r.usageCount == 0 && r.sampleSize == 0 && r.reliabilityScore == 0.0
                          && r.idleHours.None?
    ensures arm.Some? ==> r.coldScore == ColdScore(ColdStartFactors(arm.value, c, now), c)
    ensures arm.Some? ==> (r.isColdStart <==> r.coldScore > c.explorationTriggerThreshold)
    ensures arm.Some? ==> r.usageCount == arm.value.activationCount && r.sampleSize == TotalUses(arm.value)
    ensures arm.Some? && TotalUses(arm.value) < MinReliableSamples ==> r.reliabilityScore == 0.0
    ensures r.confidence == 1.0 - r.coldScore
    ensures r.recommendation == (if r.isColdStart then Exploration else Experience)
  {
    match arm
    case None => ColdReport(true, 1.0, 0.0, 0, 0.0, None, 0, Exploration)
    case Some(a) =>
      var f := ColdStartFactors(a, c, now);
      var score := ColdScore(f, c);
      var cold := score > c.explorationTriggerThreshold;
      ColdReport(cold, score, 1.0 - score, f.usageCount, f.reliabilityScore,
                 Some(f.idleHours), f.sampleSize, if cold then Exploration else Experience)
  }

  /** Score and confidence are fractions for normalised weights and a clock that has not run backwards. */
  lemma ColdReportInUnit(arm: Option<Arm>, c: ColdStartConfig, now: real)
    requires WeightsNormalised(c)
    requires arm.Some? ==> now >= arm.value.lastUsed
    ensures 0.0 <= ColdReportFor(arm, c, now).coldScore <= 1.0
    ensures 0.0 <= ColdReportFor(arm, c, now).confidence <= 1.0
  {
    if arm.Some? {
      ColdScoreInUnit(ColdStartFactors(arm.value, c, now), c);
    }
  }

  /** A tool never activated, never used and without outcomes has the maximal cold score 1 under normalised weights. */
  lemma UntriedToolScore(a: Arm, c: ColdStartConfig, now: real)
    requires WeightsNormalised(c)
    requires TotalUses(a) == 0 && a.activationCount == 0 && a.lastUsed <= 0.0
    ensures ColdScore(ColdStartFactors(a, c, now), c) == 1.0
  {
    var f := ColdStartFactors(a, c, now);
    assert f.usageFactor == 1.0 && f.reliabilityFactor == 1.0 && f.recencyFactor == 1.0 && f.sampleFactor == 1.0;
  }

  // ---------------------------------------------------------------------
  // Feedback sources
  // ---------------------------------------------------------------------

  const Retrospection := "retrospection"
  const UserFeedback := "user_feedback"
  const AutoEvaluation := "auto_evaluation"
  const ToolVerification := "tool_verification"

  const TrackedSources: set<string> := {Retrospection, UserFeedback, AutoEvaluation, ToolVerification}

  /** `source_weight_config.get(source, 1.0)`. */
  function SourceWeight(source: string): (w: real)
    ensures 0.6 <= w <= 1.0
    ensures source !in TrackedSources ==> w == 1.0
    ensures source == UserFeedback ==> w == 1.0
  {
    if source == Retrospection then 0.8
    else if source == UserFeedback then 1.0
    else if source == AutoEvaluation then 0.6
    else if source == ToolVerification then 0.9
    else 1.0
  }

  /**
   * `_adjust_reward_by_source`: retrospection adds 0.1 to a weighted
   * successful reward and otherwise never gives less than 0.05; every other
   * source only scales the reward by its weight.
   */
  function AdjustRewardBySource(reward: real, source: string, success: bool): (r: real)
    ensures source == Retrospection && success && reward > 0.0 ==> r == reward * 0.8 + 0.1
    ensures source == Retrospection && !(success && reward > 0.0) ==> r == Max(reward * 0.8, 0.05)
    ensures source == Retrospection ==> r >= 0.05
    ensures source == Retrospection && success && reward > 0.0 ==> r > reward * SourceWeight(source)
    ensures source != Retrospection ==> r == reward * SourceWeight(source)
    ensures source != Retrospection && reward >= 0.0 ==> 0.0 <= r <= reward
    ensures source != Retrospection && reward <= 0.0 ==> reward <= r <= 0.0
  {
    var w := SourceWeight(source);
    if source == Retrospection then
      if success && reward > 0.0 then reward * w + 0.1 else Max(reward * w, 0.05)
    else reward * w
  }

  /** One entry of `feedback_source_tracking`. */
  datatype SourceStats = SourceStats(count: nat, successRate: real, avgReward: real)

  const NoFeedback := SourceStats(0, 0.0, 0.0)

  /** One `_record_feedback_source` step: the count goes up and both means are updated incrementally. */
  function Tracked(s: SourceStats, success: bool, reward: real): (r: SourceStats)
    ensures r.count == s.count + 1
  {
    var n := s.count as real;
    SourceStats(s.count + 1,
                (s.successRate * n + (if success then 1.0 else 0.0)) / (n + 1.0),
                (s.avgReward * n + reward) / (n + 1.0))
  }

  /** The statistics after recording a sequence of (success, reward) events, oldest first. */
  function TrackAll(s: SourceStats, events: seq<(bool, real)>): SourceStats
  {
    if |events| == 0 then s
    else
      var last := events[|events| - 1];
      Tracked(TrackAll(s, events[..|events| - 1]), last.0, last.1)
  }

  function OutcomeFlags(events: seq<(bool, real)>): (bs: seq<bool>)
    ensures |bs| == |events|
  {
    if |events| == 0 then [] else OutcomeFlags(events[..|events| - 1]) + [events[|events| - 1].0]
  }

  function Rewards(events: seq<(bool, real)>): (rs: seq<real>)
    ensures |rs| == |events|
  {
    if |events| == 0 then [] else Rewards(events[..|events| - 1]) + [events[|events| - 1].1]
  }

  /** One incremental-mean step: folding `x` into the mean of `n > 0` values with total `t` gives the mean of `n + 1` values. */
  lemma IncrementalStep(t: real, n: real, x: real)
    requires n > 0.0
    ensures ((t / n) * n + x) / (n + 1.0) == (t + x) / (n + 1.0)
  {
    Quotient(t, n);
  }

  /** `Tracked` on statistics that hold the means of `count > 0` earlier events with totals `c` and `t`. */
  lemma TrackedStep(s: SourceStats, success: bool, reward: real, c: real, t: real)
    requires s.count > 0
    requires s.successRate == c / (s.count as real) && s.avgReward == t / (s.count as real)
    ensures Tracked(s, success, reward).successRate == (c + (if success then 1.0 else 0.0)) / (s.count as real + 1.0)
    ensures Tracked(s, success, reward).avgReward == (t + reward) / (s.count as real + 1.0)
  {
    IncrementalStep(c, s.count as real, if success then 1.0 else 0.0);
    IncrementalStep(t, s.count as real, reward);
  }

  /** The count is the number of events. */
  lemma {:induction false} TrackedCount(events: seq<(bool, real)>)
    ensures TrackAll(NoFeedback, events).count == |events|
  {
    if |events| > 0 {
      TrackedCount(events[..|events| - 1]);
    }
  }

  /** The recorded means are exactly the success fraction and the mean reward of every event so far. */
  lemma {:induction false} TrackedMeansAreMeans(events: seq<(bool, real)>)
    requires |events| > 0
    ensures TrackAll(NoFeedback, events).count == |events|
    ensures TrackAll(NoFeedback, events).successRate == Fraction(OutcomeFlags(events))
    ensures TrackAll(NoFeedback, events).avgReward == Mean(Rewards(events))
  {
    TrackedCount(events);
    var init := events[..|events| - 1];
    var last := events[|events| - 1];
    var bs, rs := OutcomeFlags(events), Rewards(events);
    assert bs[..|bs| - 1] == OutcomeFlags(init);
    assert rs[..|rs| - 1] == Rewards(init);
    var b := if last.0 then 1.0 else 0.0;
    assert CountTrue(bs) as real == CountTrue(OutcomeFlags(init)) as real + b;
    assert Sum(rs) == Sum(Rewards(init)) + last.1;
    var n := |init| as real;
    if |init| == 0 {
      assert TrackAll(NoFeedback, events) == Tracked(NoFeedback, last.0, last.1);
    } else {
      TrackedMeansAreMeans(init);
      var s := TrackAll(NoFeedback, init);
      assert s.count as real == n;
      assert TrackAll(NoFeedback, events) == Tracked(s, last.0, last.1);
      TrackedStep(s, last.0, last.1, CountTrue(OutcomeFlags(init)) as real, Sum(Rewards(init)));
    }
  }
}
