/**
 * The main controller's bookkeeping around a decision: the reward the idea
 * verification step feeds back, the Aha-Moment counters and trigger, the
 * running-mean timing statistics, and the text preparation of an idea before
 * it is searched for.
 */
module Controller {
  import opened Outcomes
  import opened Seqs
  import opened Text
  import opened PathScoring
  import opened PathConverger

  // ---------------------------------------------------------------------
  // Verification reward
  // ---------------------------------------------------------------------

  /** The base reward of a feasibility score: steep outside (0.3, 0.7), flat inside. */
  function BaseReward(feasibility: real): real
  {
    if feasibility >= 0.7 then (feasibility - 0.5) * 2.0
    else if feasibility <= 0.3 then (feasibility - 0.5) * 2.0
    else (feasibility - 0.5) * 0.5
  }

  /**
   * `_calculate_verification_reward`: the base reward scaled by
   * `0.5 + 0.5 * confidence`, less `0.2 * risk`, clamped to [-1, 1].
   */
  function VerificationReward(feasibility: real, confidence: real, risk: real): (r: real)
    ensures -1.0 <= r <= 1.0
  {
    Clamp(BaseReward(feasibility) * (0.5 + confidence * 0.5) - risk * 0.2, -1.0, 1.0)
  }

  /** For scores in [0, 1] the three bands give rewards in [0.4, 1], [-1, -0.4] and [-0.1, 0.1]. */
  lemma BaseRewardBands(feasibility: real)
    requires 0.0 <= feasibility <= 1.0
    ensures feasibility >= 0.7 ==> 0.4 <= BaseReward(feasibility) <= 1.0
    ensures feasibility <= 0.3 ==> -1.0 <= BaseReward(feasibility) <= -0.4
    ensures 0.3 < feasibility < 0.7 ==> -0.1 < BaseReward(feasibility) < 0.1
  {
  }

  /** A more feasible idea never gets a smaller base reward. */
  lemma BaseRewardMonotone(f1: real, f2: real)
    requires f1 <= f2
    ensures BaseReward(f1) <= BaseReward(f2)
  {
  }

  /**
   * With confidence and risk in [0, 1], an idea of feasibility at least 0.7
   * and no risk is rewarded, and one of feasibility at most 0.3 is punished.
   */
  lemma VerificationRewardSign(feasibility: real, confidence: real, risk: real)
    requires 0.0 <= feasibility <= 1.0 && 0.0 <= confidence <= 1.0 && 0.0 <= risk <= 1.0
    ensures feasibility >= 0.7 && risk == 0.0 ==> VerificationReward(feasibility, confidence, risk) >= 0.2
    ensures feasibility <= 0.3 ==> VerificationReward(feasibility, confidence, risk) <= -0.2
  {
    BaseRewardBands(feasibility);
    var m := 0.5 + confidence * 0.5;
    assert 0.5 <= m <= 1.0;
    var b := BaseReward(feasibility);
    if feasibility >= 0.7 {
      ProductAtLeast(b, 0.4, m, 0.5);
    }
    if feasibility <= 0.3 {
      ProductAtLeast(-b, 0.4, m, 0.5);
    }
  }

  lemma ProductAtLeast(x: real, lo: real, y: real, ylo: real)
    requires 0.0 <= lo <= x && 0.0 <= ylo <= y
    ensures x * y >= lo * ylo
  {
    assert x * y - lo * ylo == (x - lo) * y + lo * (y - ylo);
  }

  // ---------------------------------------------------------------------
  // Running means
  // ---------------------------------------------------------------------

  /** The moving-average update: `(avg * (n - 1) + x) / n` for the `n`-th value. */
  function RunningMean(avg: real, n: nat, x: real): real
    requires n >= 1
  {
    (avg * ((n - 1) as real) + x) / (n as real)
  }

  /** The average the updates reach after feeding in `xs` one by one from 0. */
  function FoldedMean(xs: seq<real>): real
  {
    if |xs| == 0 then 0.0 else RunningMean(FoldedMean(xs[..|xs| - 1]), |xs|, xs[|xs| - 1])
  }

  /** Feeding values one at a time keeps the exact arithmetic mean of all of them. */
  lemma {:induction false} FoldedMeanIsMean(xs: seq<real>)
    requires |xs| > 0
    ensures FoldedMean(xs) == Mean(xs)
  {
    var init := xs[..|xs| - 1];
    var x := xs[|xs| - 1];
    assert init + [x] == xs;
    SumAppend(init, x);
    if |init| == 0 {
      assert Sum(xs) == x;
    } else {
      FoldedMeanIsMean(init);
      var n := |init| as real;
      assert FoldedMean(init) * n == Sum(init);
    }
  }

  /** The call count and average time of one component. */
  datatype ComponentStats = ComponentStats(calls: nat, avgTime: real)

  /** The four components whose timings the controller tracks. */
  const TrackedComponents: set<string> := {"prior_reasoner", "path_generator", "mab_converger", "idea_verification"}

  // ---------------------------------------------------------------------
  // Text preparation
  // ---------------------------------------------------------------------

  const MaxIdeaLength: nat := 200

  /** `_preprocess_idea_text`: strip, then cut to 200 characters followed by "..." when longer. */
  function PreprocessIdeaText(idea: string): (r: string)
    ensures |r| <= MaxIdeaLength + 3
    ensures |Strip(idea)| <= MaxIdeaLength ==> r == Strip(idea)
    ensures |Strip(idea)| > MaxIdeaLength ==>
      |r| == MaxIdeaLength + 3 && r[..MaxIdeaLength] == Strip(idea)[..MaxIdeaLength] && r[MaxIdeaLength..] == "..."
  {
    var cleaned := Strip(idea);
    if |cleaned| > MaxIdeaLength then cleaned[..MaxIdeaLength] + "..." else cleaned
  }

  /** Preparing an already prepared short text changes nothing. */
  lemma PreprocessShortIdempotent(idea: string)
    requires |Strip(idea)| <= MaxIdeaLength
    ensures PreprocessIdeaText(PreprocessIdeaText(idea)) == PreprocessIdeaText(idea)
  {
    var s := Strip(idea);
    StripStripped(s);
  }

  /** A text with no surrounding white space is its own strip. */
  lemma StripStripped(s: string)
    requires |s| > 0 ==> !IsSpace(s[0]) && !IsSpace(s[|s| - 1])
    ensures Strip(s) == s
  {
  }

  /** The terms `_extract_technical_concepts` looks for, in its order. */
  const TechTerms: seq<string> := [
    "API", "api", "算法", "数据库", "系统", "架构", "优化",
    "机器学习", "ML", "AI", "人工智能", "深度学习",
    "网络", "爬虫", "数据分析", "实时", "性能", "安全",
    "并发", "分布式", "微服务", "容器", "云计算", "区块链",
    "Python", "Java", "JavaScript", "React", "Node.js"]

  const MaxConcepts: nat := 3

  /** The terms of `terms` that occur in the text, compared in lower case, in list order. */
  function MentionedTerms(terms: seq<string>, loweredText: string): (r: seq<string>)
    ensures |r| <= |terms|
    ensures forall t :: t in r ==> t in terms && Contains(loweredText, Lower(t))
    ensures forall t :: t in terms && Contains(loweredText, Lower(t)) ==> t in r
  {
    if |terms| == 0 then []
    else
      var rest := MentionedTerms(terms[..|terms| - 1], loweredText);
      var t := terms[|terms| - 1];
      if Contains(loweredText, Lower(t)) then rest + [t] else rest
  }

  /** At most three concepts, each one of `terms` that the lowered text mentions, the earliest listed first. */
  function ConceptsAmong(terms: seq<string>, lowered: string): (r: seq<string>)
    ensures |r| <= MaxConcepts
    ensures forall t :: t in r ==> t in terms && Contains(lowered, Lower(t))
    ensures |MentionedTerms(terms, lowered)| <= MaxConcepts ==> r == MentionedTerms(terms, lowered)
  {
    var all := MentionedTerms(terms, lowered);
    var r := FirstN(all, MaxConcepts);
    assert forall t :: t in r ==> t in all;
    r
  }

  /** The concepts `_extract_technical_concepts` reports for a text. */
  function TechConcepts(text: string): (r: seq<string>)
    ensures |r| <= MaxConcepts
    ensures forall t :: t in r ==> t in TechTerms && Contains(Lower(text), Lower(t))
  {
    ConceptsAmong(TechTerms, Lower(text))
  }

  /** `_extract_technical_concepts`: the scan over the terms, then the first three found. */
  method ExtractTechnicalConcepts(text: string) returns (found: seq<string>)
    ensures found == TechConcepts(text)
  {
    found := FirstConcepts(TechTerms, Lower(text));
  }

  /** The scan followed by the cut to the first three. */
  method FirstConcepts(terms: seq<string>, lowered: string) returns (found: seq<string>)
    ensures found == ConceptsAmong(terms, lowered)
  {
    var all := ScanTerms(terms, lowered);
    found := if |all| <= MaxConcepts then all else all[..MaxConcepts];
  }

  /** The scan of `_extract_technical_concepts`: every term the lowered text mentions, in list order. */
  method ScanTerms(terms: seq<string>, lowered: string) returns (all: seq<string>)
    ensures all == MentionedTerms(terms, lowered)
  {
    all := [];
    var i := 0;
    while i < |terms|
      invariant Scanning(terms, lowered, i, all)
      decreases |terms| - i
    {
      var next := if Contains(lowered, Lower(terms[i])) then all + [terms[i]] else all;
      ScanningStep(terms, lowered, i, all);
      all, i := next, i + 1;
    }
    ScanningDone(terms, lowered, i, all);
  }

  /** The scan has looked at the first `i` terms and kept those mentioned. */
  ghost predicate Scanning(terms: seq<string>, lowered: string, i: int, all: seq<string>)
  {
    0 <= i <= |terms| && all == MentionedTerms(terms[..i], lowered)
  }

  /** One more term scanned appends it exactly when the text mentions it. */
  lemma ScanningStep(terms: seq<string>, lowered: string, i: int, all: seq<string>)
    requires Scanning(terms, lowered, i, all) && i < |terms|
    ensures Scanning(terms, lowered, i + 1, if Contains(lowered, Lower(terms[i])) then all + [terms[i]] else all)
  {
    assert terms[..i + 1][..i] == terms[..i];
  }

  lemma ScanningDone(terms: seq<string>, lowered: string, i: int, all: seq<string>)
    requires Scanning(terms, lowered, i, all) && i >= |terms|
    ensures all == MentionedTerms(terms, lowered)
  {
    assert terms[..|terms|] == terms;
  }

  // ---------------------------------------------------------------------
  // Aha-Moment trigger
  // ---------------------------------------------------------------------

  /** A past decision as the failure count sees it; `executionSuccess` is absent until feedback arrives. */
  datatype DecisionRecord = DecisionRecord(timestamp: real, executionSuccess: Option<bool>)

  /** An Aha-Moment record; `success` is false when the record carries no success mark. */
  datatype AhaRecord = AhaRecord(timestamp: real, success: bool)

  /** Why the trigger fired, tried in this order, or `Normal` when it did not. */
  datatype AhaReason =
    | LowPathConfidence(confidence: real)
    | AllPathsLowConfidence
    | TooManyConsecutiveFailures(failures: nat)
    | FailureBurst(recent: nat)
    | Normal

  const RecentFailureWindow: real := 300.0
  const RecentFailureLimit: nat := 3

  function IsFailure(d: DecisionRecord): nat
  {
    if d.executionSuccess == Some(false) then 1 else 0
  }

  /**
   * `_count_recent_failures`: walking from the newest decision back, the
   * decisions marked as failed, stopping at the first one older than the window.
   */
  function RecentFailures(history: seq<DecisionRecord>, now: real, window: real): (n: nat)
    ensures n <= |history|
  {
    if |history| == 0 then 0
    else
      var last := history[|history| - 1];
      if now - last.timestamp > window then 0
      else RecentFailures(history[..|history| - 1], now, window) + IsFailure(last)
  }

  /** The failures of the decisions marked failed, without regard to time. */
  function CountFailures(history: seq<DecisionRecord>): nat
  {
    if |history| == 0 then 0 else CountFailures(history[..|history| - 1]) + IsFailure(history[|history| - 1])
  }

  /** Within the window the count is every marked failure; a decision just added outside it resets the count. */
  lemma {:induction false} RecentFailuresWithinWindow(history: seq<DecisionRecord>, now: real, window: real)
    requires forall i :: 0 <= i < |history| ==> now - history[i].timestamp <= window
    ensures RecentFailures(history, now, window) == CountFailures(history)
  {
    if |history| > 0 {
      RecentFailuresWithinWindow(history[..|history| - 1], now, window);
    }
  }

  /** The loop of `_count_recent_failures`, newest first with an early exit. */
  method CountRecentFailures(history: seq<DecisionRecord>, now: real, window: real) returns (n: nat)
    ensures n == RecentFailures(history, now, window)
  {
    n := 0;
    var i := |history|;
    assert history[..i] == history;
    while i > 0 && now - history[i - 1].timestamp <= window
      invariant 0 <= i <= |history|
      invariant RecentFailures(history, now, window) == RecentFailures(history[..i], now, window) + n
      decreases i
    {
      assert history[..i][..i - 1] == history[..i - 1];
      n := n + IsFailure(history[i - 1]);
      i := i - 1;
    }
    if i > 0 {
      assert history[..i][..i - 1] == history[..i - 1];
    }
  }

  /**
   * `_check_aha_moment_trigger` with its four conditions in order: the chosen
   * path's confidence below the threshold, every path below it, the
   * consecutive failures at the limit, or three failures in the recent window.
   */
  function AhaTrigger(pathConfidence: real, allLow: bool, consecutiveFailures: nat, failureThreshold: nat,
                      confidenceThreshold: real, recentFailures: nat): (r: AhaReason)
    ensures r == Normal <==>
      pathConfidence >= confidenceThreshold && !allLow && consecutiveFailures < failureThreshold
      && recentFailures < RecentFailureLimit
    ensures consecutiveFailures >= failureThreshold ==> r != Normal
  {
    if pathConfidence < confidenceThreshold then LowPathConfidence(pathConfidence)
    else if allLow then AllPathsLowConfidence
    else if consecutiveFailures >= failureThreshold then TooManyConsecutiveFailures(consecutiveFailures)
    else if recentFailures >= RecentFailureLimit then FailureBurst(recentFailures)
    else Normal
  }

  /** Later conditions only decide when the earlier ones do not fire. */
  lemma AhaTriggerOrder(pathConfidence: real, allLow: bool, consecutiveFailures: nat, failureThreshold: nat,
                        confidenceThreshold: real, recentFailures: nat)
    ensures var r := AhaTrigger(pathConfidence, allLow, consecutiveFailures, failureThreshold,
                                confidenceThreshold, recentFailures);
            (r.TooManyConsecutiveFailures? ==> pathConfidence >= confidenceThreshold && !allLow)
            && (r.FailureBurst? ==> consecutiveFailures < failureThreshold && r.recent >= RecentFailureLimit)
            && (pathConfidence < confidenceThreshold ==> r == LowPathConfidence(pathConfidence))
  {
  }

  // ---------------------------------------------------------------------
  // The controller's statistics
  // ---------------------------------------------------------------------

  const FailureThreshold: nat := 3
  const ConfidenceThreshold: real := 0.3
  const AhaHistoryLimit: nat := 100
  const AhaHistoryKeep: nat := 50

  /** The share of Aha-Moment records marked successful. */
  function AhaSuccesses(h: seq<AhaRecord>): (n: nat)
    ensures n <= |h|
  {
    if |h| == 0 then 0 else AhaSuccesses(h[..|h| - 1]) + (if h[|h| - 1].success then 1 else 0)
  }

  /** The recomputed Aha success rate is a share between 0 and 1. */
  lemma SuccessRateInUnit(h: seq<AhaRecord>)
    requires |h| > 0
    ensures 0.0 <= (AhaSuccesses(h) as real) / (|h| as real) <= 1.0
  {
    RatioInUnit(AhaSuccesses(h), |h|);
  }

  /** The statistics dictionaries of `MainController` that decisions and feedback update in place. */
  class MainController {
    var consecutiveFailures: nat
    var lastFailureTimestamp: Option<real>
    var totalAhaMoments: nat
    var ahaSuccessRate: real
    var lastDecisionSuccess: bool
    var failureThreshold: nat
    var confidenceThreshold: real
    var ahaHistory: seq<AhaRecord>
    var decisionHistory: seq<DecisionRecord>
    var components: map<string, ComponentStats>
    var totalDecisions: nat
    var avgDecisionTime: real

    ghost predicate Invariant()
      reads this
    {
      components.Keys == TrackedComponents && 0.0 <= ahaSuccessRate <= 1.0
    }

    /** The statistics as the constructor means to set them up: 3 failures, 0.3 confidence. */
    constructor ()
      ensures Invariant()
      ensures consecutiveFailures == 0 && lastFailureTimestamp == None && totalAhaMoments == 0
      ensures ahaSuccessRate == 0.0 && lastDecisionSuccess
      ensures failureThreshold == FailureThreshold && confidenceThreshold == ConfidenceThreshold
      ensures ahaHistory == [] && decisionHistory == [] && totalDecisions == 0 && avgDecisionTime == 0.0
      ensures forall c :: c in components ==> components[c] == ComponentStats(0, 0.0)
    {
      consecutiveFailures, lastFailureTimestamp, totalAhaMoments := 0, None, 0;
      ahaSuccessRate, lastDecisionSuccess := 0.0, true;
      failureThreshold, confidenceThreshold := FailureThreshold, ConfidenceThreshold;
      ahaHistory, decisionHistory := [], [];
      components := map c | c in TrackedComponents :: ComponentStats(0, 0.0);
      totalDecisions, avgDecisionTime := 0, 0.0;
    }

    /**
     * `update_aha_moment_feedback`: success clears the consecutive-failure
     * count, failure adds one and records the time; the Aha success rate is
     * recomputed from the records when there are any.
     */
    method UpdateAhaMomentFeedback(success: bool, now: real)
      requires Invariant()
      modifies `consecutiveFailures, `lastDecisionSuccess, `lastFailureTimestamp, `ahaSuccessRate
      ensures Invariant()
      ensures success ==> consecutiveFailures == 0 && lastFailureTimestamp == old(lastFailureTimestamp)
      ensures !success ==> consecutiveFailures == old(consecutiveFailures) + 1 && lastFailureTimestamp == Some(now)
      ensures lastDecisionSuccess == success
      ensures |ahaHistory| > 0 ==> ahaSuccessRate == (AhaSuccesses(ahaHistory) as real) / (|ahaHistory| as real)
      ensures |ahaHistory| == 0 ==> ahaSuccessRate == old(ahaSuccessRate)
    {
      if success {
        consecutiveFailures := 0;
        lastDecisionSuccess := true;
      } else {
        consecutiveFailures := consecutiveFailures + 1;
        lastDecisionSuccess := false;
        lastFailureTimestamp := Some(now);
      }
      if |ahaHistory| > 0 {
        SuccessRateInUnit(ahaHistory);
        ahaSuccessRate := (AhaSuccesses(ahaHistory) as real) / (|ahaHistory| as real);
      }
    }

    /** The record keeping of an Aha-Moment: one more moment, the record appended, over 100 records keep the last 50. */
    method RecordAhaMoment(record: AhaRecord)
      modifies `totalAhaMoments, `ahaHistory
      ensures totalAhaMoments == old(totalAhaMoments) + 1
      ensures |ahaHistory| <= AhaHistoryLimit || |ahaHistory| == |old(ahaHistory)| + 1
      ensures |ahaHistory| > 0 && ahaHistory[|ahaHistory| - 1] == record
      ensures |old(ahaHistory)| < AhaHistoryLimit ==> ahaHistory == old(ahaHistory) + [record]
      ensures |old(ahaHistory)| == AhaHistoryLimit ==> ahaHistory == (old(ahaHistory) + [record])[AhaHistoryKeep + 1..]
    {
      totalAhaMoments := totalAhaMoments + 1;
      var h := ahaHistory + [record];
      if |h| > AhaHistoryLimit {
        h := h[|h| - AhaHistoryKeep..];
      }
      ahaHistory := h;
    }

    /**
     * `_check_aha_moment_trigger` for the chosen path: its confidence (which
     * creates its arm when missing), the all-low scenario at the controller's
     * threshold, the consecutive failures and the recent failure burst.
     */
    method CheckAhaMomentTrigger(mab: MabConverger, strategyId: string, now: real) returns (fire: bool, reason: AhaReason)
      requires mab.Invariant()
      modifies mab`arms
      ensures mab.Invariant()
      ensures strategyId in mab.arms.m
      ensures reason == AhaTrigger(PathConfidence(mab.arms.m[strategyId]), mab.LowConfidence(confidenceThreshold),
                                   consecutiveFailures, failureThreshold, confidenceThreshold,
                                   RecentFailures(decisionHistory, now, RecentFailureWindow))
      ensures fire <==> reason != Normal
    {
      var c := mab.GetPathConfidence(strategyId);
      var allLow := mab.LowConfidence(confidenceThreshold);
      var recent := CountRecentFailures(decisionHistory, now, RecentFailureWindow);
      reason := AhaTrigger(c, allLow, consecutiveFailures, failureThreshold, confidenceThreshold, recent);
      fire := reason != Normal;
    }

    /** `_update_component_performance` for one of the tracked components. */
    method UpdateComponentPerformance(name: string, executionTime: real)
      requires Invariant() && name in TrackedComponents
      modifies `components
      ensures Invariant()
      ensures var s := old(components)[name];
              components == old(components)[name := ComponentStats(s.calls + 1, RunningMean(s.avgTime, s.calls + 1, executionTime))]
    {
      var s := components[name];
      components := components[name := ComponentStats(s.calls + 1, RunningMean(s.avgTime, s.calls + 1, executionTime))];
    }

    /** One more decision and its time: `total_decisions += 1`, then `_update_avg_decision_time`. */
    method RecordDecisionTime(decisionTime: real)
      modifies `totalDecisions, `avgDecisionTime
      ensures totalDecisions == old(totalDecisions) + 1
      ensures avgDecisionTime == RunningMean(old(avgDecisionTime), totalDecisions, decisionTime)
    {
      totalDecisions := totalDecisions + 1;
      if totalDecisions == 1 {
        avgDecisionTime := decisionTime;
      } else {
        avgDecisionTime := (avgDecisionTime * ((totalDecisions - 1) as real) + decisionTime) / (totalDecisions as real);
      }
    }

    /** `update_performance_feedback`'s mark on the newest decision, used by the failure count. */
    method MarkLastDecision(executionSuccess: bool)
      modifies `decisionHistory
      ensures |decisionHistory| == |old(decisionHistory)|
      ensures |decisionHistory| > 0 ==>
        decisionHistory == old(decisionHistory)[|decisionHistory| - 1 := old(decisionHistory)[|decisionHistory| - 1].(executionSuccess := Some(executionSuccess))]
      ensures |decisionHistory| == 0 ==> decisionHistory == old(decisionHistory)
    {
      if |decisionHistory| > 0 {
        var last := decisionHistory[|decisionHistory| - 1];
        decisionHistory := decisionHistory[|decisionHistory| - 1 := last.(executionSuccess := Some(executionSuccess))];
      }
    }
  }

  /** The first decision's time is the average; `_update_avg_decision_time`'s special case agrees with the formula. */
  lemma FirstDecisionTime(avg: real, t: real)
    ensures RunningMean(avg, 1, t) == t
  {
  }

  /** A run of failures starting from zero reaches the threshold after exactly three failures. */
  lemma ThirdFailureTriggers(pathConfidence: real, confidenceThreshold: real, recent: nat)
    requires pathConfidence >= confidenceThreshold && recent < RecentFailureLimit
    ensures AhaTrigger(pathConfidence, false, 2, FailureThreshold, confidenceThreshold, recent) == Normal
    ensures AhaTrigger(pathConfidence, false, 3, FailureThreshold, confidenceThreshold, recent) == TooManyConsecutiveFailures(3)
  {
  }
}
