/**
 * Reasoning paths and the per-strategy decision arm that tracks how a
 * path performs: success and failure counts, total reward and three
 * bounded histories.
 */
module DecisionArm {
  import opened Seqs

  /** A reasoning path; `strategyId` keys the learning arm, `instanceId` one proposal of it. */
  datatype ReasoningPath = ReasoningPath(
    pathId: string,
    pathType: string,
    description: string,
    promptTemplate: string,
    strategyId: string,
    instanceId: string)

  /** Construction with the post-initialisation fallback: an empty id becomes the path id. */
  function MakeReasoningPath(pathId: string, pathType: string, description: string,
                             promptTemplate: string, strategyId: string, instanceId: string): (p: ReasoningPath)
    ensures p.pathId == pathId && p.pathType == pathType
    ensures p.description == description && p.promptTemplate == promptTemplate
    ensures p.strategyId == (if strategyId == "" then pathId else strategyId)
    ensures p.instanceId == (if instanceId == "" then pathId else instanceId)
    ensures pathId != "" ==> p.strategyId != "" && p.instanceId != ""
  {
    ReasoningPath(pathId, pathType, description, promptTemplate,
                  if strategyId == "" then pathId else strategyId,
                  if instanceId == "" then pathId else instanceId)
  }

  /** Running the fallback again on a constructed path changes nothing. */
  lemma MakeReasoningPathIdempotent(pathId: string, pathType: string, description: string,
                                    promptTemplate: string, strategyId: string, instanceId: string)
    ensures var p := MakeReasoningPath(pathId, pathType, description, promptTemplate, strategyId, instanceId);
            MakeReasoningPath(p.pathId, p.pathType, p.description, p.promptTemplate, p.strategyId, p.instanceId) == p
  {
  }

  const RecentRewardsLimit: nat := 20
  const RecentRewardsKeep: nat := 10
  const HistoryLimit: nat := 50
  const HistoryKeep: nat := 25

  /** The value of an arm: every field of `EnhancedDecisionArm`. */
  datatype Arm = Arm(
    pathId: string,
    option: string,
    successCount: nat,
    failureCount: nat,
    totalReward: real,
    recentRewards: seq<real>,
    rlRewardHistory: seq<real>,
    recentResults: seq<bool>,
    activationCount: nat,
    lastUsed: real)

  /** A fresh arm with all counters at zero and empty histories. */
  function NewArm(pathId: string, option: string): Arm
  {
    Arm(pathId, option, 0, 0, 0.0, [], [], [], 0, 0.0)
  }

  /** `update_performance` as a function of the arm before the call. */
  function Updated(a: Arm, success: bool, reward: real, now: real): (b: Arm)
    ensures b.pathId == a.pathId && b.option == a.option
    ensures success ==> b.successCount == a.successCount + 1 && b.failureCount == a.failureCount
    ensures !success ==> b.failureCount == a.failureCount + 1 && b.successCount == a.successCount
    ensures TotalUses(b) == TotalUses(a) + 1
    ensures b.totalReward == a.totalReward + reward
    ensures b.activationCount == a.activationCount + 1
    ensures b.lastUsed == now
    // the new values are the last entries of the histories
    ensures |b.recentRewards| > 0 && b.recentRewards[|b.recentRewards| - 1] == reward
    ensures |b.rlRewardHistory| > 0 && b.rlRewardHistory[|b.rlRewardHistory| - 1] == reward
    ensures |b.recentResults| > 0 && b.recentResults[|b.recentResults| - 1] == success
    // histories stay bounded whatever their length before
    ensures |b.recentRewards| <= RecentRewardsLimit
    ensures |b.rlRewardHistory| <= HistoryLimit && |b.recentResults| <= HistoryLimit
    ensures |a.recentRewards| == RecentRewardsLimit ==> |b.recentRewards| == RecentRewardsKeep
  {
    var rewards := a.recentRewards + [reward];
    var rl := a.rlRewardHistory + [reward];
    var results := a.recentResults + [success];
    Arm(a.pathId, a.option,
        if success then a.successCount + 1 else a.successCount,
        if success then a.failureCount else a.failureCount + 1,
        a.totalReward + reward,
        Bounded(rewards, RecentRewardsLimit, RecentRewardsKeep),
        Bounded(rl, HistoryLimit, HistoryKeep),
        Bounded(results, HistoryLimit, HistoryKeep),
        a.activationCount + 1,
        now)
  }

  /** `total_uses`. */
  function TotalUses(a: Arm): nat
  {
    a.successCount + a.failureCount
  }

  /** `success_rate`: successes over `max(total, 1)`. */
  function SuccessRate(a: Arm): (r: real)
    ensures 0.0 <= r <= 1.0
    ensures TotalUses(a) == 0 ==> r == 0.0
    ensures TotalUses(a) > 0 ==> r * (TotalUses(a) as real) == a.successCount as real
    ensures r == 1.0 <==> TotalUses(a) > 0 && a.failureCount == 0
  {
    var total := TotalUses(a);
    (a.successCount as real) / (if total >= 1 then total else 1) as real
  }

  /** `average_reward`: the mean of the recent rewards, 0 when there are none. */
  function AverageReward(a: Arm): (r: real)
    ensures |a.recentRewards| == 0 ==> r == 0.0
    ensures |a.recentRewards| > 0 ==> r * (|a.recentRewards| as real) == Sum(a.recentRewards)
  {
    if |a.recentRewards| == 0 then 0.0 else Mean(a.recentRewards)
  }

  /** Rewards within [lo, hi] give an average within [lo, hi] (or 0 when there are none). */
  lemma AverageRewardBounds(a: Arm, lo: real, hi: real)
    requires |a.recentRewards| > 0
    requires forall i :: 0 <= i < |a.recentRewards| ==> lo <= a.recentRewards[i] <= hi
    ensures lo <= AverageReward(a) <= hi
  {
    MeanBounds(a.recentRewards, lo, hi);
  }

  /** The arm as an object whose fields `update_performance` changes in place. */
  class EnhancedDecisionArm {
    var pathId: string
    var option: string
    var successCount: nat
    var failureCount: nat
    var totalReward: real
    var recentRewards: seq<real>
    var rlRewardHistory: seq<real>
    var recentResults: seq<bool>
    var activationCount: nat
    var lastUsed: real

    function Value(): Arm
      reads this
    {
      Arm(pathId, option, successCount, failureCount, totalReward,
          recentRewards, rlRewardHistory, recentResults, activationCount, lastUsed)
    }

    constructor (pathId: string, option: string)
      ensures Value() == NewArm(pathId, option)
    {
      this.pathId := pathId;
      this.option := option;
      successCount, failureCount, totalReward := 0, 0, 0.0;
      recentRewards, rlRewardHistory, recentResults := [], [], [];
      activationCount, lastUsed := 0, 0.0;
    }

    /** Records one outcome; `now` stands for the clock reading. */
    method UpdatePerformance(success: bool, reward: real, now: real)
      modifies `successCount, `failureCount, `totalReward, `recentRewards, `rlRewardHistory,
        `recentResults, `activationCount, `lastUsed
      ensures Value() == Updated(old(Value()), success, reward, now)
    {
      ghost var before := Value();
      var rewards := Trimmed(recentRewards + [reward], RecentRewardsLimit, RecentRewardsKeep);
      var rl := Trimmed(rlRewardHistory + [reward], HistoryLimit, HistoryKeep);
      var results := Trimmed(recentResults + [success], HistoryLimit, HistoryKeep);
      if success {
        successCount := successCount + 1;
      } else {
        failureCount := failureCount + 1;
      }
      totalReward := totalReward + reward;
      recentRewards, rlRewardHistory, recentResults := rewards, rl, results;
      activationCount := activationCount + 1;
      lastUsed := now;
      assert Value() == Updated(before, success, reward, now);
    }
  }
}
