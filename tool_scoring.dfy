/**
 * The tool-selection variants of the converger's three bandit algorithms.
 * They have the shape of the path algorithms with weights of their own:
 * Thompson sampling blends the Beta draw 70/30 with the reward signal and
 * has no usage penalty, the UCB variant blends the success rate 60/40 and
 * adds the plain confidence radius, and epsilon-greedy explores less and
 * blends 50/50.
 *
 * Random draws enter as parameters, as for the paths: `draws[i]` is the
 * Beta sample taken for arm `i`, `u` the uniform draw of epsilon-greedy and
 * `pick` the index a uniform random choice lands on; the UCB radius
 * `sqrt(2 ln T / n)` is the function `confidenceBound(T, n)`.
 */
module ToolScoring {
  import opened Seqs
  import opened DecisionArm
  import opened PathScoring

  /** Beta samples lie in [0, 1]. */
  predicate BetaDraws(draws: seq<real>)
  {
    forall i :: 0 <= i < |draws| ==> 0.0 <= draws[i] <= 1.0
  }

  // ---------------------------------------------------------------------
  // Thompson sampling
  // ---------------------------------------------------------------------

  /** The sampled value of one tool arm: the draw, blended 70/30 with the reward signal when there is a reward history. */
  function ToolThompsonScore(a: Arm, draw: real): (s: real)
    ensures 0.0 <= draw <= 1.0 ==> 0.0 <= s <= 1.0
    ensures |a.rlRewardHistory| == 0 ==> s == draw
  {
    if |a.rlRewardHistory| > 0 then draw * 0.7 + RewardSignal(a) * 0.3 else draw
  }

  function ToolThompsonScores(arms: seq<Arm>, draws: seq<real>): (ss: seq<real>)
    requires |draws| == |arms|
    ensures |ss| == |arms|
    ensures forall i :: 0 <= i < |arms| ==> ss[i] == ToolThompsonScore(arms[i], draws[i])
  {
    seq(|arms|, i requires 0 <= i < |arms| => ToolThompsonScore(arms[i], draws[i]))
  }

  /** `_thompson_sampling_for_tools`: the first arm with the highest sampled value, scanning from a best of -1. */
  method ToolThompsonChoice(arms: seq<Arm>, draws: seq<real>) returns (k: nat)
    requires |arms| > 0 && |draws| == |arms| && BetaDraws(draws)
    ensures IsFirstMax(ToolThompsonScores(arms, draws), k)
  {
    ghost var scores := ToolThompsonScores(arms, draws);
    var best := -1.0;
    k := 0;
    var i := 0;
    while i < |arms|
      invariant 0 <= i <= |arms|
      invariant k <= i && (i == 0 ==> best == -1.0)
      invariant i > 0 ==> k < i && best == scores[k]
      invariant forall j :: 0 <= j < i ==> scores[j] <= best
      invariant forall j :: 0 <= j < k ==> scores[j] < best
    {
      var s := ToolThompsonScore(arms[i], draws[i]);
      if s > best {
        best := s;
        k := i;
      }
      i := i + 1;
    }
  }

  // ---------------------------------------------------------------------
  // UCB variant
  // ---------------------------------------------------------------------

  /** The exploitation part of a tool's UCB value: the success rate, blended 60/40 with the reward signal. */
  function ToolUcbBase(a: Arm): (r: real)
    ensures 0.0 <= r <= 1.0
    ensures |a.rlRewardHistory| == 0 ==> r == SuccessRate(a)
  {
    if |a.rlRewardHistory| > 0 then SuccessRate(a) * 0.6 + RewardSignal(a) * 0.4 else SuccessRate(a)
  }

  function ToolUcbValues(arms: seq<Arm>, confidenceBound: (nat, nat) -> real): (vs: seq<real>)
    ensures |vs| == |arms|
    ensures forall i :: 0 <= i < |arms| ==>
      vs[i] == ToolUcbBase(arms[i]) + confidenceBound(ArmActivations(arms), arms[i].activationCount)
  {
    seq(|arms|, i requires 0 <= i < |arms| =>
      ToolUcbBase(arms[i]) + confidenceBound(ArmActivations(arms), arms[i].activationCount))
  }

  /**
   * `_ucb_variant_for_tools`: a random arm when no arm was ever activated;
   * otherwise the first never-activated arm if there is one, else the first
   * arm with the highest UCB value.
   */
  predicate ToolUcbRule(arms: seq<Arm>, confidenceBound: (nat, nat) -> real, pick: nat, k: nat)
  {
    k < |arms|
    && (ArmActivations(arms) == 0 ==> k == pick)
    && (ArmActivations(arms) > 0 && (exists i :: 0 <= i < |arms| && arms[i].activationCount == 0) ==>
          arms[k].activationCount == 0 && forall j :: 0 <= j < k ==> arms[j].activationCount > 0)
    && ((forall i :: 0 <= i < |arms| ==> arms[i].activationCount > 0) ==>
          IsFirstMax(ToolUcbValues(arms, confidenceBound), k))
  }

  method ToolUcbChoice(arms: seq<Arm>, confidenceBound: (nat, nat) -> real, pick: nat) returns (k: nat)
    requires |arms| > 0 && pick < |arms|
    ensures ToolUcbRule(arms, confidenceBound, pick, k)
  {
    var totalRounds := ArmActivations(arms);
    if totalRounds == 0 {
      return pick;
    }
    ghost var values := ToolUcbValues(arms, confidenceBound);
    var best := 0.0;
    k := 0;
    var i := 0;
    while i < |arms|
      invariant 0 <= i <= |arms|
      invariant forall j :: 0 <= j < i ==> arms[j].activationCount > 0
      invariant k <= i && (i > 0 ==> k < i && best == values[k])
      invariant forall j :: 0 <= j < i ==> values[j] <= best
      invariant forall j :: 0 <= j < k ==> values[j] < best
    {
      if arms[i].activationCount == 0 {
        return i;
      }
      var v := ToolUcbBase(arms[i]) + confidenceBound(totalRounds, arms[i].activationCount);
      if i == 0 || v > best {
        best := v;
        k := i;
      }
      i := i + 1;
    }
  }

  // ---------------------------------------------------------------------
  // Epsilon-greedy
  // ---------------------------------------------------------------------

  /** `max(0.05, 0.3 / (1 + 0.01 * total))`: starts at 0.3 and reaches its floor 0.05 at 500 activations. */
  function ToolExplorationRate(totalActivations: nat): (eps: real)
    ensures 0.05 <= eps <= 0.3
    ensures totalActivations == 0 ==> eps == 0.3
    ensures totalActivations >= 500 ==> eps == 0.05
  {
    var d := 1.0 + (totalActivations as real) * 0.01;
    var q := 0.3 / d;
    assert q * d == 0.3;
    Max(0.05, q)
  }

  /** Tool selection explores less than path selection after the same number of activations. */
  lemma ToolExploresLess(total: nat)
    ensures ToolExplorationRate(total) <= ExplorationRate(total)
  {
    var t := total as real;
    var dTool := 1.0 + t * 0.01;
    var dPath := 1.0 + t * 0.008;
    var qTool := 0.3 / dTool;
    var qPath := 0.4 / dPath;
    assert qTool * dTool == 0.3 && qPath * dPath == 0.4;
    assert 0.3 * dPath <= 0.4 * dTool;
    assert qTool * dTool * dPath <= qPath * dPath * dTool;
  }

  /** The exploitation score of a tool: the success rate blended 50/50 with the reward signal. */
  function ToolExploitScore(a: Arm): (s: real)
    ensures 0.0 <= s <= 1.0
    ensures |a.rlRewardHistory| == 0 ==> s == SuccessRate(a)
  {
    if |a.rlRewardHistory| > 0 then SuccessRate(a) * 0.5 + RewardSignal(a) * 0.5 else SuccessRate(a)
  }

  function ToolExploitScores(arms: seq<Arm>): (ss: seq<real>)
    ensures |ss| == |arms|
    ensures forall i :: 0 <= i < |arms| ==> ss[i] == ToolExploitScore(arms[i])
  {
    seq(|arms|, i requires 0 <= i < |arms| => ToolExploitScore(arms[i]))
  }

  /**
   * `_epsilon_greedy_for_tools`: explores (a random arm) exactly when the
   * uniform draw falls below the tool exploration rate, and otherwise takes
   * the first arm with the highest exploitation score.
   */
  predicate ToolEpsilonRule(arms: seq<Arm>, u: real, pick: nat, k: nat)
  {
    (u < ToolExplorationRate(ArmActivations(arms)) ==> k == pick)
    && (u >= ToolExplorationRate(ArmActivations(arms)) ==> IsFirstMax(ToolExploitScores(arms), k))
  }

  method ToolEpsilonChoice(arms: seq<Arm>, u: real, pick: nat) returns (k: nat)
    requires |arms| > 0 && pick < |arms|
    ensures k < |arms|
    ensures ToolEpsilonRule(arms, u, pick, k)
  {
    var total := ArmActivations(arms);
    if u < ToolExplorationRate(total) {
      return pick;
    }
    ghost var scores := ToolExploitScores(arms);
    var best := 0.0;
    k := 0;
    var i := 0;
    while i < |arms|
      invariant 0 <= i <= |arms|
      invariant k <= i && (i > 0 ==> k < i && best == scores[k])
      invariant forall j :: 0 <= j < i ==> scores[j] <= best
      invariant forall j :: 0 <= j < k ==> scores[j] < best
    {
      var s := ToolExploitScore(arms[i]);
      if i == 0 || s > best {
        best := s;
        k := i;
      }
      i := i + 1;
    }
  }

  // ---------------------------------------------------------------------
  // Dispatch
  // ---------------------------------------------------------------------

  /**
   * How a tool round chooses among the candidate arms: the UCB rule or the
   * epsilon-greedy rule for those names, Thompson sampling for any other
   * name.
   */
  predicate ToolChoiceRule(alg: string, cs: seq<Arm>, draws: seq<real>, u: real, pick: nat,
                           confidenceBound: (nat, nat) -> real, k: nat)
    requires |draws| == |cs|
  {
    k < |cs|
    && (alg == Ucb ==> ToolUcbRule(cs, confidenceBound, pick, k))
    && (alg == EpsilonGreedy ==> ToolEpsilonRule(cs, u, pick, k))
    && (alg != Ucb && alg != EpsilonGreedy ==> IsFirstMax(ToolThompsonScores(cs, draws), k))
  }

  /** A first maximum is unique. */
  lemma FirstMaxUnique(xs: seq<real>, k1: int, k2: int)
    requires IsFirstMax(xs, k1) && IsFirstMax(xs, k2)
    ensures k1 == k2
  {
    assert xs[k1] == xs[k2];
  }

  /** The rule leaves no freedom: given the draws, every algorithm names exactly one candidate. */
  lemma ToolChoiceDeterministic(alg: string, cs: seq<Arm>, draws: seq<real>, u: real, pick: nat,
                                confidenceBound: (nat, nat) -> real, k1: nat, k2: nat)
    requires |draws| == |cs|
    requires ToolChoiceRule(alg, cs, draws, u, pick, confidenceBound, k1)
    requires ToolChoiceRule(alg, cs, draws, u, pick, confidenceBound, k2)
    ensures k1 == k2
  {
    if alg == Ucb {
      if ArmActivations(cs) > 0 {
        if !exists i :: 0 <= i < |cs| && cs[i].activationCount == 0 {
          FirstMaxUnique(ToolUcbValues(cs, confidenceBound), k1, k2);
        }
      }
    } else if alg == EpsilonGreedy {
      if u >= ToolExplorationRate(ArmActivations(cs)) {
        FirstMaxUnique(ToolExploitScores(cs), k1, k2);
      }
    } else {
      FirstMaxUnique(ToolThompsonScores(cs, draws), k1, k2);
    }
  }

  /** The dispatch of `select_best_tool` on the algorithm name; an unknown name falls back to Thompson sampling. */
  method RunToolAlgorithm(alg: string, cs: seq<Arm>, draws: seq<real>, u: real, pick: nat,
                          confidenceBound: (nat, nat) -> real) returns (k: nat)
    requires |cs| > 0 && |draws| == |cs| && pick < |cs| && BetaDraws(draws)
    ensures ToolChoiceRule(alg, cs, draws, u, pick, confidenceBound, k)
  {
    if alg == Ucb {
      k := ToolUcbChoice(cs, confidenceBound, pick);
    } else if alg == EpsilonGreedy {
      k := ToolEpsilonChoice(cs, u, pick);
    } else {
      k := ToolThompsonChoice(cs, draws);
    }
  }
}
