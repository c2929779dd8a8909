/**
 * The path converger (`MABConverger`): one learning arm per strategy id,
 * the selection round that first looks for a golden template and otherwise
 * runs one of three bandit algorithms, the performance update that may
 * promote a strategy to a golden template, and the template store.
 *
 * Clock readings enter as `now`; the random inputs of a selection round
 * (Beta draws, the epsilon-greedy uniform draw and the index of a uniform
 * random choice) enter as `draws`, `u` and `pick`, and the UCB radius as
 * `confidenceBound`.
 */
module PathConverger {
  import opened Outcomes
  import opened Seqs
  import opened OrderedMaps
  import opened DecisionArm
  import opened PathScoring
  import opened GoldenTemplates

  /** The `{'successes', 'total'}` record kept per algorithm. */
  datatype AlgorithmStats = AlgorithmStats(successes: nat, total: nat)

  /** One entry of `path_selection_history`. */
  datatype SelectionRecord = SelectionRecord(pathId: string, pathType: string, algorithm: string,
                                             timestamp: real, round: nat)

  /** One entry of `template_match_history`. */
  datatype MatchRecord = MatchRecord(templateId: string, pathId: string, pathType: string, score: real,
                                     timestamp: real, round: nat)

  // ---------------------------------------------------------------------
  // Arms
  // ---------------------------------------------------------------------

  /** The arm table is a well-formed dictionary and every arm carries its own key as path id. */
  predicate ArmsKeyed(d: ODict<Arm>)
  {
    Valid(d) && forall k :: k in d.m ==> d.m[k].pathId == k
  }

  /** `_create_strategy_arm_if_missing` on the arm table: a new arm only for a new id. */
  function EnsureArm(d: ODict<Arm>, id: string, pathType: string): (r: ODict<Arm>)
    requires ArmsKeyed(d)
    ensures ArmsKeyed(r)
    ensures r.m.Keys == d.m.Keys + {id}
    ensures forall k :: k in d.m ==> r.m[k] == d.m[k]
    ensures id !in d.m ==> r.m[id] == NewArm(id, pathType)
    ensures Size(r) == if id in d.m then Size(d) else Size(d) + 1
  {
    if id in d.m then d else Put(d, id, NewArm(id, pathType))
  }

  /** The strategy ids of a list of paths. */
  function StrategyIds(paths: seq<ReasoningPath>): set<string>
  {
    set i | 0 <= i < |paths| :: paths[i].strategyId
  }

  lemma StrategyIdsStep(paths: seq<ReasoningPath>)
    requires |paths| > 0
    ensures StrategyIds(paths) == StrategyIds(paths[..|paths| - 1]) + {paths[|paths| - 1].strategyId}
  {
    var init := paths[..|paths| - 1];
    forall id | id in StrategyIds(paths)
      ensures id in StrategyIds(init) + {paths[|paths| - 1].strategyId}
    {
      var i :| 0 <= i < |paths| && paths[i].strategyId == id;
      if i < |paths| - 1 {
        assert init[i] == paths[i];
      }
    }
    forall id | id in StrategyIds(init) ensures id in StrategyIds(paths) {
      var i :| 0 <= i < |init| && init[i].strategyId == id;
      assert paths[i] == init[i];
    }
  }

  /**
   * The arm table after the creation loop of a selection round: every
   * strategy of the list has an arm, and arms that existed are untouched.
   */
  function EnsureArms(d: ODict<Arm>, paths: seq<ReasoningPath>): (r: ODict<Arm>)
    requires ArmsKeyed(d)
    ensures ArmsKeyed(r)
  {
    if |paths| == 0 then d
    else
      var p := paths[|paths| - 1];
      EnsureArm(EnsureArms(d, paths[..|paths| - 1]), p.strategyId, p.pathType)
  }

  /** After `EnsureArms` every strategy of the list has an arm, no other key is added and old arms are kept. */
  lemma {:induction false} EnsureArmsCovers(d: ODict<Arm>, paths: seq<ReasoningPath>)
    requires ArmsKeyed(d)
    ensures EnsureArms(d, paths).m.Keys == d.m.Keys + StrategyIds(paths)
    ensures forall k :: k in d.m ==> EnsureArms(d, paths).m[k] == d.m[k]
  {
    if |paths| > 0 {
      StrategyIdsStep(paths);
      EnsureArmsCovers(d, paths[..|paths| - 1]);
    }
  }

  /** The loop of a selection round on the values: the strategy mapping is built and missing arms are created. */
  method PreparedArms(d: ODict<Arm>, paths: seq<ReasoningPath>) returns (r: ODict<Arm>, mapping: map<string, ReasoningPath>)
    requires ArmsKeyed(d)
    ensures r == EnsureArms(d, paths) && mapping == StrategyMapping(paths)
  {
    r, mapping := d, map[];
    var i := 0;
    while i < |paths|
      invariant 0 <= i <= |paths|
      invariant r == EnsureArms(d, paths[..i]) && mapping == StrategyMapping(paths[..i])
    {
      var p := paths[i];
      assert paths[..i + 1][..i] == paths[..i];
      mapping := mapping[p.strategyId := p];
      r := EnsureArm(r, p.strategyId, p.pathType);
      i := i + 1;
    }
    assert paths[..|paths|] == paths;
  }

  /**
   * A new strategy's arm takes the path type of the first path with that
   * strategy: instances of one strategy share one arm, created once.
   */
  lemma {:induction false} FirstPathTypeWins(d: ODict<Arm>, paths: seq<ReasoningPath>, i: nat)
    requires ArmsKeyed(d)
    requires i < |paths| && paths[i].strategyId !in d.m
    requires forall j :: 0 <= j < i ==> paths[j].strategyId != paths[i].strategyId
    ensures paths[i].strategyId in EnsureArms(d, paths).m
    ensures EnsureArms(d, paths).m[paths[i].strategyId] == NewArm(paths[i].strategyId, paths[i].pathType)
  {
    var n := |paths|;
    var init := paths[..n - 1];
    if i == n - 1 {
      EnsureArmsCovers(d, init);
      assert forall j :: 0 <= j < |init| ==> init[j].strategyId != paths[i].strategyId;
      assert paths[i].strategyId !in StrategyIds(init);
    } else {
      assert init[i] == paths[i];
      assert forall j :: 0 <= j < i ==> init[j] == paths[j];
      FirstPathTypeWins(d, init, i);
    }
  }

  /** `strategy_to_path_mapping`: each strategy id mapped to the last path that has it. */
  function StrategyMapping(paths: seq<ReasoningPath>): map<string, ReasoningPath>
  {
    if |paths| == 0 then map[]
    else
      var p := paths[|paths| - 1];
      StrategyMapping(paths[..|paths| - 1])[p.strategyId := p]
  }

  /** The mapping has exactly the strategies of the list as keys, each mapped to a path of the list with that strategy. */
  lemma {:induction false} StrategyMappingCovers(paths: seq<ReasoningPath>)
    ensures StrategyMapping(paths).Keys == StrategyIds(paths)
    ensures forall id :: id in StrategyMapping(paths) ==>
      StrategyMapping(paths)[id].strategyId == id && StrategyMapping(paths)[id] in paths
  {
    if |paths| > 0 {
      var init := paths[..|paths| - 1];
      StrategyIdsStep(paths);
      StrategyMappingCovers(init);
      assert forall q :: q in init ==> q in paths;
    }
  }

  /** A path that no later path shares its strategy with is the one the mapping keeps. */
  lemma {:induction false} LastPathWins(paths: seq<ReasoningPath>, i: nat)
    requires i < |paths|
    requires forall j :: i < j < |paths| ==> paths[j].strategyId != paths[i].strategyId
    ensures paths[i].strategyId in StrategyMapping(paths)
    ensures StrategyMapping(paths)[paths[i].strategyId] == paths[i]
  {
    var n := |paths|;
    if i < n - 1 {
      var init := paths[..n - 1];
      assert init[i] == paths[i];
      assert forall j :: i < j < |init| ==> init[j] == paths[j];
      LastPathWins(init, i);
    }
  }

  /** The arms of the candidate paths, in path order (a strategy proposed twice appears twice). */
  function Candidates(d: ODict<Arm>, paths: seq<ReasoningPath>): (cs: seq<Arm>)
    requires StrategyIds(paths) <= d.m.Keys
    ensures |cs| == |paths|
    ensures forall i :: 0 <= i < |paths| ==> cs[i] == d.m[paths[i].strategyId]
  {
    seq(|paths|, i requires 0 <= i < |paths| => d.m[paths[i].strategyId])
  }

  /** The arms of the table in its order (`list(self.path_arms.values())`). */
  function ArmList(d: ODict<Arm>): (as_: seq<Arm>)
    requires Valid(d)
    ensures |as_| == Size(d)
    ensures forall i :: 0 <= i < |as_| ==> as_[i] == d.m[d.keys[i]]
  {
    seq(|d.keys|, i requires 0 <= i < |d.keys| => d.m[d.keys[i]])
  }

  /** The selected arm after a round: one more activation, last used now. */
  function Activated(a: Arm, now: real): (b: Arm)
    ensures b.activationCount == a.activationCount + 1 && b.lastUsed == now
    ensures b.(activationCount := a.activationCount, lastUsed := a.lastUsed) == a
  {
    a.(activationCount := a.activationCount + 1, lastUsed := now)
  }

  /** The algorithm a round runs: the requested one, or the automatic choice for `auto`. */
  function AlgorithmUsed(requested: string, totalSelections: nat, d: ODict<Arm>): (alg: string)
    requires Valid(d)
    ensures requested != AutoAlgorithm ==> alg == requested
    ensures requested == AutoAlgorithm ==> alg in {Thompson, Ucb, EpsilonGreedy}
  {
    if requested == AutoAlgorithm then AlgorithmFor(totalSelections, Size(d) > 0, ConvergenceLevel(ArmList(d)))
    else requested
  }

  /**
   * How the candidate at index `k` is chosen under `alg`: the UCB or the
   * epsilon-greedy rule for those names, Thompson sampling for any other
   * name.
   */
  predicate ChoiceRule(alg: string, cs: seq<Arm>, draws: seq<real>, u: real, pick: nat,
                       confidenceBound: (nat, nat) -> real, totalSelections: nat, k: nat)
    requires |draws| == |cs|
  {
    k < |cs|
    && (alg == Ucb ==> UcbRule(cs, confidenceBound, pick, k))
    && (alg == EpsilonGreedy ==> EpsilonRule(cs, u, pick, k))
    && (alg != Ucb && alg != EpsilonGreedy ==> IsFirstMax(ThompsonScores(cs, draws, totalSelections), k))
  }

  /**
   * How the bandit branch of a selection round chooses, given the arm table
   * before it: once all strategies have arms, the algorithm of the round
   * chooses candidate `k` by its rule.
   */
  predicate BanditChoice(before: ODict<Arm>, paths: seq<ReasoningPath>, algorithm: string, round: nat,
                         draws: seq<real>, u: real, pick: nat, confidenceBound: (nat, nat) -> real, k: nat)
    requires ArmsKeyed(before) && |draws| == |paths|
  {
    var ensured := EnsureArms(before, paths);
    EnsureArmsCovers(before, paths);
    ChoiceRule(AlgorithmUsed(algorithm, round, ensured), Candidates(ensured, paths), draws, u, pick,
               confidenceBound, round, k)
  }

  /**
   * What the bandit branch of a selection round leaves behind once it has
   * chosen candidate `k`: the arm table with every strategy's arm and the
   * chosen one activated, the last path with the chosen strategy, and the
   * selection history with the round's record appended.
   */
  function BanditState(before: ODict<Arm>, history: seq<SelectionRecord>, paths: seq<ReasoningPath>,
                       algorithm: string, round: nat, k: nat, now: real): (ODict<Arm>, ReasoningPath, seq<SelectionRecord>)
    requires ArmsKeyed(before) && k < |paths|
  {
    var ensured := EnsureArms(before, paths);
    EnsureArmsCovers(before, paths);
    var id := paths[k].strategyId;
    StrategyMappingCovers(paths);
    var selected := StrategyMapping(paths)[id];
    (Put(ensured, id, Activated(ensured.m[id], now)), selected,
     history + [SelectionRecord(id, selected.pathType, AlgorithmUsed(algorithm, round, ensured), now, round)])
  }

  /** The dispatch on the algorithm name. */
  method RunAlgorithm(alg: string, cs: seq<Arm>, draws: seq<real>, u: real, pick: nat,
                      confidenceBound: (nat, nat) -> real, totalSelections: nat) returns (k: nat)
    requires |cs| > 0 && |draws| == |cs| && pick < |cs|
    ensures ChoiceRule(alg, cs, draws, u, pick, confidenceBound, totalSelections, k)
  {
    if alg == Thompson {
      k := ThompsonChoice(cs, draws, totalSelections);
    } else if alg == Ucb {
      k := UcbChoice(cs, confidenceBound, pick);
    } else if alg == EpsilonGreedy {
      var explored;
      k, explored := EpsilonChoice(cs, u, pick);
    } else {
      k := ThompsonChoice(cs, draws, totalSelections);
    }
  }

  // ---------------------------------------------------------------------
  // Performance update and promotion
  // ---------------------------------------------------------------------

  /** `sum(rl_reward_history) / len(...)`, 0 when empty. */
  function RlAverage(a: Arm): real
  {
    if |a.rlRewardHistory| == 0 then 0.0 else Mean(a.rlRewardHistory)
  }

  /** The template `_promote_to_golden_template` builds from an arm. */
  function NewTemplate(id: string, a: Arm, now: real): (t: Template)
    ensures t.strategyId == id && t.pathId == id && t.pathType == a.option && t.description == ""
    ensures t.successRate == SuccessRate(a) && t.totalActivations == a.activationCount
    ensures t.createdTimestamp == now && t.lastUpdated == now && t.usageCount == 0
    ensures 0.0 <= t.stabilityScore <= 1.0
  {
    Template(id, id, a.option, "", SuccessRate(a), a.activationCount, RlAverage(a), now, now,
             "high_performance", StabilityScore(a), 0)
  }

  /** `_update_golden_template`: the performance fields follow the arm, identity and creation stay. */
  function RefreshedTemplate(t: Template, a: Arm, now: real): (r: Template)
    ensures r.strategyId == t.strategyId && r.pathId == t.pathId && r.pathType == t.pathType
    ensures r.description == t.description && r.createdTimestamp == t.createdTimestamp
    ensures r.promotionReason == t.promotionReason && r.usageCount == t.usageCount
    ensures r.successRate == SuccessRate(a) && r.totalActivations == a.activationCount
    ensures r.lastUpdated == now
  {
    t.(successRate := SuccessRate(a), totalActivations := a.activationCount, averageReward := RlAverage(a),
       lastUpdated := now, stabilityScore := StabilityScore(a))
  }

  /**
   * `_check_and_promote_to_golden_template`: a strategy that meets the
   * criteria and is stable becomes a template (evicting the worst one first
   * when the store is full) or refreshes its template.
   */
  function Promoted(ts: ODict<Template>, id: string, a: Arm, now: real): (r: ODict<Template>)
    requires Valid(ts)
    ensures Valid(r)
    ensures Size(ts) <= MaxGoldenTemplates ==> Size(r) <= MaxGoldenTemplates
    ensures !(MeetsGoldenCriteria(a) && IsStable(a)) ==> r == ts
    ensures MeetsGoldenCriteria(a) && IsStable(a) ==> id in r.m
    ensures forall k :: k in r.m && k != id ==> k in ts.m && r.m[k] == ts.m[k]
  {
    if MeetsGoldenCriteria(a) && IsStable(a) then
      if id !in ts.m then
        var room := if Size(ts) >= MaxGoldenTemplates then Remove(ts, WorstTemplate(ts, now)) else ts;
        assert Size(ts) >= MaxGoldenTemplates ==> Size(room) == Size(ts) - 1 by {
          if Size(ts) >= MaxGoldenTemplates {
            WithoutLength(ts.keys, WorstTemplate(ts, now));
          }
        }
        Put(room, id, NewTemplate(id, a, now))
      else
        Put(ts, id, RefreshedTemplate(ts.m[id], a, now))
    else ts
  }

  /** A promotion into a full store replaces exactly the worst template: the size stays at the cap. */
  lemma PromotionAtCapEvictsWorst(ts: ODict<Template>, id: string, a: Arm, now: real)
    requires Valid(ts) && Size(ts) == MaxGoldenTemplates
    requires MeetsGoldenCriteria(a) && IsStable(a) && id !in ts.m
    ensures Size(Promoted(ts, id, a, now)) == MaxGoldenTemplates
    ensures WorstTemplate(ts, now) !in Promoted(ts, id, a, now).m
    ensures forall k :: k in ts.m && k != WorstTemplate(ts, now) ==> k in Promoted(ts, id, a, now).m
  {
    WithoutLength(ts.keys, WorstTemplate(ts, now));
  }

  /** The algorithm statistics after feedback: counted when the last round selected this strategy. */
  function CreditAlgorithm(perf: map<string, AlgorithmStats>, history: seq<SelectionRecord>,
                           pathId: string, success: bool): (r: map<string, AlgorithmStats>)
    ensures (|history| == 0 || history[|history| - 1].pathId != pathId) ==> r == perf
    ensures |history| > 0 && history[|history| - 1].pathId == pathId ==>
      var alg := history[|history| - 1].algorithm;
      var before := if alg in perf then perf[alg] else AlgorithmStats(0, 0);
      r == perf[alg := AlgorithmStats(before.successes + (if success then 1 else 0), before.total + 1)]
  {
    if |history| > 0 && history[|history| - 1].pathId == pathId then
      var alg := history[|history| - 1].algorithm;
      var before := if alg in perf then perf[alg] else AlgorithmStats(0, 0);
      perf[alg := AlgorithmStats(before.successes + (if success then 1 else 0), before.total + 1)]
    else perf
  }

  predicate StatsConsistent(perf: map<string, AlgorithmStats>)
  {
    forall alg :: alg in perf ==> perf[alg].successes <= perf[alg].total
  }

  /** Crediting an algorithm keeps successes at most the total. */
  lemma CreditAlgorithmConsistent(perf: map<string, AlgorithmStats>, history: seq<SelectionRecord>,
                                  pathId: string, success: bool)
    requires StatsConsistent(perf)
    ensures StatsConsistent(CreditAlgorithm(perf, history, pathId, success))
  {
  }

  /** `reset_path` on the history: the records of other paths, in order. */
  function WithoutPathRecords(history: seq<SelectionRecord>, pathId: string): (r: seq<SelectionRecord>)
    ensures |r| <= |history|
    ensures forall x :: x in r <==> x in history && x.pathId != pathId
  {
    if |history| == 0 then []
    else
      var rest := WithoutPathRecords(history[..|history| - 1], pathId);
      var last := history[|history| - 1];
      assert forall x :: x in history <==> x in history[..|history| - 1] || x == last;
      rest + (if last.pathId != pathId then [last] else [])
  }

  // ---------------------------------------------------------------------
  // Import
  // ---------------------------------------------------------------------

  /** The import loop over the templates of the data, stopping once the store is full. */
  function ImportTemplates(ts: ODict<Template>, src: map<string, Template>, ids: seq<string>): (r: ODict<Template>)
    requires Valid(ts)
    requires forall id :: id in ids ==> id in src
    ensures Valid(r)
    ensures Size(ts) <= MaxGoldenTemplates ==> Size(r) <= MaxGoldenTemplates
    ensures forall k :: k in ts.m ==> k in r.m
    ensures forall k :: k in r.m ==> k in ts.m || k in ids
    decreases |ids|
  {
    if |ids| == 0 || Size(ts) >= MaxGoldenTemplates then ts
    else
      assert forall id :: id in ids[1..] ==> id in ids;
      ImportTemplates(Put(ts, ids[0], src[ids[0]]), src, ids[1..])
  }

  /** The import loop over the usage counts: only counts for stored templates are taken. */
  function ImportUsage(stats: map<string, nat>, store: map<string, Template>, src: map<string, nat>,
                       ids: seq<string>): (r: map<string, nat>)
    requires forall id :: id in ids ==> id in src
    ensures forall k :: k in r ==> k in stats || k in store
    ensures forall k :: k in r && k !in store ==> r[k] == stats[k]
    decreases |ids|
  {
    if |ids| == 0 then stats
    else
      assert forall id :: id in ids[1..] ==> id in ids;
      var next := if ids[0] in store then stats[ids[0] := src[ids[0]]] else stats;
      ImportUsage(next, store, src, ids[1..])
  }

  /** The first import loop on the values. */
  method ImportedTemplates(ts: ODict<Template>, src: ODict<Template>) returns (r: ODict<Template>)
    requires Valid(ts) && Valid(src)
    ensures r == ImportTemplates(ts, src.m, src.keys)
  {
    r := ts;
    var i := 0;
    while i < |src.keys| && Size(r) < MaxGoldenTemplates
      invariant 0 <= i <= |src.keys|
      invariant Valid(r)
      invariant ImportTemplates(r, src.m, src.keys[i..]) == ImportTemplates(ts, src.m, src.keys)
    {
      var id := src.keys[i];
      assert src.keys[i..][1..] == src.keys[i + 1..];
      r := Put(r, id, src.m[id]);
      i := i + 1;
    }
  }

  /** The second import loop on the values. */
  method ImportedUsage(stats: map<string, nat>, store: map<string, Template>, usage: ODict<nat>)
    returns (r: map<string, nat>)
    requires Valid(usage)
    ensures r == ImportUsage(stats, store, usage.m, usage.keys)
  {
    r := stats;
    var j := 0;
    while j < |usage.keys|
      invariant 0 <= j <= |usage.keys|
      invariant ImportUsage(r, store, usage.m, usage.keys[j..]) == ImportUsage(stats, store, usage.m, usage.keys)
    {
      var id := usage.keys[j];
      assert usage.keys[j..][1..] == usage.keys[j + 1..];
      if id in store {
        r := r[id := usage.m[id]];
      }
      j := j + 1;
    }
  }

  // ---------------------------------------------------------------------
  // The converger
  // ---------------------------------------------------------------------

  /** The part of the converger a selection round reads and writes. */
  datatype RoundState = RoundState(arms: ODict<Arm>, total: nat, history: seq<SelectionRecord>,
                                   usage: map<string, nat>, matches: seq<MatchRecord>)

  /**
   * The bandit branch of round number `round`, from the arms and selection
   * history before it to those after it: candidate `k` is the one the
   * round's rule chooses, and the state is what `BanditState` leaves.
   */
  ghost predicate BanditDone(paths: seq<ReasoningPath>, algorithm: string, draws: seq<real>, u: real, pick: nat,
                             confidenceBound: (nat, nat) -> real, now: real, k: nat, selected: ReasoningPath,
                             round: nat, arms0: ODict<Arm>, history0: seq<SelectionRecord>,
                             arms1: ODict<Arm>, history1: seq<SelectionRecord>)
    requires ArmsKeyed(arms0) && |draws| == |paths|
  {
    && k < |paths|
    && BanditChoice(arms0, paths, algorithm, round, draws, u, pick, confidenceBound, k)
    && (arms1, selected, history1) == BanditState(arms0, history0, paths, algorithm, round, k, now)
  }

  /**
   * A round over two or more paths, from state `s0` to state `s1`: the
   * round is counted; a golden-template match is taken as is and recorded
   * with one more use of its template; failing that the bandit branch has
   * run as `BanditDone` says.
   */
  ghost predicate RoundDone(templates: ODict<Template>, paths: seq<ReasoningPath>, algorithm: string,
                            draws: seq<real>, u: real, pick: nat, confidenceBound: (nat, nat) -> real, now: real,
                            k: nat, selected: ReasoningPath, s0: RoundState, s1: RoundState)
    requires ArmsKeyed(s0.arms) && |draws| == |paths|
  {
    && Valid(templates)
    && s1.total == s0.total + 1
    && (FindsGolden(templates, paths) ==>
          var g := GoldenChoice(templates, paths);
          && selected == g.path && s1.arms == s0.arms && s1.history == s0.history
          && s1.usage == s0.usage[g.templateId := UsageOf(s0.usage, g.templateId) + 1]
          && s1.matches == s0.matches + [MatchRecord(g.templateId, g.path.pathId, g.path.pathType, g.score, now,
                                                     s1.total)])
    && (!FindsGolden(templates, paths) ==>
          && s1.usage == s0.usage && s1.matches == s0.matches
          && BanditDone(paths, algorithm, draws, u, pick, confidenceBound, now, k, selected,
                        s1.total, s0.arms, s0.history, s1.arms, s1.history))
  }

  class MabConverger {
    var arms: ODict<Arm>
    var totalPathSelections: nat
    var algorithmPerformance: map<string, AlgorithmStats>
    var selectionHistory: seq<SelectionRecord>
    var templates: ODict<Template>
    var usageStats: map<string, nat>
    var matchHistory: seq<MatchRecord>

    /** Arms keyed by their strategy, a well-formed template store within its cap, consistent statistics. */
    ghost predicate Invariant()
      reads this
    {
      ArmsKeyed(arms) && Valid(templates) && Size(templates) <= MaxGoldenTemplates
      && StatsConsistent(algorithmPerformance)
    }

    /** The fields a selection round reads and writes. */
    ghost function Snapshot(): RoundState
      reads this
    {
      RoundState(arms, totalPathSelections, selectionHistory, usageStats, matchHistory)
    }

    constructor ()
      ensures Invariant()
      ensures arms == Empty() && templates == Empty()
      ensures totalPathSelections == 0 && algorithmPerformance == map[] && usageStats == map[]
      ensures selectionHistory == [] && matchHistory == []
    {
      arms := Empty();
      totalPathSelections := 0;
      algorithmPerformance := map[];
      selectionHistory := [];
      templates := Empty();
      usageStats := map[];
      matchHistory := [];
    }

    /** `_create_strategy_arm_if_missing`; without a path type the type is inferred from the id. */
    method CreateArmIfMissing(strategyId: string, pathType: Option<string>) returns (a: Arm)
      requires ArmsKeyed(arms)
      modifies `arms
      ensures ArmsKeyed(arms)
      ensures arms == EnsureArm(old(arms), strategyId,
                                if pathType.Some? then pathType.value else InferPathType(strategyId))
      ensures a == arms.m[strategyId]
    {
      if strategyId !in arms.m {
        var t := if pathType.Some? then pathType.value else InferPathType(strategyId);
        arms := Put(arms, strategyId, NewArm(strategyId, t));
      }
      a := arms.m[strategyId];
    }

    /** The loop of a selection round that builds the strategy mapping and creates the missing arms. */
    method PrepareArms(paths: seq<ReasoningPath>) returns (mapping: map<string, ReasoningPath>)
      requires ArmsKeyed(arms)
      modifies `arms
      ensures ArmsKeyed(arms)
      ensures arms == EnsureArms(old(arms), paths)
      ensures mapping == StrategyMapping(paths)
      ensures arms.m.Keys == old(arms).m.Keys + StrategyIds(paths)
    {
      EnsureArmsCovers(arms, paths);
      arms, mapping := PreparedArms(arms, paths);
    }

    /**
     * `select_best_path`. An empty list is an error and a single path is
     * returned without counting a round; otherwise a round is run.
     */
    method SelectBestPath(paths: seq<ReasoningPath>, algorithm: string, draws: seq<real>, u: real, pick: nat,
                          confidenceBound: (nat, nat) -> real, now: real)
      returns (r: Result<ReasoningPath>, ghost k: nat)
      requires Invariant()
      requires |draws| == |paths| && (|paths| == 0 || pick < |paths|)
      modifies `arms, `totalPathSelections, `selectionHistory, `usageStats, `matchHistory
      ensures Invariant()
      ensures r.Err? <==> |paths| == 0
      ensures r.Ok? ==> r.value in paths
      ensures |paths| <= 1 ==> unchanged(this)
      ensures |paths| == 1 ==> r == Ok(paths[0])
      ensures |paths| >= 2 ==> r.Ok? && RoundDone(templates, paths, algorithm, draws, u, pick, confidenceBound, now, k,
                                                  r.value, old(Snapshot()), Snapshot())
    {
      k := 0;
      if |paths| == 0 {
        r := Err("empty path list");
      } else if |paths| == 1 {
        r := Ok(paths[0]);
      } else {
        var selected;
        selected, k := RunRound(paths, algorithm, draws, u, pick, confidenceBound, now);
        r := Ok(selected);
      }
    }

    /** A round over two or more paths. */
    method RunRound(paths: seq<ReasoningPath>, algorithm: string, draws: seq<real>, u: real, pick: nat,
                    confidenceBound: (nat, nat) -> real, now: real)
      returns (selected: ReasoningPath, ghost k: nat)
      requires ArmsKeyed(arms) && Valid(templates)
      requires 2 <= |paths| && |draws| == |paths| && pick < |paths|
      modifies `arms, `totalPathSelections, `selectionHistory, `usageStats, `matchHistory
      ensures ArmsKeyed(arms)
      ensures selected in paths
      ensures RoundDone(templates, paths, algorithm, draws, u, pick, confidenceBound, now, k, selected,
                        old(Snapshot()), Snapshot())
    {
      k := 0;
      var golden := FindGoldenMatch(templates, paths);
      if golden.Some? {
        selected := GoldenRound(paths, algorithm, draws, u, pick, confidenceBound, now, golden.value);
      } else {
        selected, k := BanditRound(paths, algorithm, draws, u, pick, confidenceBound, now);
      }
    }

    /** A round a golden template decides. */
    method GoldenRound(paths: seq<ReasoningPath>, algorithm: string, draws: seq<real>, u: real, pick: nat,
                       confidenceBound: (nat, nat) -> real, now: real, g: Match)
      returns (selected: ReasoningPath)
      requires ArmsKeyed(arms) && Valid(templates) && |draws| == |paths|
      requires FindsGolden(templates, paths) && g == GoldenChoice(templates, paths) && g.path in paths
      modifies `totalPathSelections, `usageStats, `matchHistory
      ensures selected in paths
      ensures RoundDone(templates, paths, algorithm, draws, u, pick, confidenceBound, now, 0, selected,
                        old(Snapshot()), Snapshot())
    {
      totalPathSelections := totalPathSelections + 1;
      RecordGoldenUse(g, now);
      selected := g.path;
    }

    /** A round no golden template decides. */
    method BanditRound(paths: seq<ReasoningPath>, algorithm: string, draws: seq<real>, u: real, pick: nat,
                       confidenceBound: (nat, nat) -> real, now: real)
      returns (selected: ReasoningPath, ghost k: nat)
      requires ArmsKeyed(arms) && Valid(templates)
      requires |paths| > 0 && |draws| == |paths| && pick < |paths| && !FindsGolden(templates, paths)
      modifies `arms, `totalPathSelections, `selectionHistory
      ensures ArmsKeyed(arms)
      ensures selected in paths
      ensures RoundDone(templates, paths, algorithm, draws, u, pick, confidenceBound, now, k, selected,
                        old(Snapshot()), Snapshot())
    {
      totalPathSelections := totalPathSelections + 1;
      selected, k := RunBandit(paths, algorithm, draws, u, pick, confidenceBound, now);
    }

    /** The golden-template branch of a round: one more use of the template, one more match record. */
    method RecordGoldenUse(g: Match, now: real)
      modifies `usageStats, `matchHistory
      ensures usageStats == old(usageStats)[g.templateId := UsageOf(old(usageStats), g.templateId) + 1]
      ensures matchHistory == old(matchHistory)
        + [MatchRecord(g.templateId, g.path.pathId, g.path.pathType, g.score, now, totalPathSelections)]
    {
      usageStats := usageStats[g.templateId := UsageOf(usageStats, g.templateId) + 1];
      matchHistory := matchHistory
        + [MatchRecord(g.templateId, g.path.pathId, g.path.pathType, g.score, now, totalPathSelections)];
    }

    /** The bandit branch of a round. */
    method RunBandit(paths: seq<ReasoningPath>, algorithm: string, draws: seq<real>, u: real, pick: nat,
                     confidenceBound: (nat, nat) -> real, now: real)
      returns (selected: ReasoningPath, ghost k: nat)
      requires ArmsKeyed(arms)
      requires |paths| > 0 && |draws| == |paths| && pick < |paths|
      modifies `arms, `selectionHistory
      ensures ArmsKeyed(arms)
      ensures selected in paths
      ensures BanditDone(paths, algorithm, draws, u, pick, confidenceBound, now, k, selected,
                         totalPathSelections, old(arms), old(selectionHistory), arms, selectionHistory)
    {
      var mapping := PrepareArms(paths);
      StrategyMappingCovers(paths);
      var alg, chosen := ChooseCandidate(paths, algorithm, draws, u, pick, confidenceBound);
      k := chosen;
      selected := ActivateChoice(paths, mapping, chosen, alg, now);
    }

    /** The algorithm of the round and the candidate it chooses; nothing changes. */
    method ChooseCandidate(paths: seq<ReasoningPath>, algorithm: string, draws: seq<real>, u: real, pick: nat,
                           confidenceBound: (nat, nat) -> real) returns (alg: string, k: nat)
      requires ArmsKeyed(arms) && StrategyIds(paths) <= arms.m.Keys
      requires |paths| > 0 && |draws| == |paths| && pick < |paths|
      ensures alg == AlgorithmUsed(algorithm, totalPathSelections, arms)
      ensures ChoiceRule(alg, Candidates(arms, paths), draws, u, pick, confidenceBound, totalPathSelections, k)
    {
      var cs := Candidates(arms, paths);
      alg := if algorithm == AutoAlgorithm then SelectAlgorithm() else algorithm;
      k := RunAlgorithm(alg, cs, draws, u, pick, confidenceBound, totalPathSelections);
    }

    /** The chosen strategy's arm is activated and the round recorded; the last path with that strategy is returned. */
    method ActivateChoice(paths: seq<ReasoningPath>, mapping: map<string, ReasoningPath>, k: nat, alg: string,
                          now: real) returns (selected: ReasoningPath)
      requires ArmsKeyed(arms) && StrategyIds(paths) <= arms.m.Keys
      requires k < |paths| && paths[k].strategyId in mapping
      modifies `arms, `selectionHistory
      ensures ArmsKeyed(arms)
      ensures var id := paths[k].strategyId;
        arms == Put(old(arms), id, Activated(old(arms).m[id], now))
        && selected == mapping[id]
        && selectionHistory == old(selectionHistory) + [SelectionRecord(id, selected.pathType, alg, now, totalPathSelections)]
    {
      var id := paths[k].strategyId;
      assert id in StrategyIds(paths);
      arms := Put(arms, id, Activated(arms.m[id], now));
      selected := mapping[id];
      selectionHistory := selectionHistory + [SelectionRecord(id, selected.pathType, alg, now, totalPathSelections)];
    }

    /**
     * `update_path_performance`: the strategy's arm (created, with an
     * inferred type, if missing) records the outcome, the algorithm of the
     * last round is credited when that round chose this strategy, and the
     * promotion check runs on the updated arm.
     */
    method UpdatePathPerformance(pathId: string, success: bool, reward: real, now: real)
      requires Invariant()
      modifies `arms, `algorithmPerformance, `templates
      ensures Invariant()
      ensures var before := EnsureArm(old(arms), pathId, InferPathType(pathId));
        arms == Put(before, pathId, Updated(before.m[pathId], success, reward, now))
      ensures algorithmPerformance == CreditAlgorithm(old(algorithmPerformance), old(selectionHistory), pathId, success)
      ensures templates == Promoted(old(templates), pathId, arms.m[pathId], now)
    {
      var before := EnsureArm(arms, pathId, InferPathType(pathId));
      var b := Updated(before.m[pathId], success, reward, now);
      CreditAlgorithmConsistent(algorithmPerformance, selectionHistory, pathId, success);
      arms := Put(before, pathId, b);
      algorithmPerformance := CreditAlgorithm(algorithmPerformance, selectionHistory, pathId, success);
      templates := Promoted(templates, pathId, b, now);
    }

    /** `update_arm_performance`: the deprecated entry point, keyed by `dimension_option`. */
    method UpdateArmPerformance(dimension: string, option: string, success: bool, reward: real, now: real)
      requires Invariant()
      modifies `arms, `algorithmPerformance, `templates
      ensures Invariant()
      ensures var id := dimension + "_" + option;
        var before := EnsureArm(old(arms), id, InferPathType(id));
        arms == Put(before, id, Updated(before.m[id], success, reward, now))
    {
      UpdatePathPerformance(dimension + "_" + option, success, reward, now);
    }

    /** `_check_and_promote_to_golden_template` with `_promote_to_golden_template` and `_update_golden_template`. */
    method CheckAndPromote(id: string, a: Arm, now: real)
      requires Valid(templates) && Size(templates) <= MaxGoldenTemplates
      modifies `templates
      ensures Valid(templates) && Size(templates) <= MaxGoldenTemplates
      ensures templates == Promoted(old(templates), id, a, now)
    {
      if MeetsGoldenCriteria(a) && IsStable(a) {
        if id !in templates.m {
          if Size(templates) >= MaxGoldenTemplates {
            var worst := WorstTemplate(templates, now);
            WithoutLength(templates.keys, worst);
            templates := Remove(templates, worst);
          }
          templates := Put(templates, id, NewTemplate(id, a, now));
        } else {
          templates := Put(templates, id, RefreshedTemplate(templates.m[id], a, now));
        }
      }
    }

    /** `reset_path`: the arm goes, and so do the strategy's selection records. */
    method ResetPath(pathId: string)
      requires Invariant()
      modifies `arms, `selectionHistory
      ensures Invariant()
      ensures arms == (if pathId in old(arms).m then Remove(old(arms), pathId) else old(arms))
      ensures pathId !in arms.m
      ensures selectionHistory == WithoutPathRecords(old(selectionHistory), pathId)
    {
      if pathId in arms.m {
        arms := Remove(arms, pathId);
      }
      selectionHistory := WithoutPathRecords(selectionHistory, pathId);
    }

    /** `reset_all_paths`: all learning is forgotten; the golden templates stay. */
    method ResetAllPaths()
      requires Invariant()
      modifies `arms, `selectionHistory, `totalPathSelections, `algorithmPerformance
      ensures Invariant()
      ensures arms == Empty() && selectionHistory == [] && totalPathSelections == 0 && algorithmPerformance == map[]
    {
      arms := Empty();
      selectionHistory := [];
      totalPathSelections := 0;
      algorithmPerformance := map[];
    }

    /** `remove_golden_template`: true exactly when the template existed. */
    method RemoveGoldenTemplate(templateId: string) returns (removed: bool)
      requires Invariant()
      modifies `templates
      ensures Invariant()
      ensures removed <==> templateId in old(templates).m
      ensures templates.m == old(templates).m - {templateId}
    {
      if templateId in templates.m {
        WithoutLength(templates.keys, templateId);
        templates := Remove(templates, templateId);
        return true;
      }
      return false;
    }

    /** `clear_golden_templates`: the store, its usage counts and its match history are emptied. */
    method ClearGoldenTemplates()
      requires Invariant()
      modifies `templates, `usageStats, `matchHistory
      ensures Invariant()
      ensures templates == Empty() && usageStats == map[] && matchHistory == []
    {
      templates := Empty();
      usageStats := map[];
      matchHistory := [];
    }

    /**
     * `import_golden_templates` on decoded data: `None` stands for data
     * without a `golden_templates` field, which is refused. Templates are
     * taken in order while the store has room; usage counts only for
     * stored templates.
     */
    method ImportGoldenTemplates(data: Option<ODict<Template>>, usage: ODict<nat>) returns (ok: bool)
      requires Invariant()
      requires data.Some? ==> Valid(data.value)
      requires Valid(usage)
      modifies `templates, `usageStats
      ensures Invariant()
      ensures ok <==> data.Some?
      ensures data.None? ==> templates == old(templates) && usageStats == old(usageStats)
      ensures data.Some? ==> templates == ImportTemplates(old(templates), data.value.m, data.value.keys)
      ensures data.Some? ==> usageStats == ImportUsage(old(usageStats), templates.m, usage.m, usage.keys)
    {
      if data.None? {
        return false;
      }
      ImportTemplateItems(data.value);
      ImportUsageItems(usage);
      return true;
    }

    /** The first import loop: templates in order while the store has room. */
    method ImportTemplateItems(src: ODict<Template>)
      requires Invariant() && Valid(src)
      modifies `templates
      ensures Invariant()
      ensures templates == ImportTemplates(old(templates), src.m, src.keys)
    {
      templates := ImportedTemplates(templates, src);
    }

    /** The second import loop: usage counts of stored templates. */
    method ImportUsageItems(usage: ODict<nat>)
      requires Invariant() && Valid(usage)
      modifies `usageStats
      ensures Invariant()
      ensures usageStats == ImportUsage(old(usageStats), templates.m, usage.m, usage.keys)
    {
      usageStats := ImportedUsage(usageStats, templates.m, usage);
    }

    /** `get_path_confidence`: creates the arm if missing, then its confidence. */
    method GetPathConfidence(strategyId: string) returns (c: real)
      requires Invariant()
      modifies `arms
      ensures Invariant()
      ensures arms == EnsureArm(old(arms), strategyId, InferPathType(strategyId))
      ensures c == PathConfidence(arms.m[strategyId])
      ensures 0.0 <= c <= 1.0
      ensures strategyId !in old(arms).m ==> c == 0.21
    {
      var a := CreateArmIfMissing(strategyId, None);
      c := PathConfidence(a);
      if strategyId !in old(arms).m {
        NewArmConfidence(strategyId, a.option);
      }
    }

    /** `check_low_confidence_scenario`: true with no arms, else when no arm reaches the threshold. */
    function LowConfidence(threshold: real): (r: bool)
      reads this
      requires ArmsKeyed(arms)
      ensures r <==> forall id :: id in arms.m ==> PathConfidence(arms.m[id]) < threshold
    {
      var list := ArmList(arms);
      assert forall id :: id in arms.m ==> exists i :: 0 <= i < |list| && list[i] == arms.m[id] by {
        forall id | id in arms.m ensures exists i :: 0 <= i < |list| && list[i] == arms.m[id] {
          var i :| 0 <= i < |arms.keys| && arms.keys[i] == id;
          assert list[i] == arms.m[id];
        }
      }
      LowConfidenceScenario(list, threshold)
    }

    /** `check_path_convergence` over the arms in table order. */
    function PathConvergence(): (r: bool)
      reads this
      requires ArmsKeyed(arms)
      ensures r ==> Size(arms) >= 2 && TotalSamples(ArmList(arms)) >= MinSamples
    {
      PathsConverged(ArmList(arms))
    }

    /** `_select_best_algorithm_for_paths` over the arms in table order. */
    function SelectAlgorithm(): (alg: string)
      reads this
      requires ArmsKeyed(arms)
      ensures alg == AlgorithmUsed(AutoAlgorithm, totalPathSelections, arms)
      ensures totalPathSelections < 15 || Size(arms) == 0 ==> alg == Thompson
    {
      AlgorithmFor(totalPathSelections, Size(arms) > 0, ConvergenceLevel(ArmList(arms)))
    }
  }

  /** Whether a golden template decides a round over `paths`. */
  function FindsGolden(ts: ODict<Template>, paths: seq<ReasoningPath>): bool
    requires Valid(ts)
  {
    GoldenMatch(ts, paths).Some?
  }

  function GoldenChoice(ts: ODict<Template>, paths: seq<ReasoningPath>): Match
    requires Valid(ts) && FindsGolden(ts, paths)
  {
    GoldenMatch(ts, paths).value
  }

  /** `template_usage_stats[id]` with the default 0 of a `defaultdict(int)`. */
  function UsageOf(stats: map<string, nat>, id: string): nat
  {
    if id in stats then stats[id] else 0
  }
}
