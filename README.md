# Neosgenesis decision core in Dafny

Neosgenesis is an LLM-driven decision engine. For each query it generates
candidate reasoning paths and tools. A multi-armed bandit (the Meta-MAB
converger) learns which strategy to pick. Strategies that prove themselves
are promoted to golden templates. Around the bandit sit bookkeeping
structures that this project also models.

The Dafny modules follow the Python files:

- `decision_arm`, `path_scoring`, `golden_templates`, `path_converger`:
  `neogenesis_system/meta_mab/data_structures.py` and `mab_converger.py`.
  They cover the per-strategy arms, the algorithm choice, UCB and
  epsilon-greedy scores, convergence, confidence, and template promotion
  and eviction.
- `trial_ground`, `cold_start`: the cognitive engine's extended converger.
  It adds the trial ground (exploration boost, culling with hysteresis),
  tool arms, cold-start detection and source-weighted rewards.
- `controller`: the controller's verification reward, Aha-Moment counters,
  running-mean timings and idea text preparation.
- `tool_registry`, `performance_optimizer`: the tool registry; the TTL cache
  and the adaptive path selector.
- `mab_engine`: the LangChain-side bandit engine.
- `state_management`, `deadlock`, `transactions`: decision sessions, the
  wait-for-graph deadlock detector and the transaction manager.
- `execution_engines`, `execution_resources`, `execution_scheduler`: the
  layered dependency sort, batching per execution mode and resource
  accounting.
- `shared_structures`: Action, Plan, ExecutionContext, KnowledgeNetwork and
  KnowledgeProvenance.
- `reasoner`, `llm_manager`, `memory_storage`, `cognitive_scheduler`: the
  prior reasoner, LLM provider fallback, the in-memory storage backend and
  the idle-state scheduler.
- `seqs`, `text`, `ordered_maps`, `sorting`, `outcomes`: shared helpers.
  They give Python's sums and means, string methods, insertion-ordered
  `dict`, stable `sort` and `Option`/`Result`.

How the model represents the source:

- Objects whose methods update fields are classes. Each method's contract
  ties the new state to a specification function of the old state.
- The properties the source promises are proved about those functions.
- Python `dict`s keep their insertion order.
- Floats are exact reals.
- Clock readings are a parameter `now`.
- Random draws and replies from foreign clients are parameters too.

Where the model departs from the code as written:

- The controller's `__init__` sets its thresholds only in lines that follow
  a `return` (neogenesis_system/meta_mab/controller.py:78-128). The model
  uses the defaults those lines evidently intend: failure threshold 3 and
  confidence threshold 0.3.
- Each case in "## Findings" is modelled twice: once as written and once
  corrected. The operations that go on to use the corrected definition say
  so in their "## Model" row and on a line of their own under "## Left out".

## Model

| member | source | states |
|---|---|---|
| DecisionArm.MakeReasoningPath | neogenesis_system/meta_mab/data_structures.py:15-37 | the given fields are kept; an empty strategy id or instance id falls back to the path id, so a non-empty path id gives non-empty ids |
| DecisionArm.MakeReasoningPathIdempotent | neogenesis_system/meta_mab/data_structures.py:26-37 | running the post-initialisation fallback again on a constructed path changes nothing |
| DecisionArm.Updated | neogenesis_system/meta_mab/data_structures.py:66-87 | one outcome bumps exactly one of the success/failure counters, total uses and activations by one, adds the reward to the total, appends reward and outcome to the three histories and keeps them within 20/50/50 (a full reward list drops to 10) |
| DecisionArm.SuccessRate | neogenesis_system/meta_mab/data_structures.py:89-93 | the rate is in [0, 1], 0 for an unused arm, successes over uses otherwise, and 1 exactly when the arm was used and never failed |
| DecisionArm.AverageReward | neogenesis_system/meta_mab/data_structures.py:95-100 | 0 without recent rewards, otherwise the value whose product with their count is their sum |
| DecisionArm.AverageRewardBounds | neogenesis_system/meta_mab/data_structures.py:95-100 | rewards all within [lo, hi] give an average within [lo, hi] |
| DecisionArm.EnhancedDecisionArm.constructor | neogenesis_system/meta_mab/data_structures.py:47-64 | a new arm has zero counters and empty histories |
| DecisionArm.EnhancedDecisionArm.UpdatePerformance | neogenesis_system/meta_mab/data_structures.py:66-87 | the arm's new fields are exactly `Updated` of its old fields |
| PathScoring.NormalizedReward | neogenesis_system/meta_mab/mab_converger.py:225-227 | the normalized reward lies in [0, 1] and equals (avg + 1) / 2 for an average reward in [-1, 1] |
| PathScoring.RewardSignal | neogenesis_system/meta_mab/mab_converger.py:224-227 | the normalized mean of a non-empty RL reward history lies in [0, 1] |
| PathScoring.ArmActivations | neogenesis_system/meta_mab/mab_converger.py:248 | the summed activation count is 0 exactly when no candidate arm was ever activated |
| PathScoring.ThompsonScore | neogenesis_system/meta_mab/mab_converger.py:215-232 | the sampled score is non-negative, at most 1 for a draw in [0, 1], without reward history within 0.1 of the draw, and equal to the draw for an unused arm |
| PathScoring.ThompsonChoice | neogenesis_system/meta_mab/mab_converger.py:205-241 | the chosen arm is the first one with the highest sampled score |
| PathScoring.UcbBase | neogenesis_system/meta_mab/mab_converger.py:269-276 | the exploitation value lies in [0, 1] and is the plain success rate without reward history |
| PathScoring.UcbChoice | neogenesis_system/meta_mab/mab_converger.py:243-289 | with no activations the random pick; otherwise the first never-activated arm if any; otherwise the first arm with the highest UCB value |
| PathScoring.ExplorationRate | neogenesis_system/meta_mab/mab_converger.py:297-298 | epsilon lies in [0.1, 0.4], is 0.4 with no activations and reaches its floor 0.1 from 375 activations |
| PathScoring.ExplorationRateNonIncreasing | neogenesis_system/meta_mab/mab_converger.py:298 | more activations never raise epsilon |
| PathScoring.ExploitBase | neogenesis_system/meta_mab/mab_converger.py:315-321 | the exploitation score before the usage penalty lies in [0, 1] |
| PathScoring.ExploitScore | neogenesis_system/meta_mab/mab_converger.py:323-326 | the usage penalty takes off at most 5% and nothing when the arm's usage share is at most one half |
| PathScoring.EpsilonChoice | neogenesis_system/meta_mab/mab_converger.py:291-335 | explores exactly when the uniform draw is below epsilon, and then returns the random pick; otherwise returns the first arm with the highest exploitation score |
| PathScoring.SampledRates | neogenesis_system/meta_mab/mab_converger.py:384-388 | one success rate per tried arm, each in [0, 1] |
| PathScoring.CollectSampledRates | neogenesis_system/meta_mab/mab_converger.py:384-388 | the loop collects exactly the success rates of the tried arms, in arm order |
| PathScoring.ConvergenceLevel | neogenesis_system/meta_mab/mab_converger.py:370-398 | the level lies in [0, 1] and is 0 with fewer than two arms or fewer than two tried arms |
| PathScoring.CalculateConvergenceLevel | neogenesis_system/meta_mab/mab_converger.py:370-398 | the method computes exactly the convergence level |
| PathScoring.EqualRatesFullyConverged | neogenesis_system/meta_mab/mab_converger.py:393-396 | tried arms that share one success rate give convergence level 1 |
| PathScoring.AlgorithmFor | neogenesis_system/meta_mab/mab_converger.py:337-368 | Thompson sampling exactly below 15 selections, without arms or below convergence 0.4; UCB exactly for convergence in [0.4, 0.7); epsilon-greedy exactly from 0.7 |
| PathScoring.PathsConverged | neogenesis_system/meta_mab/mab_converger.py:450-483 | convergence needs at least two arms, at least ten samples and at least two tried arms |
| PathScoring.ConvergedPathsUseEpsilonGreedy | neogenesis_system/meta_mab/mab_converger.py:337-398 | converged paths have convergence level above 0.79, so past 15 selections the algorithm chosen is epsilon-greedy |
| PathScoring.EqualRatesConverge | neogenesis_system/meta_mab/mab_converger.py:450-483 | at least two arms and ten samples whose tried arms share one success rate count as converged |
| PathScoring.IsStable | neogenesis_system/meta_mab/mab_converger.py:920-945 | a stable arm has at least a full window of 10 recent results |
| PathScoring.TenSuccessesAreStable | neogenesis_system/meta_mab/mab_converger.py:920-945 | a full window of successes is always stable |
| PathScoring.PromotableHasNineOfTen | neogenesis_system/meta_mab/mab_converger.py:541-553 | an arm that meets the golden criteria and is stable succeeded in at least 9 of its last 10 results |
| PathScoring.StabilityScore | neogenesis_system/meta_mab/mab_converger.py:1008-1043 | the score lies in [0, 1], is 0 below 10 activations and 0.5 with fewer than 6 recent results |
| PathScoring.CalculateStabilityScore | neogenesis_system/meta_mab/mab_converger.py:1008-1043 | the sliding-window loop computes exactly the stability score |
| PathScoring.UnbrokenSuccessIsFullyStable | neogenesis_system/meta_mab/mab_converger.py:1008-1043 | six or more recent results that are all successes give stability 1 |
| PathScoring.BaseConfidence | neogenesis_system/meta_mab/mab_converger.py:1305-1313 | the sample-size part is one of 0.2, 0.4, 0.6, 0.8 and is 0.8 exactly from 20 activations |
| PathScoring.RecentPerformanceFactor | neogenesis_system/meta_mab/mab_converger.py:1334-1351 | the factor lies in [0, 1] and is 0.5 with fewer than 3 results |
| PathScoring.PathConfidence | neogenesis_system/meta_mab/mab_converger.py:1292-1332 | the confidence lies in [0, 1] and stays at most 0.76 below 5 activations |
| PathScoring.NewArmConfidence | neogenesis_system/meta_mab/mab_converger.py:1292-1332 | a freshly created arm has confidence 0.21, below the default low-confidence threshold 0.3 |
| PathScoring.MaxConfidence | neogenesis_system/meta_mab/mab_converger.py:1385 | the maximum is the confidence of some arm and at least that of every arm |
| PathScoring.LowConfidenceScenario | neogenesis_system/meta_mab/mab_converger.py:1366-1391 | low confidence exactly when every arm's confidence is below the threshold (vacuously with no arms) |
| PathScoring.RecentTrend | neogenesis_system/meta_mab/mab_converger.py:1439-1472 | insufficient data exactly below 4 results; otherwise improving, declining or stable |
| PathScoring.AllSuccessTrendIsStable | neogenesis_system/meta_mab/mab_converger.py:1439-1472 | an unbroken success record of at least 4 results is stable |
| PathScoring.ConsecutiveSuccesses | neogenesis_system/meta_mab/mab_converger.py:1474-1495 | the count is the length of the run of successes that ends the history: all of them successes, the one before (if any) a failure |
| PathScoring.DirectType | neogenesis_system/meta_mab/mab_converger.py:1532-1534 | the lookup finds the value of the entry for the id, and nothing exactly when no entry has that key |
| PathScoring.FuzzyType | neogenesis_system/meta_mab/mab_converger.py:1536-1541 | a fuzzy match returns a value of the table |
| PathScoring.KeywordType | neogenesis_system/meta_mab/mab_converger.py:1543-1559 | a keyword rule returns one of the rules' path types |
| PathScoring.InferFrom | neogenesis_system/meta_mab/mab_converger.py:1500-1562 | the inferred type is the general type or a value of one of the tables, and a table entry for the id decides it |
| PathScoring.InferPathTypeKnown | neogenesis_system/meta_mab/mab_converger.py:1500-1562 | the inferred type is one of the eight path types or the general type, and a table entry for the id decides it |
| GoldenTemplates.DescriptionSimilarity | neogenesis_system/meta_mab/mab_converger.py:871-895 | the similarity lies in [0, 1], is 0 for an empty description, and is 0 exactly when the lower-cased word sets are disjoint or either description is empty |
| GoldenTemplates.SelfSimilarity | neogenesis_system/meta_mab/mab_converger.py:871-895 | a description with at least one word is fully similar to itself |
| GoldenTemplates.PerformanceBonus | neogenesis_system/meta_mab/mab_converger.py:857-858 | the bonus is at most 0.2, is 0.2 at a perfect success rate and the excess over 0.8 (negative below it) otherwise |
| GoldenTemplates.MatchScore | neogenesis_system/meta_mab/mab_converger.py:827-869 | the score is at most 1; without a strategy or type match it is at most 0.4, and without a strategy match or description at most 0.6 |
| GoldenTemplates.CandidateScore | neogenesis_system/meta_mab/mab_converger.py:798-804 | the round's score is at most 1.1 and equals the match score unless the template key is the path's strategy |
| GoldenTemplates.PromotedTemplateMatch | neogenesis_system/meta_mab/mab_converger.py:798-809 | for a promoted template (keyed by its own strategy, no description) a pair passes the 0.85 bar exactly when the path has that strategy and the template's success rate exceeds 0.95 |
| GoldenTemplates.TemplateCandidates | neogenesis_system/meta_mab/mab_converger.py:790-800 | one template yields at most one candidate per path |
| GoldenTemplates.TemplateCandidatesMembers | neogenesis_system/meta_mab/mab_converger.py:790-800 | every candidate of a template carries its key and a listed path it pairs with by strategy or type |
| GoldenTemplates.AllCandidatesMembers | neogenesis_system/meta_mab/mab_converger.py:786-800 | every candidate of the search comes from a stored template and a listed path |
| GoldenTemplates.ScanAppend | neogenesis_system/meta_mab/mab_converger.py:786-817 | scanning two runs of candidates one after the other is scanning their concatenation |
| GoldenTemplates.ScanFindsFirstBest | neogenesis_system/meta_mab/mab_converger.py:809-817 | the scan keeps nothing exactly when no score passes the bar, and otherwise the first candidate with the highest score |
| GoldenTemplates.BestMatch | neogenesis_system/meta_mab/mab_converger.py:809-817 | the kept candidate is none exactly when nothing passes 0.85, otherwise a first best candidate above the bar |
| GoldenTemplates.ScanTemplate | neogenesis_system/meta_mab/mab_converger.py:790-817 | the inner loop over the paths computes the scan of one template's candidates from the best so far |
| GoldenTemplates.GoldenMatchIsBest | neogenesis_system/meta_mab/mab_converger.py:767-825 | the search result is the first best candidate above the bar, and a found match pairs a stored template with one of the paths |
| GoldenTemplates.ScanTemplates | neogenesis_system/meta_mab/mab_converger.py:786-817 | the outer loop over the templates computes the scan of all candidates |
| GoldenTemplates.FindGoldenMatch | neogenesis_system/meta_mab/mab_converger.py:767-825 | the method returns the golden match, which pairs a stored template with one of the paths |
| GoldenTemplates.RecencyScore | neogenesis_system/meta_mab/mab_converger.py:1080-1102 | the score lies in [0, 1], is 1 within a day of the last update and 0 after a week |
| GoldenTemplates.QualityScore | neogenesis_system/meta_mab/mab_converger.py:1062-1078 | a template with success rate and stability in [0, 1] has quality in [0, 1] |
| GoldenTemplates.FirstMinIndex | neogenesis_system/meta_mab/mab_converger.py:1053-1054 | the index of the first minimum, as Python's min keeps |
| GoldenTemplates.WorstTemplate | neogenesis_system/meta_mab/mab_converger.py:1045-1056 | the evicted template is stored and has the lowest quality of all stored templates |
| PathConverger.EnsureArm | neogenesis_system/meta_mab/mab_converger.py:63-85 | a new arm with the given type is added only for an id without one; other arms are kept and the table grows by at most one |
| PathConverger.EnsureArmsCovers | neogenesis_system/meta_mab/mab_converger.py:139-145 | after the creation loop every strategy of the paths has an arm, no other key is added and existing arms are unchanged |
| PathConverger.PreparedArms | neogenesis_system/meta_mab/mab_converger.py:136-145 | the loop builds exactly the arm table with every strategy's arm and the strategy-to-path mapping |
| PathConverger.FirstPathTypeWins | neogenesis_system/meta_mab/mab_converger.py:139-145 | a new strategy's arm takes the path type of the first path with that strategy |
| PathConverger.StrategyMappingCovers | neogenesis_system/meta_mab/mab_converger.py:137-141 | the mapping's keys are the strategies of the paths, each mapped to a listed path with that strategy |
| PathConverger.LastPathWins | neogenesis_system/meta_mab/mab_converger.py:141 | a path whose strategy no later path shares is the one the mapping keeps for it |
| PathConverger.Candidates | neogenesis_system/meta_mab/mab_converger.py:144-145 | the candidate arms are the strategies' arms in path order, one per path |
| PathConverger.ArmList | neogenesis_system/meta_mab/mab_converger.py:353 | the arms in table order, one per key |
| PathConverger.Activated | neogenesis_system/meta_mab/mab_converger.py:166-168 | the chosen arm gains one activation and is stamped with the clock; nothing else changes |
| PathConverger.AlgorithmUsed | neogenesis_system/meta_mab/mab_converger.py:150-152 | a named algorithm is used as given; `auto` resolves to one of the three algorithms |
| PathConverger.RunAlgorithm | neogenesis_system/meta_mab/mab_converger.py:154-164 | the dispatch applies the UCB or epsilon-greedy rule for those names and Thompson sampling for any other name |
| PathConverger.NewTemplate | neogenesis_system/meta_mab/mab_converger.py:947-977 | a promoted template is keyed by the strategy, takes the arm's type, success rate and activations, has no description, zero usage count and a stability score in [0, 1] |
| PathConverger.RefreshedTemplate | neogenesis_system/meta_mab/mab_converger.py:988-1004 | a refresh updates success rate, activations, reward, stability and timestamp and keeps identity, creation time and usage count |
| PathConverger.Promoted | neogenesis_system/meta_mab/mab_converger.py:897-918 | the store changes only for an arm that meets the criteria and is stable, then holds the strategy; it stays within 50 templates and no other template changes |
| PathConverger.PromotionAtCapEvictsWorst | neogenesis_system/meta_mab/mab_converger.py:955-958 | promoting into a full store evicts exactly the worst template and keeps every other one, so the size stays 50 |
| PathConverger.CreditAlgorithm | neogenesis_system/meta_mab/mab_converger.py:418-425 | the algorithm of the last round is credited (one more total, one more success on success) only when that round chose this path |
| PathConverger.CreditAlgorithmConsistent | neogenesis_system/meta_mab/mab_converger.py:418-425 | crediting keeps every algorithm's successes at most its total |
| PathConverger.WithoutPathRecords | neogenesis_system/meta_mab/mab_converger.py:688-692 | the history keeps exactly the records of the other paths |
| PathConverger.ImportTemplates | neogenesis_system/meta_mab/mab_converger.py:1218-1225 | the import keeps every stored template, adds only imported ids and does not grow the store past 50 |
| PathConverger.ImportUsage | neogenesis_system/meta_mab/mab_converger.py:1227-1231 | usage counts are taken only for stored templates; counts of other ids are untouched |
| PathConverger.ImportedTemplates | neogenesis_system/meta_mab/mab_converger.py:1219-1225 | the template import loop computes exactly `ImportTemplates` |
| PathConverger.ImportedUsage | neogenesis_system/meta_mab/mab_converger.py:1228-1231 | the usage import loop computes exactly `ImportUsage` |
| PathConverger.MabConverger.constructor | neogenesis_system/meta_mab/mab_converger.py:28-56 | a new converger has no arms, no templates, no statistics and empty histories |
| PathConverger.MabConverger.CreateArmIfMissing | neogenesis_system/meta_mab/mab_converger.py:63-85 | the table gains an arm for a missing id, typed by the given type or the type inferred from the id, and the id's arm is returned |
| PathConverger.MabConverger.PrepareArms | neogenesis_system/meta_mab/mab_converger.py:135-145 | the arm table gains exactly the strategies of the paths, and the mapping is returned |
| PathConverger.MabConverger.SelectBestPath | neogenesis_system/meta_mab/mab_converger.py:86-204 | an empty list is an error; a single path is returned with nothing changed; otherwise a counted round returns one of the paths as `RoundDone` describes |
| PathConverger.MabConverger.RunRound | neogenesis_system/meta_mab/mab_converger.py:104-196 | the round is counted; a golden match is taken and recorded with one more template use; otherwise the bandit branch runs |
| PathConverger.MabConverger.RecordGoldenUse | neogenesis_system/meta_mab/mab_converger.py:114-125 | the template's usage count goes up by one and one match record is appended |
| PathConverger.MabConverger.RunBandit | neogenesis_system/meta_mab/mab_converger.py:135-196 | the bandit branch returns one of the paths, chosen by the round's algorithm, and leaves the state `BanditState` describes |
| PathConverger.MabConverger.ChooseCandidate | neogenesis_system/meta_mab/mab_converger.py:150-164 | the algorithm is the requested or automatic one and the choice follows its rule; nothing changes |
| PathConverger.MabConverger.ActivateChoice | neogenesis_system/meta_mab/mab_converger.py:166-193 | the chosen strategy's arm is activated, the last path with that strategy is returned and the round is recorded |
| PathConverger.MabConverger.UpdatePathPerformance | neogenesis_system/meta_mab/mab_converger.py:400-432 | the strategy's arm (created with an inferred type if missing) records the outcome, the last round's algorithm is credited, and the promotion check runs on the updated arm |
| PathConverger.MabConverger.UpdateArmPerformance | neogenesis_system/meta_mab/mab_converger.py:435-448 | the deprecated entry point updates the arm keyed `dimension_option` |
| PathConverger.MabConverger.CheckAndPromote | neogenesis_system/meta_mab/mab_converger.py:897-918 | the template store becomes exactly `Promoted` of the old one and stays within 50 |
| PathConverger.MabConverger.ResetPath | neogenesis_system/meta_mab/mab_converger.py:677-692 | the path's arm is removed if present and the selection history loses that path's records |
| PathConverger.MabConverger.ResetAllPaths | neogenesis_system/meta_mab/mab_converger.py:694-701 | arms, selection history, round count and algorithm statistics are cleared; templates stay |
| PathConverger.MabConverger.RemoveGoldenTemplate | neogenesis_system/meta_mab/mab_converger.py:1151-1168 | the result is true exactly when the template existed, and it is gone afterwards |
| PathConverger.MabConverger.ClearGoldenTemplates | neogenesis_system/meta_mab/mab_converger.py:1170-1177 | templates, their usage counts and the match history are emptied |
| PathConverger.MabConverger.ImportGoldenTemplates | neogenesis_system/meta_mab/mab_converger.py:1199-1238 | data without templates is refused and changes nothing; otherwise the templates and usage counts are imported as the two loops do |
| PathConverger.MabConverger.ImportTemplateItems | neogenesis_system/meta_mab/mab_converger.py:1218-1225 | the store becomes `ImportTemplates` of the old store |
| PathConverger.MabConverger.ImportUsageItems | neogenesis_system/meta_mab/mab_converger.py:1227-1231 | the usage counts become `ImportUsage` of the old counts |
| PathConverger.MabConverger.GetPathConfidence | neogenesis_system/meta_mab/mab_converger.py:1292-1332 | the arm is created if missing and its confidence, in [0, 1], is returned; a new strategy gets 0.21 |
| PathConverger.MabConverger.LowConfidence | neogenesis_system/meta_mab/mab_converger.py:1366-1391 | low confidence exactly when no stored arm reaches the threshold |
| PathConverger.MabConverger.PathConvergence | neogenesis_system/meta_mab/mab_converger.py:450-483 | convergence requires at least two arms and at least ten samples |
| PathConverger.MabConverger.SelectAlgorithm | neogenesis_system/meta_mab/mab_converger.py:337-368 | the automatic choice, which is Thompson sampling below 15 selections or without arms |
| Controller.VerificationReward | neogenesis_system/meta_mab/controller.py:1544-1583 | the reward of a feasibility analysis always lies in [-1, 1] |
| Controller.BaseRewardBands | neogenesis_system/meta_mab/controller.py:1558-1567 | a feasibility of at least 0.7 earns a base reward in [0.4, 1], one of at most 0.3 earns one in [-1, -0.4], and one in between earns one within 0.1 of zero |
| Controller.BaseRewardMonotone | neogenesis_system/meta_mab/controller.py:1558-1567 | a more feasible idea never gets a smaller base reward |
| Controller.VerificationRewardSign | neogenesis_system/meta_mab/controller.py:1569-1579 | with confidence and risk in [0, 1], a feasible riskless idea earns a reward of at least 0.2 and an infeasible one at most -0.2 |
| Controller.FoldedMeanIsMean | neogenesis_system/meta_mab/controller.py:557-577 | feeding times one by one into the moving-average update keeps the exact arithmetic mean of all of them |
| Controller.PreprocessIdeaText | neogenesis_system/meta_mab/controller.py:1286-1295 | the stripped idea is kept when it has at most 200 characters; otherwise it becomes its first 200 characters followed by "...", so the result never exceeds 203 |
| Controller.PreprocessShortIdempotent | neogenesis_system/meta_mab/controller.py:1286-1295 | preparing an already prepared short idea changes nothing |
| Controller.MentionedTerms | neogenesis_system/meta_mab/controller.py:1333-1338 | exactly the listed terms that the lowered text contains, in list order |
| Controller.ConceptsAmong | neogenesis_system/meta_mab/controller.py:1336-1340 | at most three terms, each one the lowered text mentions, and all of them when there are at most three |
| Controller.TechConcepts | neogenesis_system/meta_mab/controller.py:1323-1340 | at most three of the 29 technical terms, each one mentioned by the text in lower case |
| Controller.ExtractTechnicalConcepts | neogenesis_system/meta_mab/controller.py:1323-1340 | the scan over the term list returns exactly the technical concepts of the text |
| Controller.FirstConcepts | neogenesis_system/meta_mab/controller.py:1336-1340 | the scan followed by the cut returns the first three mentioned terms |
| Controller.ScanTerms | neogenesis_system/meta_mab/controller.py:1336-1338 | the loop collects exactly the mentioned terms, in list order |
| Controller.RecentFailures | neogenesis_system/meta_mab/controller.py:1083-1108 | the failures counted walking back from the newest decision until one older than the window, never more than the history holds |
| Controller.RecentFailuresWithinWindow | neogenesis_system/meta_mab/controller.py:1099-1106 | when every decision is inside the window the count is exactly the number of decisions marked as failed |
| Controller.CountRecentFailures | neogenesis_system/meta_mab/controller.py:1093-1108 | the loop with its early break returns exactly the recent-failure count |
| Controller.AhaTrigger | neogenesis_system/meta_mab/controller.py:976-1010 | no trigger exactly when the path confidence is at the threshold or above, not every path is low, the consecutive failures are below their threshold and fewer than three failures are recent; reaching the failure threshold always triggers |
| Controller.AhaTriggerOrder | neogenesis_system/meta_mab/controller.py:986-1008 | the conditions are tried in order: a low path confidence wins over everything, and the failure conditions only decide when the confidence conditions do not fire |
| Controller.AhaSuccesses | neogenesis_system/meta_mab/controller.py:1128-1131 | the number of Aha records marked successful, never more than there are records |
| Controller.SuccessRateInUnit | neogenesis_system/meta_mab/controller.py:1128-1132 | the recomputed Aha success rate lies in [0, 1] |
| Controller.MainController.constructor | neogenesis_system/meta_mab/controller.py:101-128 | no decisions, no failures, no Aha moments, a failure threshold of 3, a confidence threshold of 0.3, and zero calls and time for each of the four tracked components |
| Controller.MainController.UpdateAhaMomentFeedback | neogenesis_system/meta_mab/controller.py:1110-1132 | a success clears the consecutive failures, a failure adds one and records its time, and the success rate is recomputed from the records when there are any |
| Controller.MainController.RecordAhaMoment | neogenesis_system/meta_mab/controller.py:1027-1069 | one more Aha moment, its record appended, and beyond 100 records only the last 50 are kept |
| Controller.MainController.CheckAhaMomentTrigger | neogenesis_system/meta_mab/controller.py:976-1010 | fires exactly when the trigger function of the chosen path's confidence, the all-low scenario, the failure counts and the recent failures gives a reason |
| Controller.MainController.UpdateComponentPerformance | neogenesis_system/meta_mab/controller.py:557-565 | the component's call count grows by one and its average time takes the moving-average update; other components are unchanged |
| Controller.MainController.RecordDecisionTime | neogenesis_system/meta_mab/controller.py:534-535 | one more decision, with the average time moved by the running-mean update |
| Controller.MainController.MarkLastDecision | neogenesis_system/meta_mab/controller.py:648-650 | only the newest decision gets the execution mark; an empty history stays empty |
| Controller.FirstDecisionTime | neogenesis_system/meta_mab/controller.py:567-577 | the special case for the first decision agrees with the moving-average formula |
| Controller.ThirdFailureTriggers | neogenesis_system/meta_mab/controller.py:1001-1003 | with default thresholds and nothing else firing, two failures do not trigger and a third one does |
| ToolRegistry.Indexed | neogenesis_system/meta_mab/utils/tool_abstraction.py:324-329 | the tool's category gains the name (creating the list when missing) and every other category list is unchanged |
| ToolRegistry.Unindexed | neogenesis_system/meta_mab/utils/tool_abstraction.py:370-377 | the name leaves its category's list, the category disappears when its list empties, and every other list is unchanged |
| ToolRegistry.IndexedNewSound | neogenesis_system/meta_mab/utils/tool_abstraction.py:320-329 | registering a new name keeps the index sound (every listed name registered under that category, once) and complete (every tool listed) |
| ToolRegistry.UnindexedSound | neogenesis_system/meta_mab/utils/tool_abstraction.py:365-377 | removing a tool keeps the index sound and complete for the remaining tools, and the name is left in no list |
| ToolRegistry.ReindexedSound | neogenesis_system/meta_mab/utils/tool_abstraction.py:320-329 | registering or overwriting a valid tool keeps the index sound and complete, once an overwrite that changes category also leaves its old list |
| ToolRegistry.ReindexedMovedSound | neogenesis_system/meta_mab/utils/tool_abstraction.py:321-329 | an overwrite to a new category moves the name from the old list to the new one and keeps the index sound and complete |
| ToolRegistry.RemovedAliasesSound | neogenesis_system/meta_mab/utils/tool_abstraction.py:379-382 | dropping a tool and every alias that targets it leaves all remaining aliases pointing at registered tools |
| ToolRegistry.WithAliasesKeeps | neogenesis_system/meta_mab/utils/tool_abstraction.py:331-338 | an alias already taken is never rebound; the new aliases are exactly the listed ones that were free, all bound to the tool |
| ToolRegistry.WithoutAliasesTo | neogenesis_system/meta_mab/utils/tool_abstraction.py:379-382 | exactly the aliases that do not target the removed tool remain, with their targets unchanged |
| ToolRegistry.AliasesAdded | neogenesis_system/meta_mab/utils/tool_abstraction.py:332-338 | the alias loop binds each free alias to the tool and skips the taken ones |
| ToolRegistry.Resolve | neogenesis_system/meta_mab/utils/tool_abstraction.py:695-699 | a registered name resolves to itself, otherwise an alias resolves to its target, otherwise nothing |
| ToolRegistry.Enabled | neogenesis_system/meta_mab/utils/tool_abstraction.py:490-493 | exactly the names not disabled, in registration order |
| ToolRegistry.EnabledCount | neogenesis_system/meta_mab/utils/tool_abstraction.py:732-734 | without repeated names the enabled names number all names less the disabled ones |
| ToolRegistry.RaisedExecutionGivesNegativeRate | neogenesis_system/meta_mab/utils/tool_abstraction.py:466-467 | as written, one execution that raises makes a fresh registry's success rate -1 |
| ToolRegistry.ExecutionCounts | neogenesis_system/meta_mab/utils/tool_abstraction.py:456-467 | every attempt is counted as an execution, a failed or raised one also as a failure, so failures never outnumber executions |
| ToolRegistry.SuccessRateInUnit | neogenesis_system/meta_mab/utils/tool_abstraction.py:617-620 | with failures never outnumbering executions the success rate lies in [0, 1], and is 1 when nothing failed |
| ToolRegistry.OverwriteLeavesStaleCategory | neogenesis_system/meta_mab/utils/tool_abstraction.py:320-329 | as written, overwriting a tool with one of another category leaves its name listed under the old category too, which breaks the index |
| ToolRegistry.Registry.constructor | neogenesis_system/meta_mab/utils/tool_abstraction.py:280-293 | no tools, categories, aliases or disabled tools, and all counters at zero |
| ToolRegistry.InstallSound | neogenesis_system/meta_mab/utils/tool_abstraction.py:321-338 | storing a valid tool under its name, indexing it under its category and binding its aliases keeps every table of the registry consistent; corrected (README Finding 1) |
| ToolRegistry.Registry.RegisterTool | neogenesis_system/meta_mab/utils/tool_abstraction.py:297-347 | refused exactly for a taken name without overwrite or an invalid tool, leaving the registry unchanged; otherwise the tool is stored, indexed, its free aliases bound, and only a new name counted; corrected (README Finding 1) |
| ToolRegistry.Registry.UnregisterTool | neogenesis_system/meta_mab/utils/tool_abstraction.py:349-391 | refused exactly for a name that neither is registered nor is an alias; otherwise the tool, its index entry, every alias to it and its disabled mark go away and the count grows by one |
| ToolRegistry.Registry.DropTool | neogenesis_system/meta_mab/utils/tool_abstraction.py:365-388 | the resolved tool leaves the tools, the index, the aliases and the disabled set, and the index keeps no trace of it |
| ToolRegistry.Registry.HasTool | neogenesis_system/meta_mab/utils/tool_abstraction.py:393-403 | true exactly for a registered name or an alias |
| ToolRegistry.Registry.DisableTool | neogenesis_system/meta_mab/utils/tool_abstraction.py:525-542 | refused exactly for an unknown name; otherwise the resolved tool is disabled |
| ToolRegistry.Registry.EnableTool | neogenesis_system/meta_mab/utils/tool_abstraction.py:544-561 | refused exactly for an unknown name; otherwise the resolved tool is enabled |
| ToolRegistry.Registry.GetTool | neogenesis_system/meta_mab/utils/tool_abstraction.py:405-429 | nothing for an unknown name or a disabled tool unless asked to enable it, in which case it is enabled and returned |
| ToolRegistry.Registry.ExecuteTool | neogenesis_system/meta_mab/utils/tool_abstraction.py:431-473 | nothing exactly when the tool is unknown or disabled, leaving the counters; otherwise the outcome is reported and counted; corrected (README Finding 2) |
| ToolRegistry.Registry.ListAllTools | neogenesis_system/meta_mab/utils/tool_abstraction.py:480-493 | all names in registration order, or exactly those not disabled |
| ToolRegistry.Registry.Len | neogenesis_system/meta_mab/utils/tool_abstraction.py:732-734 | the number of tools less the number of disabled ones |
| ToolRegistry.Registry.IsAvailable | neogenesis_system/meta_mab/utils/tool_abstraction.py:736-739 | true exactly for a name or alias resolving to a tool that is not disabled |
| ToolRegistry.Registry.ToolsByCategory | neogenesis_system/meta_mab/utils/tool_abstraction.py:475-478 | only registered, enabled tools of that category |
| ToolRegistry.Registry.SearchTools | neogenesis_system/meta_mab/utils/tool_abstraction.py:495-523 | the loop returns exactly the matching tools of the specification function |
| ToolRegistry.Matching | neogenesis_system/meta_mab/utils/tool_abstraction.py:506-523 | every tool kept is enabled, of the requested category when one is given, and has the query in its name or description ignoring case |
| PerformanceOptimizer.EffectiveTtl | neogenesis_system/meta_mab/utils/performance_optimizer.py:102 | a given non-zero ttl is kept; a missing or zero one falls back to the default |
| PerformanceOptimizer.LeastUsedIndex | neogenesis_system/meta_mab/utils/performance_optimizer.py:113-115 | the position of the smallest access count, and the first such position in insertion order |
| PerformanceOptimizer.Evicted | neogenesis_system/meta_mab/utils/performance_optimizer.py:108-117 | an empty cache is unchanged; otherwise exactly the least used entry is removed and the size drops by one |
| PerformanceOptimizer.LeastUsedKey | neogenesis_system/meta_mab/utils/performance_optimizer.py:113-115 | the scan returns the key at the first smallest access count |
| PerformanceOptimizer.IntelligentCache.constructor | neogenesis_system/meta_mab/utils/performance_optimizer.py:41-56 | an empty cache with the given ttl and size limit, all counters at zero |
| PerformanceOptimizer.IntelligentCache.Get | neogenesis_system/meta_mab/utils/performance_optimizer.py:65-88 | a missing key is a miss; an expired entry is deleted and is a miss; otherwise the entry's access count and the hits each grow by one and its data is returned; the cache never exceeds its limit |
| PerformanceOptimizer.IntelligentCache.EvictLeastUsed | neogenesis_system/meta_mab/utils/performance_optimizer.py:108-119 | the cache loses its least used entry and the evictions grow by one, unless the cache is empty |
| PerformanceOptimizer.IntelligentCache.Set | neogenesis_system/meta_mab/utils/performance_optimizer.py:90-106 | a full cache first evicts its least used entry, then the key holds a fresh entry with access count 0 and the effective ttl; the cache never exceeds its limit |
| PerformanceOptimizer.IntelligentCache.HitRate | neogenesis_system/meta_mab/utils/performance_optimizer.py:121-131 | the hit rate lies in [0, 1], is 0 before any request and 1 when there were hits and no misses |
| PerformanceOptimizer.SetPresentKeyWhenFull | neogenesis_system/meta_mab/utils/performance_optimizer.py:94-105 | setting a key already present in a full cache still evicts another entry, leaving the cache one short of full |
| PerformanceOptimizer.FirstReached | neogenesis_system/meta_mab/utils/performance_optimizer.py:237-242 | nothing exactly when the confidence is below every threshold; otherwise the count of a threshold the confidence reaches |
| PerformanceOptimizer.SortedDescending | neogenesis_system/meta_mab/utils/performance_optimizer.py:238 | the mapping's items by descending threshold: a permutation of them in which no threshold exceeds an earlier one |
| PerformanceOptimizer.FirstReachedAt | neogenesis_system/meta_mab/utils/performance_optimizer.py:238-241 | the loop stops at the first visited threshold the confidence reaches, and at no earlier one |
| PerformanceOptimizer.FirstReachedIsLargest | neogenesis_system/meta_mab/utils/performance_optimizer.py:238-241 | visiting thresholds in descending order picks the largest threshold not above the confidence |
| PerformanceOptimizer.LargestThresholdChosen | neogenesis_system/meta_mab/utils/performance_optimizer.py:237-241 | over the mapping in any order, the count chosen is that of the largest threshold the confidence reaches, and none is chosen exactly when it reaches no threshold |
| PerformanceOptimizer.OptimalPathCount | neogenesis_system/meta_mab/utils/performance_optimizer.py:220-252 | the loop over the thresholds sorted in descending order, with its break and the complexity adjustment, returns exactly the path count of the configuration |
| PerformanceOptimizer.PathCountInRange | neogenesis_system/meta_mab/utils/performance_optimizer.py:231-248 | with every mapped count between the minimum and maximum, the chosen path count stays between them |
| PerformanceOptimizer.ShouldEarlyTerminate | neogenesis_system/meta_mab/utils/performance_optimizer.py:254-285 | false when disabled or too few results; a division by zero exactly for an empty list the minimum admits; true only with enough results |
| PerformanceOptimizer.UnanimousResultsTerminate | neogenesis_system/meta_mab/utils/performance_optimizer.py:274-283 | enough results that all succeed or all fail end verification early whenever the threshold is at most 1 |
| PerformanceOptimizer.AdaptivePathSelector.constructor | neogenesis_system/meta_mab/utils/performance_optimizer.py:208-216 | the given configuration and no score history |
| PerformanceOptimizer.AdaptivePathSelector.RecordPathPerformance | neogenesis_system/meta_mab/utils/performance_optimizer.py:287-293 | the score is appended to that path's history, which beyond 50 scores keeps its last 25; other paths are unchanged |
| MabEngine.NewArm | neogenesis_langchain/optimization/mab_optimization.py:52-73 | a fresh arm has no pulls, no reward, no history and the uniform Beta(1, 1) posterior |
| MabEngine.AverageReward | neogenesis_langchain/optimization/mab_optimization.py:75-78 | the total reward itself for an unpulled arm, otherwise the value that times the pulls gives the total reward |
| MabEngine.ArmSuccessRate | neogenesis_langchain/optimization/mab_optimization.py:80-84 | the success rate lies in [0, 1] and is 0 before any graded attempt |
| MabEngine.PySuffix | neogenesis_langchain/optimization/mab_optimization.py:293-295 | the last n entries for a positive n; a limit of 0 keeps the whole list, as the slice -0: does |
| MabEngine.Rewarded | neogenesis_langchain/optimization/mab_optimization.py:268-295 | one more pull and the reward added; exactly one of the success (reward above 0.5) and failure counters grows; the reward and time end the histories, which stay within the limit; the posterior keeps counting every graded pull once |
| MabEngine.ResetArm | neogenesis_langchain/optimization/mab_optimization.py:534-542 | the arm keeps its id, loses its counters and histories and returns to Beta(1, 1) |
| MabEngine.FirstBest | neogenesis_langchain/optimization/mab_optimization.py:318 | the position of a largest score, and the first such position, as max over the keys gives |
| MabEngine.Averages | neogenesis_langchain/optimization/mab_optimization.py:318 | the average reward of each arm, in arm order |
| MabEngine.GreedyArm | neogenesis_langchain/optimization/mab_optimization.py:316-319 | nothing exactly for no arms; otherwise an arm whose average reward no other arm exceeds |
| MabEngine.Ucb1Scores | neogenesis_langchain/optimization/mab_optimization.py:326-333 | infinite exactly for an arm never pulled |
| MabEngine.Ucb1Arm | neogenesis_langchain/optimization/mab_optimization.py:321-336 | left to chance exactly with no arms or before any round; otherwise an existing arm |
| MabEngine.UnpulledArmFirst | neogenesis_langchain/optimization/mab_optimization.py:326-335 | after the first round UCB1 picks the first arm in order that was never pulled |
| MabEngine.RankEntries | neogenesis_langchain/optimization/mab_optimization.py:398 | each arm with its average reward, in arm order |
| MabEngine.RankingsCorrect | neogenesis_langchain/optimization/mab_optimization.py:395-400 | the rankings are sorted by average reward, highest first, hold every arm exactly once, and their head is the greedy arm |
| MabEngine.DequeAppend | neogenesis_langchain/optimization/mab_optimization.py:153 | an append to a bounded log puts the entry last and drops the oldest entry only when the log is full |
| MabEngine.ExplorationIsNotGreedy | neogenesis_langchain/optimization/mab_optimization.py:432-442 | an action on a present arm counts as exploration exactly when greedy exploitation would not pick its arm |
| MabEngine.IntelligentMabEngine.constructor | neogenesis_langchain/optimization/mab_optimization.py:138-167 | no arms, an empty action log and all totals at zero |
| MabEngine.IntelligentMabEngine.AddArm | neogenesis_langchain/optimization/mab_optimization.py:179-194 | refused exactly for a taken id; otherwise the arm is stored last, seeded with one pull of reward 0.5 when cold start is on |
| MabEngine.IntelligentMabEngine.RemoveArm | neogenesis_langchain/optimization/mab_optimization.py:196-205 | reports whether the arm existed and removes it |
| MabEngine.IntelligentMabEngine.SelectArm | neogenesis_langchain/optimization/mab_optimization.py:207-249 | nothing without arms; otherwise the chosen arm is logged and counted, as a cold-start action when it was never pulled |
| MabEngine.IntelligentMabEngine.UpdateReward | neogenesis_langchain/optimization/mab_optimization.py:251-309 | refused exactly for an unknown arm, changing nothing; otherwise the arm takes the graded pull, the round and reward totals grow, and the latest action gets the reward if it is this arm's and ungraded |
| MabEngine.IntelligentMabEngine.Reset | neogenesis_langchain/optimization/mab_optimization.py:531-552 | every arm cleared in place, the action log emptied and every total back to zero |
| MabEngine.IntelligentMabEngine.ActiveArms | neogenesis_langchain/optimization/mab_optimization.py:429 | the number of arms pulled at least once, never more than there are arms |
| MabEngine.GradedLast | neogenesis_langchain/optimization/mab_optimization.py:301-305 | only the latest action changes, and only when it is this arm's and still ungraded |
| MabEngine.ResetAll | neogenesis_langchain/optimization/mab_optimization.py:534-542 | every arm reset, keeping the arm order |
| ColdStart.ShortfallFactor | neogenesis_system/cognitive_engine/mab_converger.py:1494 | a factor in [0, 1]: 1 when nothing has been seen, positive below the limit and 0 once the count reaches it |
| ColdStart.AdjustedReliability | neogenesis_system/cognitive_engine/mab_converger.py:1496-1504 | between 0 and the success rate: 0 with fewer than three samples, the full rate from ten samples on |
| ColdStart.ReliabilityFactor | neogenesis_system/cognitive_engine/mab_converger.py:1506-1507 | a factor in [0, 1]: 1 for no reliability, 0 once the reliability reaches the minimum |
| ColdStart.IdleHours | neogenesis_system/cognitive_engine/mab_converger.py:1509-1513 | unbounded exactly for an arm never used; otherwise hours that are not negative while the clock has not run backwards |
| ColdStart.RecencyFactor | neogenesis_system/cognitive_engine/mab_converger.py:1515-1516 | at most 1: exactly 1 for a never-used arm or one idle at least the maximum, and not negative for a real idle time |
| ColdStart.ColdStartFactors | neogenesis_system/cognitive_engine/mab_converger.py:1477-1531 | the usage and sample counts of the arm and four factors in [0, 1]; too few samples give reliability 0 and factor 1, and a never-used arm reports idle time -1 and recency 1 |
| ColdStart.ColdScoreInUnit | neogenesis_system/cognitive_engine/mab_converger.py:1442-1448 | with non-negative weights summing to one, the weighted cold score lies in [0, 1] |
| ColdStart.ColdReportFor | neogenesis_system/cognitive_engine/mab_converger.py:1387-1475 | an unknown tool is absolutely cold with score 1 and confidence 0; a known tool is cold exactly when its weighted score exceeds the trigger threshold; the confidence is one less the score and the recommendation follows the verdict |
| ColdStart.ColdReportInUnit | neogenesis_system/cognitive_engine/mab_converger.py:1442-1460 | with normalised weights and a clock that has not run backwards, score and confidence both lie in [0, 1] |
| ColdStart.UntriedToolScore | neogenesis_system/cognitive_engine/mab_converger.py:1491-1520 | a known tool never activated, never used and without outcomes has the maximal cold score 1 |
| ColdStart.SourceWeight | neogenesis_system/cognitive_engine/mab_converger.py:84-89 | weights between 0.6 and 1, with user feedback and every unlisted source at 1 |
| ColdStart.AdjustRewardBySource | neogenesis_system/cognitive_engine/mab_converger.py:2067-2094 | retrospection adds 0.1 to a weighted successful positive reward and otherwise never gives less than 0.05; every other source only scales the reward by its weight, towards zero |
| ColdStart.Tracked | neogenesis_system/cognitive_engine/mab_converger.py:2106-2126 | one more event is counted |
| ColdStart.TrackedCount | neogenesis_system/cognitive_engine/mab_converger.py:2110-2111 | after a sequence of events the count is the number of events |
| ColdStart.TrackedMeansAreMeans | neogenesis_system/cognitive_engine/mab_converger.py:2113-2119 | the incremental updates keep exactly the success fraction and the mean reward of all events so far |
| TrialGround.DetectPathSource | neogenesis_system/cognitive_engine/mab_converger.py:212-247 | a learned-id marker wins; manual exactly for a manual-id marker without a learned one; a static template exactly when neither id, path type nor description carries a marker |
| TrialGround.InitialArm | neogenesis_system/cognitive_engine/mab_converger.py:150-178 | a new arm for the strategy and its type; a learned strategy starts with one success and reward 0.3, a manual one with one success and 0.2, so both have success rate 1; any other is a plain new arm |
| TrialGround.ExplorationBoost | neogenesis_system/cognitive_engine/mab_converger.py:323-348 | at least 1, above 1 exactly for a learned path or one with boosted rounds left, at least 1.05 for a learned path, at most 1.2 within the ten rounds, and 1.15 plus the learned bonus with all ten rounds left |
| TrialGround.BoostDecays | neogenesis_system/cognitive_engine/mab_converger.py:336-342 | each boosted round used up lowers the boost by a tenth of the 0.15 bonus |
| TrialGround.ConsecutiveFailures | neogenesis_system/cognitive_engine/mab_converger.py:417-438 | the count is exactly the run of failures at the end of the results, stopped by the newest success |
| TrialGround.CandidatesAfter | neogenesis_system/cognitive_engine/mab_converger.py:368-412 | arms with fewer than 20 activations are ignored; a rate below 0.25 joins the candidates; a candidate leaves only at 0.3 or more; other paths' candidacy is untouched |
| TrialGround.CullingHysteresis | neogenesis_system/cognitive_engine/mab_converger.py:385-410 | a rate between 0.25 and 0.3 neither adds nor removes the path, so its candidacy stays as it was |
| TrialGround.ShouldCull | neogenesis_system/cognitive_engine/mab_converger.py:510-554 | a golden template is never culled; a learned path is spared while its rate exceeds half the threshold or its trial is under an hour; otherwise exactly ten consecutive failures, a rate below 80% of the threshold watched over half an hour, or a low rate after more than 50 trials cull |
| TrialGround.CulledAmong | neogenesis_system/cognitive_engine/mab_converger.py:463-476 | the culled candidates are reviewed candidates with an arm and never golden templates |
| TrialGround.DecisionUnaffected | neogenesis_system/cognitive_engine/mab_converger.py:463-476 | culling other candidates during the sweep does not change the decision about this one |
| TrialGround.CulledAmongStep | neogenesis_system/cognitive_engine/mab_converger.py:472-477 | reviewing one more candidate adds it to the culled set exactly when it has an arm and is culled |
| TrialGround.SweepStep | neogenesis_system/cognitive_engine/mab_converger.py:463-491 | each reviewed candidate is culled and recorded, dropped for lack of an arm, or spared |
| TrialGround.SweepDone | neogenesis_system/cognitive_engine/mab_converger.py:495-497 | after the sweep the remaining candidates are exactly the spared ones: those with an arm that were not culled |
| TrialGround.ToolConvergenceLevel | neogenesis_system/cognitive_engine/mab_converger.py:1847-1874 | a level in [0, 1], 0 with fewer than two tools that have outcomes |
| TrialGround.ToolAlgorithmFor | neogenesis_system/cognitive_engine/mab_converger.py:1814-1845 | Thompson sampling for the first ten rounds or without tool arms; afterwards Thompson exactly below convergence 0.3, UCB exactly from 0.3 to 0.6, epsilon-greedy exactly from 0.6 |
| TrialGround.WithArm | neogenesis_system/cognitive_engine/mab_converger.py:1362-1363 | only the chosen tool's arm is replaced; the order and the other arms are kept |
| TrialGround.EnsureToolArms | neogenesis_system/cognitive_engine/mab_converger.py:1335-1341 | the arm table after the creation loop keeps every arm keyed by its own id |
| TrialGround.EnsureToolArmsKeyed | neogenesis_system/cognitive_engine/mab_converger.py:1335-1341 | every listed tool has an arm, no other arm is created, existing arms are untouched and a created arm is a fresh one named after its tool |
| TrialGround.PrepareToolArms | neogenesis_system/cognitive_engine/mab_converger.py:1335-1341 | the loop builds exactly the prepared arm table |
| TrialGround.WithoutExpiredBoosts | neogenesis_system/cognitive_engine/mab_converger.py:988-997 | exactly the entries with rounds left remain, unchanged, and the count is the number of expired entries removed |
| TrialGround.RemovalKeeps | neogenesis_system/cognitive_engine/mab_converger.py:585-590 | removing culled paths keeps arms keyed by their ids and boosts within ten rounds |
| TrialGround.WithEntry | neogenesis_system/cognitive_engine/mab_converger.py:303-307 | the entry is appended last; beyond 1000 entries only the newest 800 are kept |
| TrialGround.MarkedLearned | neogenesis_system/cognitive_engine/mab_converger.py:249-280 | the path is registered with its trial start and given ten boosted rounds; nothing else changes |
| TrialGround.WithoutCulled | neogenesis_system/cognitive_engine/mab_converger.py:580-590 | culled paths leave the learned paths, the boosts and the promotion candidates, and their records are appended to the culling history; nothing else changes |
| TrialGround.TrialConverger.constructor | neogenesis_system/cognitive_engine/mab_converger.py:37-113 | no arms, no selections, an empty trial ground and zeroed statistics for exactly the four feedback sources |
| TrialGround.TrialConverger.GetExplorationBoost | neogenesis_system/cognitive_engine/mab_converger.py:323-348 | between 1 and 1.2, above 1 exactly for a learned or still boosted path |
| TrialGround.Entered | neogenesis_system/cognitive_engine/mab_converger.py:156-183 | a learned-exploration strategy is marked learned with ten boosted rounds, any other leaves the learned paths and boosts alone; the entry ends the trial history; the culling candidates and watch list are untouched and a valid trial ground stays valid |
| TrialGround.StrategyEntry | neogenesis_system/cognitive_engine/mab_converger.py:121-183 | a new strategy's entry carries its id, the time and round, the given type or the one inferred from the id, and the source the caller names unless it said unknown |
| TrialGround.ArmOrFresh | neogenesis_system/cognitive_engine/mab_converger.py:2017-2046 | a known strategy's stored arm, otherwise a fresh arm of that id and type with no activations |
| TrialGround.TrialConverger.CreateStrategyArm | neogenesis_system/cognitive_engine/mab_converger.py:121-185 | an existing arm is returned unchanged; a new strategy gets the arm its entry (`StrategyEntry`) seeds, is marked learned when learned, and is entered in the bounded trial history |
| TrialGround.TrialConverger.CreateToolArm | neogenesis_system/cognitive_engine/mab_converger.py:187-208 | a tool without an arm gets a fresh one named after the given name or its id; existing arms are untouched |
| TrialGround.TrialConverger.UpdateExplorationBoost | neogenesis_system/cognitive_engine/mab_converger.py:350-365 | one boosted round is used up when any remain, and the boost never grows |
| TrialGround.TrialConverger.CheckCullingCandidates | neogenesis_system/cognitive_engine/mab_converger.py:368-412 | the candidates follow the hysteresis rule; a new candidate is watched with its rate, time, sample count and trailing failures; other watch entries are untouched |
| TrialGround.TrialConverger.CullPath | neogenesis_system/cognitive_engine/mab_converger.py:556-590 | an existing arm is recorded with its final statistics and removed with its trial-ground entries; an unknown id changes nothing |
| TrialGround.TrialConverger.ReviewCandidate | neogenesis_system/cognitive_engine/mab_converger.py:463-491 | a candidate is culled exactly when it has an arm and the culling rule, on the tables as they were before the sweep, says so |
| TrialGround.TrialConverger.ExecuteAutomaticCulling | neogenesis_system/cognitive_engine/mab_converger.py:440-508 | exactly the candidates that meet the culling rule are culled, once each and recorded in order; they leave the arms, learned paths, boosts and promotion candidates; the candidates left are exactly the spared ones |
| TrialGround.TrialConverger.CleanupExpiredBoosts | neogenesis_system/cognitive_engine/mab_converger.py:981-998 | exactly the boosts with rounds left remain and the count of removed entries is returned; nothing else changes |
| TrialGround.TrialConverger.ManageCulledHistory | neogenesis_system/cognitive_engine/mab_converger.py:1000-1016 | the culling history keeps its newest 100 records and reports how many were dropped |
| TrialGround.TrialConverger.IsToolCold | neogenesis_system/cognitive_engine/mab_converger.py:1387-1437 | a tool without an arm is absolutely cold with confidence 0 and the exploration recommendation |
| TrialGround.TrialConverger.RecordFeedbackSource | neogenesis_system/cognitive_engine/mab_converger.py:2096-2128 | only the four tracked sources are counted, each with one more incremental update |
| TrialGround.TrialConverger.RecordArmOutcome | neogenesis_system/cognitive_engine/mab_converger.py:2017-2050 | the path or tool arm takes the outcome with the source-weighted reward; a tool outcome also credits the algorithm of the latest tool selection |
| TrialGround.TrialConverger.UpdatePathPerformance | neogenesis_system/cognitive_engine/mab_converger.py:2001-2065 | a known path, or an unknown id given a fresh path arm and trial entry, has exactly that arm replaced by `Updated` with the source-weighted reward, other arms, tool arms and tool statistics unchanged; a known tool has exactly its arm updated and the latest tool selection's algorithm credited, paths and trial ground unchanged; the source statistics take the raw reward; a path's culling candidacy follows the hysteresis rule |
| TrialGround.TrialConverger.FeedArm | neogenesis_system/cognitive_engine/mab_converger.py:2017-2050 | the arm half of the update: the same arm, tool and trial-ground changes, leaving culling candidates and watch list untouched |
| TrialGround.TrialConverger.FeedPath | neogenesis_system/cognitive_engine/mab_converger.py:2017-2050 | a path outcome: the arm, created from its entry when missing, is replaced by the updated arm and a new strategy is entered in the trial ground |
| TrialGround.TrialConverger.RecordOutcome | neogenesis_system/cognitive_engine/mab_converger.py:2052-2065 | the source statistics take the raw reward and only a path's culling candidacy and watch list change, by the hysteresis rule |
| TrialGround.TrialConverger.SelectBestTool | neogenesis_system/cognitive_engine/mab_converger.py:1310-1378 | an empty list is an error; a single tool is returned without a round; otherwise the round is counted, every tool gets an arm, the algorithm of the round (automatic choice resolved, an unknown name run as Thompson sampling) chooses candidate `k` by its rule (`ToolChoice`), the arm of `tools[k]` is activated, the round is recorded and that arm's name returned |
| TrialGround.TrialConverger.RunToolRound | neogenesis_system/cognitive_engine/mab_converger.py:1328-1378 | the chosen candidate is the one the round's algorithm picks from the prepared arms of the listed tools, and the new state is that round's (`ToolRoundDone`) |
| ToolScoring.ToolThompsonScore | neogenesis_system/cognitive_engine/mab_converger.py:1886-1899 | a tool's sampled value stays in [0, 1] and is the bare draw when the arm has no reward history |
| ToolScoring.ToolThompsonChoice | neogenesis_system/cognitive_engine/mab_converger.py:1876-1908 | the scan returns the first tool arm with the highest sampled value |
| ToolScoring.ToolUcbBase | neogenesis_system/cognitive_engine/mab_converger.py:1934-1943 | the exploitation part of a tool's UCB value is in [0, 1] and is the success rate when there is no reward history |
| ToolScoring.ToolUcbChoice | neogenesis_system/cognitive_engine/mab_converger.py:1910-1956 | with no activations the random pick; otherwise the first never-activated tool if any; otherwise the first tool with the highest UCB value |
| ToolScoring.ToolExplorationRate | neogenesis_system/cognitive_engine/mab_converger.py:1964-1965 | the tool exploration rate lies in [0.05, 0.3], is 0.3 before any activation and 0.05 from 500 activations on |
| ToolScoring.ToolExploresLess | neogenesis_system/cognitive_engine/mab_converger.py:1965 | tool selection never explores more than path selection after the same number of activations, as the code's comment intends |
| ToolScoring.ToolExploitScore | neogenesis_system/cognitive_engine/mab_converger.py:1980-1988 | a tool's exploitation score is in [0, 1] and is the success rate when there is no reward history |
| ToolScoring.ToolEpsilonChoice | neogenesis_system/cognitive_engine/mab_converger.py:1958-1997 | explores (the random pick) exactly when the uniform draw is below the tool exploration rate, and otherwise returns the first tool with the highest exploitation score |
| ToolScoring.RunToolAlgorithm | neogenesis_system/cognitive_engine/mab_converger.py:1350-1360 | the UCB and epsilon-greedy names run their rules; any other name runs Thompson sampling |
| ToolScoring.ToolChoiceDeterministic | neogenesis_system/cognitive_engine/mab_converger.py:1350-1360 | given the draws, each algorithm's rule names exactly one candidate |
| ToolScoring.FirstMaxUnique | neogenesis_system/cognitive_engine/mab_converger.py:1903-1905 | a first maximum is unique, so a strict `>` scan has one possible result |
| StateManagement.StageFromName | neogenesis_langchain/state/state_management.py:41-49 | a name that decodes gives a stage with exactly that name; other names are rejected as the enum constructor rejects them |
| StateManagement.StageNameRoundTrip | neogenesis_langchain/state/state_management.py:41-49 | every stage's value decodes back to that stage |
| StateManagement.Get | neogenesis_langchain/state/state_management.py:314-315 | a missing key gives the default |
| StateManagement.NewDecisionState | neogenesis_langchain/state/state_management.py:258-265 | a new session is at the thinking-seed stage with no stage results and created and updated now |
| StateManagement.UpdateStage | neogenesis_langchain/state/state_management.py:83-97 | the stage becomes current, its result is stored under its name, the time is updated, identity fields are kept, a failed result leaves the intermediate data as it was, and the stage counts as completed exactly when the result succeeded |
| StateManagement.CompletedFlags | neogenesis_langchain/state/state_management.py:103-113 | one flag per working stage, each true exactly when that stage is completed |
| StateManagement.CompletionRate | neogenesis_langchain/state/state_management.py:108-113 | the completion rate is in [0, 1] |
| StateManagement.CompletionRateFull | neogenesis_langchain/state/state_management.py:108-113 | the rate is 1 exactly when all five working stages are completed |
| StateManagement.SuccessNeverLowersCompletion | neogenesis_langchain/state/state_management.py:83-113 | recording a successful stage never lowers the completion rate |
| StateManagement.FromDict | neogenesis_langchain/state/state_management.py:129-142 | conversion succeeds exactly when the current stage and every stored result's stage name are valid |
| StateManagement.FromDictToDict | neogenesis_langchain/state/state_management.py:116-142 | converting a state to its dictionary form and back gives the same state |
| StateManagement.ToDictFromDict | neogenesis_langchain/state/state_management.py:116-142 | a record that converts to a state is that state's dictionary form |
| StateManagement.CountConfidence | neogenesis_langchain/state/state_management.py:170-181 | the confidence is in [0, 1], 0.5 for an unused strategy and 1 from ten uses on |
| StateManagement.ConfidenceMonotone | neogenesis_langchain/state/state_management.py:176-181 | past the first use, more uses never lower the confidence |
| StateManagement.MabWeights.constructor | neogenesis_langchain/state/state_management.py:145-151 | no strategies and no rounds |
| StateManagement.MabWeights.UpdateStrategy | neogenesis_langchain/state/state_management.py:153-168 | the reward is appended to the strategy's rewards, its count becomes their number and its weight their mean; the round count goes up by one; each strategy's weight stays the mean of its rewards |
| StateManagement.MabWeights.StrategyConfidence | neogenesis_langchain/state/state_management.py:170-181 | in [0, 1], and 0.5 for an unknown strategy |
| StateManagement.AllSuccessWeight | neogenesis_langchain/state/state_management.py:162-164 | a strategy rewarded only with 1.0 has weight 1.0 |
| StateManagement.DecisionStrategy | neogenesis_langchain/state/state_management.py:313-315 | a selected path that is not a dictionary raises; a strategy is rewarded only under a non-empty id |
| StateManagement.CreationEntries | neogenesis_langchain/state/state_management.py:413-414 | one (id, creation time) pair per session, in insertion order |
| StateManagement.Ids | neogenesis_langchain/state/state_management.py:417-419 | the ids of the entries, in order |
| StateManagement.OldestFirst | neogenesis_langchain/state/state_management.py:413-414 | the sort keeps every session, one entry each |
| StateManagement.CleanupAsWritten | neogenesis_langchain/state/state_management.py:408-420 | as written: below the limit nothing changes, and a cleanup that succeeds only deletes sessions, leaving the others untouched |
| StateManagement.CleanupRaisesBelowHundred | neogenesis_langchain/state/state_management.py:408-420 | at the limit the cleanup as written raises exactly when the limit is below 100 |
| StateManagement.SmallLimitCleanupRaises | neogenesis_langchain/state/state_management.py:408-420 | one session with a limit of one: the cleanup raises |
| StateManagement.CleanupTake | neogenesis_langchain/state/state_management.py:416 | the corrected cleanup deletes no more sessions than exist |
| StateManagement.CleanedUp | neogenesis_langchain/state/state_management.py:408-420 | the corrected cleanup keeps surviving sessions unchanged and, at the limit, removes exactly the doomed oldest ones |
| StateManagement.OldestFirstEntry | neogenesis_langchain/state/state_management.py:413-414 | every sorted entry is a session id with its creation time |
| StateManagement.OldestFirstCovers | neogenesis_langchain/state/state_management.py:413-414 | every session appears in the sorted list |
| StateManagement.KeptAfterPrefix | neogenesis_langchain/state/state_management.py:413-419 | a kept session sits after the deleted prefix |
| StateManagement.CleanedUpSize | neogenesis_langchain/state/state_management.py:408-420 | after cleanup at most max_sessions - 100 sessions remain (none when the limit is below 100) |
| StateManagement.KeptInRest | neogenesis_langchain/state/state_management.py:413-419 | every kept session comes after the deleted prefix of the oldest-first order |
| StateManagement.CleanedUpOldestFirst | neogenesis_langchain/state/state_management.py:408-420 | no deleted session is newer than a kept one |
| StateManagement.DeleteEach | neogenesis_langchain/state/state_management.py:417-419 | the loop deletes exactly the listed sessions |
| StateManagement.StateManager.constructor | neogenesis_langchain/state/state_management.py:207-233 | no sessions and the given limit |
| StateManagement.StateManager.CleanupOldSessions | neogenesis_langchain/state/state_management.py:408-420 | the sessions become the corrected cleanup of the old sessions; corrected (README Finding 3) |
| StateManagement.StateManager.CreateSession | neogenesis_langchain/state/state_management.py:235-271 | at the limit old sessions are cleaned up first; the new thinking-seed session is stored under its id; sessions stay keyed by their ids and within capacity; corrected (README Finding 3) |
| StateManagement.StateManager.GetSession | neogenesis_langchain/state/state_management.py:273-279 | a session is found exactly when it is active, and it is that session |
| StateManagement.StateManager.UpdateSessionStage | neogenesis_langchain/state/state_management.py:281-333 | an unknown session gives false and changes nothing; otherwise the stage result is recorded, and only a successful MAB decision naming a strategy rewards it with 1.0 |
| StateManagement.StateManager.CompleteSession | neogenesis_langchain/state/state_management.py:335-348 | true exactly for a known session, which becomes completed now; otherwise nothing changes |
| StateManagement.StateManager.CleanupSession | neogenesis_langchain/state/state_management.py:394-406 | true exactly for an active session, which is removed |
| StateManagement.StateManager.StrategyRecommendation | neogenesis_langchain/state/state_management.py:354-369 | "" for no strategies; otherwise the first strategy of highest weight, unknown strategies weighing 0.5 |
| StateManagement.WeightsOf | neogenesis_langchain/state/state_management.py:359-363 | each strategy's weight, 0.5 when unknown |
| Deadlock.SuffixPath | neogenesis_langchain/state/state_transactions.py:157-158 | a suffix of a wait path is a wait path |
| Deadlock.CycleAt | neogenesis_langchain/state/state_transactions.py:157-158 | the slice from the first occurrence of the met node is a cycle of the wait graph starting at that node |
| Deadlock.Dfs | neogenesis_langchain/state/state_transactions.py:146-163 | the search only adds visited transactions of the graph, every cycle it records is a cycle of the graph, and with the node popped on every return the recursion stack is restored and the search never raises |
| Deadlock.DfsQuiet | neogenesis_langchain/state/state_transactions.py:146-163 | the corrected search never drops a recorded cycle, records one whenever it reports finding one, and when it finds nothing leaves no cycle through a finished transaction; corrected (README Finding 4) |
| Deadlock.Scan | neogenesis_langchain/state/state_transactions.py:151-161 | the successor loop keeps the same guarantees: visited only grows within the graph, recorded cycles are real cycles, and the corrected stack is restored |
| Deadlock.ScanQuiet | neogenesis_langchain/state/state_transactions.py:151-161 | the corrected successor loop never drops a recorded cycle, records one whenever it reports finding one, and when it finds nothing leaves no cycle through a finished transaction; corrected (README Finding 4) |
| Deadlock.ScanFinished | neogenesis_langchain/state/state_transactions.py:151-161 | when the corrected successor loop finds nothing, every successor from its start position on is finished; corrected (README Finding 4) |
| Deadlock.Roots | neogenesis_langchain/state/state_transactions.py:165-168 | the outer loop over the graph's keys keeps every recorded cycle a real cycle, and the corrected search ends with an empty stack and no error; corrected (README Finding 4) |
| Deadlock.RootsQuiet | neogenesis_langchain/state/state_transactions.py:165-168 | the corrected outer loop never drops a recorded cycle, and when it records none it leaves no cycle through a finished transaction; corrected (README Finding 4) |
| Deadlock.RootsVisitAll | neogenesis_langchain/state/state_transactions.py:165-168 | the corrected outer loop finishes every key of the graph; corrected (README Finding 4) |
| Deadlock.RootStep | neogenesis_langchain/state/state_transactions.py:166-168 | one search from an unvisited key finishes that key, keeps the stack empty and the search free of errors, and keeps a cycle-free search quiet; corrected (README Finding 4) |
| Deadlock.Detect | neogenesis_langchain/state/state_transactions.py:139-170 | the corrected search never raises, every cycle it reports is a cycle of the wait graph, and it reports one exactly when the graph has a cycle; corrected (README Finding 4) |
| Deadlock.DetectCycles | neogenesis_langchain/state/state_transactions.py:139-170 | every reported cycle is a cycle of the wait graph, and some cycle is reported exactly when the graph has one; corrected (README Finding 4) |
| Deadlock.FinishQuiet | neogenesis_langchain/state/state_transactions.py:151-163 | a transaction whose successors are all finished can be finished without any cycle passing through a finished transaction |
| Deadlock.QuietEnd | neogenesis_langchain/state/state_transactions.py:165-168 | when every key is finished and no cycle passes through a finished transaction, the graph has no cycle |
| Deadlock.StaleNodes | neogenesis_langchain/state/state_transactions.py:125-129 | the sample graph built by three wait edges holds exactly A, B and C |
| Deadlock.SearchFromB | neogenesis_langchain/state/state_transactions.py:151-160 | from B the search meets A on its own path and records the cycle A, B |
| Deadlock.SearchFromA | neogenesis_langchain/state/state_transactions.py:146-163 | the search from A records the cycle A, B and, as written, leaves A and B on the recursion stack |
| Deadlock.StaleStackRaises | neogenesis_langchain/state/state_transactions.py:153-162 | as written, the search from C meets A on the stale stack but not on its path, and the index lookup raises |
| Deadlock.StaleSampleCorrected | neogenesis_langchain/state/state_transactions.py:146-170 | popping the node on every return, the same graph yields exactly the cycle A, B |
| Deadlock.AddTo | neogenesis_langchain/state/state_transactions.py:128-129 | adding to a set keeps the old members, adds the new one, and adds no duplicate |
| Deadlock.WithEdge | neogenesis_langchain/state/state_transactions.py:125-128 | the waiting transaction now also waits for the holder; no other edge appears or disappears |
| Deadlock.WithResource | neogenesis_langchain/state/state_transactions.py:129 | the holder joins the resource's holder set; other resources are untouched and no holder is lost |
| Deadlock.WithoutEdge | neogenesis_langchain/state/state_transactions.py:131-137 | exactly that edge disappears, a waiting transaction left waiting for nothing is dropped, and no transaction is added |
| Deadlock.Victim | neogenesis_langchain/state/state_transactions.py:179 | the victim belongs to the cycle and no member is lexicographically larger |
| Deadlock.Victims | neogenesis_langchain/state/state_transactions.py:174-191 | one victim per non-empty cycle and no other victims |
| Deadlock.DropVictim | neogenesis_langchain/state/state_transactions.py:183-189 | every edge from or to the victim disappears, all other edges stay, and only the victim's own entry leaves the graph |
| Deadlock.DropAll | neogenesis_langchain/state/state_transactions.py:176-189 | the edges left are exactly those touching no victim |
| Deadlock.ResolveBreaksCycles | neogenesis_langchain/state/state_transactions.py:172-191 | once the victims are dropped, none of the cycles passed in is a cycle of the graph any more |
| Deadlock.PurgeStep | neogenesis_langchain/state/state_transactions.py:201-204 | one node stops waiting for the transaction and leaves once it waits for nothing; others are untouched |
| Deadlock.PurgeKeys | neogenesis_langchain/state/state_transactions.py:201-204 | the loop does that for every listed key and nothing else |
| Deadlock.Purged | neogenesis_langchain/state/state_transactions.py:193-204 | no edge from or to the transaction remains, every other edge stays, and no transaction is left waiting for nothing |
| Deadlock.PurgedLocks | neogenesis_langchain/state/state_transactions.py:207-210 | the transaction leaves every listed resource's holder set and emptied sets are removed |
| Deadlock.DeadlockDetector.constructor | neogenesis_langchain/state/state_transactions.py:120-123 | an empty wait graph and no resource holders |
| Deadlock.DeadlockDetector.AddWaitEdge | neogenesis_langchain/state/state_transactions.py:125-129 | the graph gains the edge and the resource gains the holder |
| Deadlock.DeadlockDetector.RemoveWaitEdge | neogenesis_langchain/state/state_transactions.py:131-137 | the graph loses exactly that edge |
| Deadlock.DeadlockDetector.ResolveDeadlock | neogenesis_langchain/state/state_transactions.py:172-191 | the victims are one per non-empty cycle, in order, and all of them are dropped from the graph |
| Deadlock.DeadlockDetector.CleanupTransaction | neogenesis_langchain/state/state_transactions.py:193-210 | the graph and the resource table are purged of the transaction |
| Deadlock.DeadlockDetector.PurgeWaits | neogenesis_langchain/state/state_transactions.py:196-204 | the wait graph is purged of the transaction |
| Deadlock.DeadlockDetector.PurgeResources | neogenesis_langchain/state/state_transactions.py:206-210 | the transaction leaves every holder set and emptied sets go |
| Transactions.NewTransaction | neogenesis_langchain/state/state_transactions.py:408-415 | a new transaction is active, started now, with no operations and no locks |
| Transactions.Duration | neogenesis_langchain/state/state_transactions.py:105-111 | zero when never started; a commit time that is set ends the duration, measured from the start |
| Transactions.RollbackIdentity | neogenesis_langchain/state/state_transactions.py:649-675 | undoing, newest first, operations whose recorded old values are still current leaves the store as it is |
| Transactions.ApplyElsewhere | neogenesis_langchain/state/state_transactions.py:577-595 | committing leaves every key that no write or delete names as it was |
| Transactions.ApplyLastWins | neogenesis_langchain/state/state_transactions.py:577-595 | after a commit each key holds what its last write or delete left |
| Transactions.Granted | neogenesis_langchain/state/state_transactions.py:724-725 | the key's holders gain the transaction and no other key changes |
| Transactions.ReleasedStep | neogenesis_langchain/state/state_transactions.py:759-769 | the release loop discards the transaction from one key at a time |
| Transactions.ReleasedFacts | neogenesis_langchain/state/state_transactions.py:752-769 | after the release no released key lists the transaction, every other holder keeps its keys, and no holder is added |
| Transactions.RunningMeanIsMean | neogenesis_langchain/state/state_transactions.py:615-619 | the running average of commit durations is the mean of all durations so far |
| Transactions.WriteLockIsExclusive | neogenesis_langchain/state/state_transactions.py:729-750 | under the lock discipline a write-locked key has no other holder |
| Transactions.Clean | neogenesis_langchain/state/state_transactions.py:752-771 | releasing a transaction and dropping it keeps the store and the statistics |
| Transactions.CleanPreserves | neogenesis_langchain/state/state_transactions.py:752-771 | releasing a transaction's locks and dropping it keeps the lock discipline |
| Transactions.CleanLocks | neogenesis_langchain/state/state_transactions.py:759-769 | the released table stays well formed and writers stay exclusive |
| Transactions.CleanHolders | neogenesis_langchain/state/state_transactions.py:759-771 | every remaining holder is active and holds what it records |
| Transactions.AbortSpec | neogenesis_langchain/state/state_transactions.py:635-700 | true exactly for a known transaction, which leaves the active table; otherwise nothing changes |
| Transactions.AbortKeepsStore | neogenesis_langchain/state/state_transactions.py:649-675 | under the lock discipline an abort leaves the store as it was before the transaction's changes, which were only buffered |
| Transactions.AbortPreserves | neogenesis_langchain/state/state_transactions.py:635-700 | an abort keeps the lock discipline |
| Transactions.AbortEach | neogenesis_langchain/state/state_transactions.py:778-783 | aborting the victims in turn keeps the wait graph well formed |
| Transactions.AbortEachActive | neogenesis_langchain/state/state_transactions.py:778-783 | exactly the victims leave the active table |
| Transactions.AbortEachPreserves | neogenesis_langchain/state/state_transactions.py:778-783 | aborting victims keeps the lock discipline |
| Transactions.HandleSpec | neogenesis_langchain/state/state_transactions.py:773-784 | handling deadlocks keeps the wait graph well formed |
| Transactions.HandleAbortsVictims | neogenesis_langchain/state/state_transactions.py:773-784 | every victim of a reported cycle is gone from the active table, and no transaction becomes active |
| Transactions.HandlePreserves | neogenesis_langchain/state/state_transactions.py:773-784 | handling deadlocks keeps the lock discipline |
| Transactions.Blocked | neogenesis_langchain/state/state_transactions.py:713-719 | a refused lock is always refused, whether or not deadlocks were found and handled; corrected (README Finding 4) |
| Transactions.BlockedPreserves | neogenesis_langchain/state/state_transactions.py:713-719 | the refusal path keeps the lock discipline |
| Transactions.Waiting | neogenesis_langchain/state/state_transactions.py:125-129 | a new wait changes only the detector's graph and resource table |
| Transactions.ReadBlocker | neogenesis_langchain/state/state_transactions.py:711-714 | a blocker is a holder that write-locks the key (the reader itself only as written); no blocker means no such holder |
| Transactions.OwnWriteLockBlocksRead | neogenesis_langchain/state/state_transactions.py:709-727 | as written, a transaction reading a key it write-locked blocks on itself, its wait is a cycle of one and it is chosen as its own victim |
| Transactions.SelfWaitIsDeadlock | neogenesis_langchain/state/state_transactions.py:125-191 | a transaction waiting for itself forms a cycle of one, which detection reports and whose victim is that transaction |
| Transactions.SelfLoopDetected | neogenesis_langchain/state/state_transactions.py:139-170 | on a graph with only a self-wait the search reports exactly that cycle |
| Transactions.AcquireReadSpec | neogenesis_langchain/state/state_transactions.py:709-727 | the read lock is granted exactly when no blocker holds the key, and then only the lock table changes; corrected (README Findings 4 and 5) |
| Transactions.EdgesTo | neogenesis_langchain/state/state_transactions.py:737-738 | the transaction now waits for each other holder; no other edge changes |
| Transactions.WaitingAll | neogenesis_langchain/state/state_transactions.py:737-738 | the waits keep the wait graph well formed |
| Transactions.OwnWriteLockGrantsRead | neogenesis_langchain/state/state_transactions.py:709-727 | corrected, a transaction that write-locked a key reads it under its own lock and nothing changes |
| Transactions.AcquireWriteSpec | neogenesis_langchain/state/state_transactions.py:729-750 | the write lock is granted exactly when nobody else holds the key, and then only the lock table changes; corrected (README Finding 4) |
| Transactions.BlockedWaitingOnePreserves | neogenesis_langchain/state/state_transactions.py:713-719 | a refused read lock keeps the lock discipline |
| Transactions.BlockedWaitingPreserves | neogenesis_langchain/state/state_transactions.py:735-745 | a refused write lock keeps the lock discipline |
| Transactions.BeginSpec | neogenesis_langchain/state/state_transactions.py:393-435 | an id in use raises; a new id becomes an active transaction with no operations and the total count goes up by one |
| Transactions.BeginPreserves | neogenesis_langchain/state/state_transactions.py:393-435 | beginning a transaction keeps the lock discipline |
| Transactions.ReadSpec | neogenesis_langchain/state/state_transactions.py:437-477 | an inactive transaction raises and nothing changes; a successful read returns the stored value and leaves the store alone; corrected (README Findings 4 and 5) |
| Transactions.ReadPreserves | neogenesis_langchain/state/state_transactions.py:437-477 | a read keeps the lock discipline |
| Transactions.GrantLocks | neogenesis_langchain/state/state_transactions.py:724-725 | a recorded grant keeps the lock table well formed and in step with the transactions |
| Transactions.GrantOps | neogenesis_langchain/state/state_transactions.py:502-514 | a grant keeps every buffered old value current |
| Transactions.ReadGrantExclusive | neogenesis_langchain/state/state_transactions.py:709-727 | a read lock granted because no other holder writes the key keeps writers exclusive |
| Transactions.WriteGrantExclusive | neogenesis_langchain/state/state_transactions.py:729-750 | a write lock granted because nobody else holds the key keeps writers exclusive |
| Transactions.BufferPreserves | neogenesis_langchain/state/state_transactions.py:462-471 | buffering a read keeps the lock discipline |
| Transactions.ChangeOp | neogenesis_langchain/state/state_transactions.py:502-514 | the buffered operation names the key, records the value it held and leaves the written value or nothing |
| Transactions.ChangeSpec | neogenesis_langchain/state/state_transactions.py:479-559 | an inactive transaction raises and nothing changes; a successful write or delete returns true and leaves the store alone until commit; corrected (README Finding 4) |
| Transactions.ChangePreserves | neogenesis_langchain/state/state_transactions.py:479-559 | writes and deletes keep the lock discipline |
| Transactions.OnlyHolder | neogenesis_langchain/state/state_transactions.py:732-750 | holders with nobody but the writer among them are the writer alone once it is added |
| Transactions.CommitSpec | neogenesis_langchain/state/state_transactions.py:561-633 | an inactive transaction raises; otherwise the store becomes the buffered operations applied in order, the transaction leaves the active table and the commit count goes up by one |
| Transactions.CommitPreserves | neogenesis_langchain/state/state_transactions.py:561-633 | a commit keeps the lock discipline |
| Transactions.TransactionManager.constructor | neogenesis_langchain/state/state_transactions.py:352-391 | no transactions, locks or stored values, and zeroed statistics |
| Transactions.TransactionManager.Begin | neogenesis_langchain/state/state_transactions.py:393-435 | the state and result are those of beginning the given or generated id |
| Transactions.TransactionManager.ReleaseLocks | neogenesis_langchain/state/state_transactions.py:752-771 | an unknown transaction changes nothing; otherwise it leaves every key it holds and the detector forgets it |
| Transactions.TransactionManager.Abort | neogenesis_langchain/state/state_transactions.py:635-700 | the state and result are those of the abort |
| Transactions.TransactionManager.HandleDeadlocks | neogenesis_langchain/state/state_transactions.py:773-784 | the state is that of handling the cycles; corrected (README Finding 4) |
| Transactions.TransactionManager.AbortVictims | neogenesis_langchain/state/state_transactions.py:778-783 | the state is that of aborting each victim in turn |
| Transactions.TransactionManager.AcquireReadLock | neogenesis_langchain/state/state_transactions.py:709-727 | the state and result are those of the corrected read lock; corrected (README Findings 4 and 5) |
| Transactions.TransactionManager.WaitForAll | neogenesis_langchain/state/state_transactions.py:737-738 | the state is that of the added waits |
| Transactions.TransactionManager.AcquireWriteLock | neogenesis_langchain/state/state_transactions.py:729-750 | the state and result are those of the write lock; corrected (README Finding 4) |
| Transactions.TransactionManager.Read | neogenesis_langchain/state/state_transactions.py:437-477 | the state and result are those of the read; corrected (README Findings 4 and 5) |
| Transactions.TransactionManager.Write | neogenesis_langchain/state/state_transactions.py:479-519 | the state and result are those of buffering the write; corrected (README Finding 4) |
| Transactions.TransactionManager.Delete | neogenesis_langchain/state/state_transactions.py:521-559 | the state and result are those of buffering the delete; corrected (README Finding 4) |
| Transactions.TransactionManager.Commit | neogenesis_langchain/state/state_transactions.py:561-633 | the state and result are those of the commit |
| ExecutionEngines.EstimateResources | neogenesis_system/langchain_integration/execution_engines.py:239-273 | every tool needs each of the four constrained resources, a positive amount within that resource's limit |
| ExecutionEngines.DefaultLimits | neogenesis_system/langchain_integration/execution_engines.py:116-121 | exactly CPU, memory, network and API quota are constrained |
| ExecutionEngines.DependentsOf | neogenesis_system/langchain_integration/execution_engines.py:207-210 | exactly the graph's nodes that depend on the given one, each once |
| ExecutionEngines.Filed | neogenesis_system/langchain_integration/execution_engines.py:184-205 | every planned tool is filed under its own name |
| ExecutionEngines.BuildGraph | neogenesis_system/langchain_integration/execution_engines.py:179-213 | every planned tool has a node, and each node lists as dependents exactly the nodes of the graph that depend on it |
| ExecutionEngines.ReadyAmong | neogenesis_system/langchain_integration/execution_engines.py:605-608 | exactly the listed nodes whose dependencies are all processed, each once |
| ExecutionEngines.DependentFacts | neogenesis_system/langchain_integration/execution_engines.py:207-210 | a dependent of a node is a node of the graph that depends on it, and conversely |
| ExecutionEngines.DropOne | neogenesis_system/langchain_integration/execution_engines.py:605-606 | processing a node removes exactly one unprocessed dependency from a dependent, which becomes ready exactly when none is left |
| ExecutionEngines.PartStep | neogenesis_system/langchain_integration/execution_engines.py:605-608 | a dependent's in-degree reaches zero exactly when all its dependencies are processed |
| ExecutionEngines.ReleaseDependents | neogenesis_system/langchain_integration/execution_engines.py:603-608 | the in-degrees keep counting unprocessed dependencies, and the queue gains exactly the dependents that became ready, in order |
| ExecutionEngines.ProcessLevel | neogenesis_system/langchain_integration/execution_engines.py:600-608 | after a level the in-degrees count the dependencies left unprocessed and the queue holds what the level released |
| ExecutionEngines.ReleasedExactly | neogenesis_system/langchain_integration/execution_engines.py:600-608 | a level releases each node once, exactly the nodes it made ready |
| ExecutionEngines.OldLayer | neogenesis_system/langchain_integration/execution_engines.py:595-598 | an emitted level keeps its place when another is appended |
| ExecutionEngines.NewLayer | neogenesis_system/langchain_integration/execution_engines.py:595-598 | a new level lies after all the dependencies of its nodes |
| ExecutionEngines.ProgressStep | neogenesis_system/langchain_integration/execution_engines.py:593-608 | emitting the queue as a level and queueing what it releases keeps the sort's invariant and shrinks the unprocessed nodes |
| ExecutionEngines.ProgressEnd | neogenesis_system/langchain_integration/execution_engines.py:593-612 | with the queue empty, the levels are non-empty, ordered after their dependencies, repeat no node, and hold a node exactly when they hold its dependencies |
| ExecutionEngines.AnalyzeDependencies | neogenesis_system/langchain_integration/execution_engines.py:574-612 | every emitted node comes after all its dependencies and none twice; a node is emitted exactly when all its dependencies are, so one on a cycle or with a missing dependency never is; the first level is the dependency-free nodes in graph order |
| ExecutionEngines.Degrees | neogenesis_system/langchain_integration/execution_engines.py:586-588 | each node's in-degree starts at its number of dependencies |
| ExecutionResources.ResourceName | neogenesis_system/langchain_integration/execution_engines.py:44-50 | every resource has a non-empty value |
| ExecutionResources.LastLetters | neogenesis_system/langchain_integration/execution_engines.py:44-50 | each resource value ends in a letter of its own |
| ExecutionResources.AllocationKeyInjective | neogenesis_system/langchain_integration/execution_engines.py:337 | two ledger keys coincide exactly when they are for the same batch and resource |
| ExecutionResources.Charge | neogenesis_system/langchain_integration/execution_engines.py:336 | charging keeps the set of tracked resources |
| ExecutionResources.Refund | neogenesis_system/langchain_integration/execution_engines.py:513 | refunding keeps the set of tracked resources |
| ExecutionResources.Record | neogenesis_system/langchain_integration/execution_engines.py:337 | the ledger gains exactly the batch's keys |
| ExecutionResources.ReleaseUndoesAllocate | neogenesis_system/langchain_integration/execution_engines.py:334-338 | releasing a batch after allocating it restores the usage, and the ledger unless it already held one of the batch's keys |
| ExecutionResources.AllocationEntries | neogenesis_system/langchain_integration/execution_engines.py:334-338 | after allocating, the ledger holds each need under the batch's key; after releasing, none of the batch's keys and every other entry |
| ExecutionResources.ChargeWithinLimits | neogenesis_system/langchain_integration/execution_engines.py:325-332 | a batch passes the check exactly when charging it keeps each of its resources within the limit, and then no limit is exceeded |
| ExecutionResources.HighLowPartition | neogenesis_system/langchain_integration/execution_engines.py:342-343 | the urgent and the other nodes together are the batch's nodes, each class holding only its own priorities |
| ExecutionResources.AllNodesOne | neogenesis_system/langchain_integration/execution_engines.py:340-364 | the nodes of one batch are its own |
| ExecutionResources.SplitNodes | neogenesis_system/langchain_integration/execution_engines.py:340-364 | the split batches hold the urgent nodes first, then the others |
| ExecutionResources.SplitKeepsNodes | neogenesis_system/langchain_integration/execution_engines.py:340-364 | splitting keeps every node and adds none |
| ExecutionResources.SplitShape | neogenesis_system/langchain_integration/execution_engines.py:340-364 | at most two parts, each non-empty, of one priority class, named after the batch and timed by the sum of its nodes' durations |
| ExecutionResources.Final | neogenesis_system/langchain_integration/execution_engines.py:308-323 | the ledger after allocation tracks the same resources |
| ExecutionResources.Unfold | neogenesis_system/langchain_integration/execution_engines.py:311-321 | allocation handles one batch, then the rest |
| ExecutionResources.AllottedKeepsNodes | neogenesis_system/langchain_integration/execution_engines.py:308-323 | allocation neither loses nor invents a node |
| ExecutionResources.FinalWithinLimits | neogenesis_system/langchain_integration/execution_engines.py:308-323 | allocation never takes a resource past its limit |
| ExecutionResources.SplitNotCharged | neogenesis_system/langchain_integration/execution_engines.py:312-321 | a batch that fits is charged and kept whole; a batch that is split leaves the usage as it was |
| ExecutionResources.ScheduledBatchesLimited | neogenesis_system/langchain_integration/execution_engines.py:325-332 | every scheduled batch needs only resources that have a limit, so the availability check never looks up a missing limit |
| ExecutionResources.ExecutionEngine.constructor | neogenesis_system/langchain_integration/execution_engines.py:115-131 | the four default limits, nothing used and nothing allocated |
| ExecutionResources.ExecutionEngine.CheckResourceAvailability | neogenesis_system/langchain_integration/execution_engines.py:325-332 | true exactly when every need fits in what is left of its limit |
| ExecutionResources.ExecutionEngine.AllocateBatchResources | neogenesis_system/langchain_integration/execution_engines.py:334-338 | the usage and ledger become the batch's allocation |
| ExecutionResources.ExecutionEngine.ReleaseBatchResources | neogenesis_system/langchain_integration/execution_engines.py:511-517 | the usage and ledger become the batch's release |
| ExecutionResources.ExecutionEngine.AllocateResources | neogenesis_system/langchain_integration/execution_engines.py:308-323 | the returned batches and the new ledger are those of allocating each batch that fits and splitting the others |
| ExecutionResources.ChargeBatch | neogenesis_system/langchain_integration/execution_engines.py:334-338 | the loop over the needs gives the batch's allocation |
| ExecutionResources.RefundBatch | neogenesis_system/langchain_integration/execution_engines.py:511-517 | the loop over the needs gives the batch's release |
| ExecutionScheduler.MaxDuration | neogenesis_system/langchain_integration/execution_engines.py:647 | the result is at least every node's duration and is one of them |
| ExecutionScheduler.NodesOf | neogenesis_system/langchain_integration/execution_engines.py:637 | the nodes of the named tools, one per name, in order |
| ExecutionScheduler.AllNodesAppend | neogenesis_system/langchain_integration/execution_engines.py:618-673 | the nodes of joined batch lists are the nodes of each, in order |
| ExecutionScheduler.Singles | neogenesis_system/langchain_integration/execution_engines.py:652-660 | one batch per node |
| ExecutionScheduler.SinglesFacts | neogenesis_system/langchain_integration/execution_engines.py:652-660 | each single batch holds one node, runs it alone and is timed by it; together they hold the nodes in order |
| ExecutionScheduler.SelectKind | neogenesis_system/langchain_integration/execution_engines.py:684-692 | each group holds only nodes of its kind |
| ExecutionScheduler.SelectPartition | neogenesis_system/langchain_integration/execution_engines.py:684-692 | the three groups together hold every node of the level exactly once |
| ExecutionScheduler.SelectStep | neogenesis_system/langchain_integration/execution_engines.py:684-692 | one more node joins the group of its own kind only |
| ExecutionScheduler.AdaptiveParts | neogenesis_system/langchain_integration/execution_engines.py:694-724 | the adaptive batches are the fast batch, the slow singles, then the low-priority batch |
| ExecutionScheduler.AdaptiveCover | neogenesis_system/langchain_integration/execution_engines.py:675-725 | every node of the level is in exactly one adaptive batch |
| ExecutionScheduler.FastShape | neogenesis_system/langchain_integration/execution_engines.py:697-704 | the fast batch is parallel, non-empty and holds only urgent nodes of at most ten seconds |
| ExecutionScheduler.LowShape | neogenesis_system/langchain_integration/execution_engines.py:717-724 | the low-priority batch is parallel, non-empty and holds only non-urgent nodes |
| ExecutionScheduler.SlowShape | neogenesis_system/langchain_integration/execution_engines.py:706-714 | each slow urgent node runs alone, sequentially |
| ExecutionScheduler.AdaptiveShape | neogenesis_system/langchain_integration/execution_engines.py:675-725 | no adaptive batch is empty; a parallel one holds nodes of one kind, and a node runs alone exactly when it is urgent and slow |
| ExecutionScheduler.WithUsage | neogenesis_system/langchain_integration/execution_engines.py:666-668 | every batch is kept, each given its usage |
| ExecutionScheduler.LevelBatchesCover | neogenesis_system/langchain_integration/execution_engines.py:640-664 | in every mode the batches of one level hold its nodes exactly once and none is empty |
| ExecutionScheduler.BatchesCoverLevels | neogenesis_system/langchain_integration/execution_engines.py:618-673 | in every mode the batches hold every node of every level exactly once and none is empty |
| ExecutionScheduler.SequentialOnePerNode | neogenesis_system/langchain_integration/execution_engines.py:651-660 | in sequential mode each batch runs exactly one node on its own, in level order, one batch per node |
| ExecutionScheduler.ParallelOnePerLevel | neogenesis_system/langchain_integration/execution_engines.py:641-649 | in parallel mode each non-empty level is one parallel batch timed by its slowest node |
| ExecutionScheduler.MaxUsageIsMax | neogenesis_system/langchain_integration/execution_engines.py:731-735 | a parallel batch's usage names exactly the resources its nodes need; each entry is at least every node's need and at least zero, and is zero or some node's need |
| ExecutionScheduler.ShareUsageIsMean | neogenesis_system/langchain_integration/execution_engines.py:736-740 | a sequential batch's usage names exactly the resources its nodes need, each the total need divided by the number of nodes |
| ExecutionScheduler.ReqSumAbsent | neogenesis_system/langchain_integration/execution_engines.py:736-740 | a resource no node needs adds up to zero |
| ExecutionScheduler.FoldMax | neogenesis_system/langchain_integration/execution_engines.py:733-735 | the loop over one node's needs gives that node folded into the maximum |
| ExecutionScheduler.FoldShare | neogenesis_system/langchain_integration/execution_engines.py:738-740 | the loop over one node's needs gives that node's share added |
| ExecutionScheduler.CalculateBatchResourceUsage | neogenesis_system/langchain_integration/execution_engines.py:727-742 | the usage is the batch's maximum or mean usage, by how it runs |
| ExecutionScheduler.PartitionByKind | neogenesis_system/langchain_integration/execution_engines.py:679-692 | the three groups are the nodes of each kind, in order |
| ExecutionScheduler.MakeSingles | neogenesis_system/langchain_integration/execution_engines.py:706-714 | one batch per node, each run alone |
| ExecutionScheduler.CreateAdaptiveBatches | neogenesis_system/langchain_integration/execution_engines.py:675-725 | the batches are the level's adaptive batches |
| ExecutionScheduler.CreateLevelBatches | neogenesis_system/langchain_integration/execution_engines.py:637-664 | the batches are those of the level by mode, adaptive for every mode other than parallel and sequential |
| ExecutionScheduler.PlanBatches | neogenesis_system/langchain_integration/execution_engines.py:633-664 | the batches are those planned for the non-empty levels, in order |
| ExecutionScheduler.PlanLevel | neogenesis_system/langchain_integration/execution_engines.py:633-664 | an empty level gives no batch; another gives its batches by mode |
| ExecutionScheduler.AttachUsage | neogenesis_system/langchain_integration/execution_engines.py:666-668 | every batch is given its usage |
| ExecutionScheduler.CreateExecutionBatches | neogenesis_system/langchain_integration/execution_engines.py:618-673 | the batches are the planned batches, each with its usage |
| MemoryStorage.EmptyBackend | neogenesis_langchain/storage/persistent_storage.py:901-905 | both stores start empty |
| MemoryStorage.NextVersion | neogenesis_langchain/storage/persistent_storage.py:923 | the next version is at least 1, and exactly 1 for a key without metadata |
| MemoryStorage.Store | neogenesis_langchain/storage/persistent_storage.py:907-934 | the value is kept under its key; its metadata is replaced by a fresh record with the next version, the rendered size, the digest and no accesses; other keys' metadata is untouched |
| MemoryStorage.Retrieve | neogenesis_langchain/storage/persistent_storage.py:936-954 | the stored value or None; the data is unchanged and a hit counts one access on that key's metadata only |
| MemoryStorage.Delete | neogenesis_langchain/storage/persistent_storage.py:956-970 | the key leaves both stores, whether or not it was there |
| MemoryStorage.KeysWithPrefix | neogenesis_langchain/storage/persistent_storage.py:976-980 | exactly the keys that start with the prefix, in order, each once |
| MemoryStorage.ListKeys | neogenesis_langchain/storage/persistent_storage.py:976-980 | exactly the stored keys that start with the prefix, each once; every key, in insertion order, for an empty prefix |
| MemoryStorage.StoreThenRetrieve | neogenesis_langchain/storage/persistent_storage.py:907-954 | a stored value is read back unchanged and its key exists |
| MemoryStorage.StoreElsewhere | neogenesis_langchain/storage/persistent_storage.py:907-954 | storing one key does not change what any other key reads |
| MemoryStorage.DeleteThenAbsent | neogenesis_langchain/storage/persistent_storage.py:956-980 | after a delete the key does not exist, reads back None and is listed under no prefix |
| MemoryStorage.StoreAll | neogenesis_langchain/storage/persistent_storage.py:907-934 | repeated stores keep the backend consistent |
| MemoryStorage.VersionCountsStores | neogenesis_langchain/storage/persistent_storage.py:907-934 | n stores of an absent key leave it at version n, and the last value wins |
| MemoryStorage.DeleteResetsVersion | neogenesis_langchain/storage/persistent_storage.py:923-970 | deleting and storing again restarts the version at 1 |
| MemoryStorage.MemoryBackend.constructor | neogenesis_langchain/storage/persistent_storage.py:901-905 | both stores start empty |
| MemoryStorage.MemoryBackend.StoreValue | neogenesis_langchain/storage/persistent_storage.py:907-934 | true, and the state is that of the store |
| MemoryStorage.MemoryBackend.RetrieveValue | neogenesis_langchain/storage/persistent_storage.py:936-954 | the state and result are those of the retrieval |
| MemoryStorage.MemoryBackend.DeleteValue | neogenesis_langchain/storage/persistent_storage.py:956-970 | true, and the state is that of the delete |
| MemoryStorage.MemoryBackend.GetMetadata | neogenesis_langchain/storage/persistent_storage.py:982-984 | metadata is found exactly for a stored key, and it names that key with a version of at least 1 |
| MemoryStorage.MemoryBackend.Cleanup | neogenesis_langchain/storage/persistent_storage.py:986-991 | both stores are emptied |
| LlmManager.FirstUsable | neogenesis_system/providers/llm_manager.py:305-309 | the first registered healthy name of the list, or none exactly when no listed name is usable |
| LlmManager.SelectProvider | neogenesis_system/providers/llm_manager.py:293-319 | the selection is registered and healthy, none exactly when no provider is healthy; a usable preference wins, then a usable configured primary provider |
| LlmManager.Recorded | neogenesis_system/providers/llm_manager.py:380-404 | a success counts, clears the errors and marks the provider healthy; an error counts, and the provider stays healthy exactly while it was healthy with fewer than three errors |
| LlmManager.AverageResponseTimeBounds | neogenesis_system/providers/llm_manager.py:393-397 | response times within a range keep the average within it once it has started |
| LlmManager.ThirdErrorMarksUnhealthy | neogenesis_system/providers/llm_manager.py:398-404 | a healthy provider without errors stays healthy through two consecutive errors and is unhealthy from the third |
| LlmManager.SuccessRestores | neogenesis_system/providers/llm_manager.py:387-391 | one success after any run of errors restores the provider, with no errors counted |
| LlmManager.WithCall | neogenesis_system/providers/llm_manager.py:380-404 | only the called provider's status changes, as one recorded call |
| LlmManager.Fallbacks | neogenesis_system/providers/llm_manager.py:326-330 | exactly the configured fallbacks that are registered and are not the selected provider |
| LlmManager.TryList | neogenesis_system/providers/llm_manager.py:321-330 | the selected provider first, then only registered fallbacks other than it; just the selected provider without automatic fallback |
| LlmManager.ExecuteAccounting | neogenesis_system/providers/llm_manager.py:332-378 | an answer comes from a provider to try and counts as a success; an all-failed error counts as a failure; a provider's own failed response is returned only when it was the only one to try; unhealthy providers are never called |
| LlmManager.HealthyFirstAnswers | neogenesis_system/providers/llm_manager.py:332-356 | a healthy selected provider that answers is the one whose answer is returned |
| LlmManager.ChatCompletion | neogenesis_system/providers/llm_manager.py:256-291 | every request is counted; without providers the manager reports an error and changes no status; with no healthy provider it reports an error; an answer counts as a success |
| LlmManager.SwitchThenSelect | neogenesis_system/providers/llm_manager.py:462-468 | after switching the primary provider to a usable one, a request without a preference selects it |
| LlmManager.LlmProviderManager.constructor | neogenesis_system/providers/llm_manager.py:65-146 | every registered provider starts enabled and healthy with one success; nothing counted; initialised exactly when a provider registered |
| LlmManager.LlmProviderManager.UpdateProviderStats | neogenesis_system/providers/llm_manager.py:380-404 | a registered provider's call is recorded; an unknown provider changes nothing |
| LlmManager.LlmProviderManager.ExecuteWithFallback | neogenesis_system/providers/llm_manager.py:321-378 | the state and response are those of executing over the selected provider's try list |
| LlmManager.LlmProviderManager.Chat | neogenesis_system/providers/llm_manager.py:256-291 | the state and response are those of the chat completion |
| LlmManager.LlmProviderManager.SwitchPrimaryProvider | neogenesis_system/providers/llm_manager.py:462-468 | true exactly for a registered healthy provider, which becomes primary; otherwise the configuration is unchanged |
| LlmManager.LlmProviderManager.HealthCheck | neogenesis_system/providers/llm_manager.py:470-493 | within the interval and unforced, the current health flags; otherwise each provider's flag becomes its check's verdict, a raising check marking it unhealthy, and the check time is stamped |
| SharedStructures.Elapsed | neogenesis_system/shared/data_structures.py:90-95 | the execution time exists exactly when both timestamps are truthy, and is then completion minus start |
| SharedStructures.Action.constructor | neogenesis_system/shared/data_structures.py:69-73 | a pending action with no timestamps; an empty id becomes `action_<tool>_<ms>` |
| SharedStructures.Action.StartExecution | neogenesis_system/shared/data_structures.py:75-78 | status becomes executing and the start time is recorded |
| SharedStructures.Action.CompleteExecution | neogenesis_system/shared/data_structures.py:80-83 | status becomes completed and the completion time is recorded |
| SharedStructures.Action.FailExecution | neogenesis_system/shared/data_structures.py:85-88 | status becomes failed and the completion time is recorded |
| SharedStructures.Action.ExecutionTime | neogenesis_system/shared/data_structures.py:90-95 | the action's execution time is `Elapsed` of its own timestamps |
| SharedStructures.WithStatus | neogenesis_system/shared/data_structures.py:163-171 | exactly the actions with the given status, each drawn from the plan, no more of them than the plan holds |
| SharedStructures.StatusListsDisjoint | neogenesis_system/shared/data_structures.py:163-171 | the pending and completed lists together never exceed the plan's actions |
| SharedStructures.Plan.constructor | neogenesis_system/shared/data_structures.py:127-131 | a created plan without actions; an empty id becomes `plan_<ms>` |
| SharedStructures.Plan.AddAction | neogenesis_system/shared/data_structures.py:133-135 | the action is appended, the count grows by one, and the plan is no longer a direct answer |
| SharedStructures.Plan.StartExecution | neogenesis_system/shared/data_structures.py:137-139 | status becomes executing |
| SharedStructures.Plan.CompleteExecution | neogenesis_system/shared/data_structures.py:141-143 | status becomes completed |
| SharedStructures.Plan.FailExecution | neogenesis_system/shared/data_structures.py:145-147 | status becomes failed |
| SharedStructures.Plan.CancelExecution | neogenesis_system/shared/data_structures.py:149-151 | status becomes cancelled |
| SharedStructures.Plan.PendingActions | neogenesis_system/shared/data_structures.py:163-166 | exactly the plan's pending actions |
| SharedStructures.Plan.CompletedActions | neogenesis_system/shared/data_structures.py:168-171 | exactly the plan's completed actions, and with the pending ones no more than the action count |
| SharedStructures.Successful | neogenesis_system/shared/data_structures.py:209-265 | an observation is listed iff it is in the context and successful |
| SharedStructures.Unsuccessful | neogenesis_system/shared/data_structures.py:257-260 | an observation is listed iff it is in the context and not successful |
| SharedStructures.ObservationsPartition | neogenesis_system/shared/data_structures.py:249-265 | successful and failed observations together are exactly all observations |
| SharedStructures.SuccessRate | neogenesis_system/shared/data_structures.py:249-255 | 0 with no observations, otherwise the successful share, always within [0, 1] |
| SharedStructures.SuccessRateExtremes | neogenesis_system/shared/data_structures.py:249-255 | the rate is 1 iff nothing failed and 0 iff nothing succeeded |
| SharedStructures.ExecutionContext.constructor | neogenesis_system/shared/data_structures.py:239-243 | an execution with no observations and no result; an empty id becomes `ctx_<ms>` |
| SharedStructures.ExecutionContext.AddObservation | neogenesis_system/shared/data_structures.py:245-247 | the observation is appended and the successful count grows by one exactly when it succeeded |
| SharedStructures.SuccessfulAppend | neogenesis_system/shared/data_structures.py:245-265 | appending an observation extends the successful list by it exactly when it succeeded |
| SharedStructures.EmptyNetwork | neogenesis_system/shared/data_structures.py:542-563 | a fresh network is well formed with no connections |
| SharedStructures.AddOnce | neogenesis_system/shared/data_structures.py:576-590 | the id is present afterwards, nothing else is added, the list stays duplicate-free and grows only for a new id |
| SharedStructures.Linked | neogenesis_system/shared/data_structures.py:565-597 | the list the type names gains the id once, other lists are unchanged, a given score is recorded, non-empty metadata replaces the old |
| SharedStructures.Unlinked | neogenesis_system/shared/data_structures.py:599-608 | the id leaves every list and both dictionaries; nothing else changes |
| SharedStructures.AddRelationshipConnections | neogenesis_system/shared/data_structures.py:565-613 | an add raises the connection count by one exactly when the id is new to a list of a known type |
| SharedStructures.AddRelationshipIdempotent | neogenesis_system/shared/data_structures.py:565-597 | adding the same relationship twice equals adding it once |
| SharedStructures.RemoveAbsentRelationship | neogenesis_system/shared/data_structures.py:599-608 | removing an id the network does not mention changes nothing |
| SharedStructures.RemoveUndoesAdd | neogenesis_system/shared/data_structures.py:565-608 | removing a relationship just added for a new id restores the network |
| SharedStructures.ConnectionStrength | neogenesis_system/shared/data_structures.py:615-620 | 0 without scores; the mean of scores that lie in [0, 1] lies in [0, 1] |
| SharedStructures.KnowledgeNetwork.constructor | neogenesis_system/shared/data_structures.py:542-563 | the network starts empty |
| SharedStructures.KnowledgeNetwork.AddRelationship | neogenesis_system/shared/data_structures.py:565-597 | the new state is `Linked` of the old |
| SharedStructures.KnowledgeNetwork.RemoveRelationship | neogenesis_system/shared/data_structures.py:599-608 | the new state is `Unlinked` of the old |
| SharedStructures.CredibilityFor | neogenesis_system/shared/data_structures.py:741-754 | the top level iff the average is at least 0.9, unverified iff below 0.1 |
| SharedStructures.CredibilityMonotone | neogenesis_system/shared/data_structures.py:741-754 | a higher average never earns a lower credibility level |
| SharedStructures.DatedAfter | neogenesis_system/shared/data_structures.py:734 | exactly the validations dated after the cutoff |
| SharedStructures.RecentValidations | neogenesis_system/shared/data_structures.py:734-737 | a non-empty selection of the history: the last day's validations, else the last three |
| SharedStructures.Assess | neogenesis_system/shared/data_structures.py:729-754 | no validations changes nothing; otherwise the level matches the new mean confidence, which stays in [0, 1] for confidences in [0, 1] |
| SharedStructures.AssessUniform | neogenesis_system/shared/data_structures.py:729-754 | validations all at one confidence yield that confidence and its level |
| SharedStructures.RecordedUsage | neogenesis_system/shared/data_structures.py:704-712 | one more access, and exactly one more success or one more failure according to the outcome |
| SharedStructures.UsageSuccessRate | neogenesis_system/shared/data_structures.py:784-790 | successes over applications, 0 with none, always within [0, 1] |
| SharedStructures.AdjustedConfidence | neogenesis_system/shared/data_structures.py:756-765 | unchanged until used; then moved at most 0.05, upward iff the success rate is at least one half, and kept in [0, 1] |
| SharedStructures.UsageCountsAgree | neogenesis_system/shared/data_structures.py:704-712 | after any run of recorded usages the access count equals successes plus failures |
| SharedStructures.Freshness | neogenesis_system/shared/data_structures.py:797-811 | the freshness score lies between 0.1 and 1.0 |
| SharedStructures.FreshnessNonIncreasing | neogenesis_system/shared/data_structures.py:797-811 | older knowledge never scores fresher |
| SharedStructures.ProvenanceIdsAsWritten | neogenesis_system/shared/data_structures.py:666-674 | as written: raises exactly when a provenance id is given but the knowledge id is empty |
| SharedStructures.GivenProvenanceIdWithoutKnowledgeIdRaises | neogenesis_system/shared/data_structures.py:666-674 | a record with its own provenance id and no knowledge id cannot be built |
| SharedStructures.ProvenanceIds | neogenesis_system/shared/data_structures.py:666-674 | corrected: both ids are set, given ids kept, empty ones stamped from the same clock reading |
| SharedStructures.ProvenanceIdsAgree | neogenesis_system/shared/data_structures.py:666-674 | wherever the written code succeeds, it gives the corrected ids |
| SharedStructures.KnowledgeProvenance.constructor | neogenesis_system/shared/data_structures.py:666-682 | ids by `ProvenanceIds`, zero usage counters, no sources, validations or tags; corrected (README Finding 7) |
| SharedStructures.KnowledgeProvenance.AddSource | neogenesis_system/shared/data_structures.py:684-690 | a source becomes primary when asked or when none exists, otherwise is appended; the source count follows |
| SharedStructures.KnowledgeProvenance.AddValidation | neogenesis_system/shared/data_structures.py:692-697 | the validation is recorded and confidence and credibility are reassessed by `Assess` |
| SharedStructures.KnowledgeProvenance.AddUpdate | neogenesis_system/shared/data_structures.py:699-702 | the update is appended |
| SharedStructures.KnowledgeProvenance.RecordUsage | neogenesis_system/shared/data_structures.py:704-715 | the counters advance by `RecordedUsage` and the confidence is `AdjustedConfidence`, within [0, 1] |
| SharedStructures.KnowledgeProvenance.AddContextTag | neogenesis_system/shared/data_structures.py:717-719 | the tag joins the set |
| SharedStructures.KnowledgeProvenance.RemoveContextTag | neogenesis_system/shared/data_structures.py:721-723 | the tag leaves the set; an absent tag is no error |
| SharedStructures.KnowledgeProvenance.SetExpiration | neogenesis_system/shared/data_structures.py:725-727 | the expiration date is set |
| SharedStructures.KnowledgeProvenance.FreshnessScore | neogenesis_system/shared/data_structures.py:792-811 | the record's freshness lies between 0.1 and 1.0 |
| CognitiveScheduler.MakeTask | neogenesis_system/core/cognitive_scheduler.py:44-56 | fields as given; an empty id becomes `<type>_<ms>`, a given id is kept |
| CognitiveScheduler.DetectIdleAsWritten | neogenesis_system/core/cognitive_scheduler.py:317-354 | as written: idle exactly when a task is completed and at least the minimum has passed since the recorded completion; a stale completion time is kept across new tasks |
| CognitiveScheduler.StaleCompletionSkipsIdleWait | neogenesis_system/core/cognitive_scheduler.py:330-346 | a completion seen while never idle leaves its time behind, so a later completion is idle at once without waiting |
| CognitiveScheduler.DetectIdle | neogenesis_system/core/cognitive_scheduler.py:317-354 | corrected: the same idle rule and enter/exit transitions, but an unfinished task clears the completion time |
| CognitiveScheduler.IdleWaitsAfterLatestCompletion | neogenesis_system/core/cognitive_scheduler.py:317-354 | with the correction, idleness is only reached the minimum idle duration after the latest completion began |
| CognitiveScheduler.IdleWaitsFrom | neogenesis_system/core/cognitive_scheduler.py:317-354 | the inductive step of the idle-wait property over a run of observations |
| CognitiveScheduler.InsertByPriority | neogenesis_system/core/cognitive_scheduler.py:626-628 | inserting a task keeps every queued task and adds exactly the new one |
| CognitiveScheduler.SortByPriority | neogenesis_system/core/cognitive_scheduler.py:626 | the sort is a permutation of the drained tasks |
| CognitiveScheduler.InsertByPriorityOrdered | neogenesis_system/core/cognitive_scheduler.py:626 | insertion into a priority-ordered queue stays ordered |
| CognitiveScheduler.SortByPriorityOrdered | neogenesis_system/core/cognitive_scheduler.py:626 | the drained tasks come back in non-increasing priority |
| CognitiveScheduler.HighPriorityQueue | neogenesis_system/core/cognitive_scheduler.py:610-637 | the new task is at the front, every queued task is kept, and the rest is in non-increasing priority |
| CognitiveScheduler.SelectUserDirectedStrategies | neogenesis_system/core/cognitive_scheduler.py:585-608 | one to three known strategies: the matched keyword groups' strategies in order, cut to three, or the default pair when nothing matches |
| CognitiveScheduler.TrendQueryMonitorsFirst | neogenesis_system/core/cognitive_scheduler.py:585-608 | a query naming a trend gets trend monitoring first |
| CognitiveScheduler.Unexpired | neogenesis_system/core/cognitive_scheduler.py:1580-1592 | exactly the active tasks not older than the timeout remain, each unchanged |
| CognitiveScheduler.CleanupMonotone | neogenesis_system/core/cognitive_scheduler.py:1580-1592 | a later cleanup keeps no more tasks than an earlier one, and cleanup is idempotent |
| CognitiveScheduler.MergeConfig | neogenesis_system/core/cognitive_scheduler.py:1116-1122 | keys of both; base-only keys kept; user values win unless both are sections, which merge recursively |
| CognitiveScheduler.MergeConfigSelf | neogenesis_system/core/cognitive_scheduler.py:1116-1122 | merging a configuration into itself returns it |
| CognitiveScheduler.MergeConfigIdempotent | neogenesis_system/core/cognitive_scheduler.py:1116-1122 | merging the same user configuration twice equals merging it once |
| CognitiveScheduler.MergeEmptyConfig | neogenesis_system/core/cognitive_scheduler.py:1116-1122 | an empty user configuration changes nothing |
| CognitiveScheduler.CountSession | neogenesis_system/core/cognitive_scheduler.py:782-890 | a task type's own session counter grows by one, all other counters unchanged |
| CognitiveScheduler.Scheduler.constructor | neogenesis_system/core/cognitive_scheduler.py:74-230 | task-driven, not idle, empty queue and active set, zeroed statistics |
| CognitiveScheduler.Scheduler.EnterIdleState | neogenesis_system/core/cognitive_scheduler.py:356-366 | idle mode, one more idle period, and a retrospection task of priority 7 queued |
| CognitiveScheduler.Scheduler.ExitIdleState | neogenesis_system/core/cognitive_scheduler.py:368-382 | task-driven mode, the completion time cleared, and the idle time since it added to the total |
| CognitiveScheduler.Scheduler.DetectIdleState | neogenesis_system/core/cognitive_scheduler.py:317-354 | the new idle flag and completion time are `DetectIdle` of the old state, entering or exiting idle mode on a change; mode agrees with the flag; corrected (README Finding 6) |
| CognitiveScheduler.Scheduler.HandleIdleState | neogenesis_system/core/cognitive_scheduler.py:384-402 | ideation is queued after the interval with none active, exploration likewise, synthesis on every fifth history entry |
| CognitiveScheduler.Scheduler.CleanupExpiredTasks | neogenesis_system/core/cognitive_scheduler.py:1580-1592 | the active tasks become `Unexpired` of the old ones |
| CognitiveScheduler.Scheduler.Tick | neogenesis_system/core/cognitive_scheduler.py:286-313 | one loop pass: idleness by `DetectIdle`, activity time refreshed when active, expired tasks cleaned; corrected (README Finding 6) |
| CognitiveScheduler.Scheduler.ScheduleUserDirectedExploration | neogenesis_system/core/cognitive_scheduler.py:462-533 | a non-empty query queues a priority-10 exploration at the front, an empty one a priority-3 exploration at the back; the counter and exploration time advance |
| CognitiveScheduler.Scheduler.InsertHighPriorityTask | neogenesis_system/core/cognitive_scheduler.py:610-637 | the queue becomes `HighPriorityQueue` of the old queue and the inserted one |
| CognitiveScheduler.Scheduler.ExecuteCognitiveTask | neogenesis_system/core/cognitive_scheduler.py:736-780 | a known task type counts its session; it is recorded in the history and counted as completed only when its handler does not raise; unknown types change nothing; an executed task never stays active |
| CognitiveScheduler.Scheduler.OnStateChange | neogenesis_system/core/cognitive_scheduler.py:1107-1114 | goal progress or a successful turn refreshes the activity time; nothing else does |
| Reasoner.KeywordCount | neogenesis_system/cognitive_engine/reasoner.py:80 | at most one per term, and zero exactly when no term occurs in the text |
| Reasoner.LongQueryPenaltyUnreachable | neogenesis_system/cognitive_engine/reasoner.py:66-73 | as written, the branch order never applies the 0.2 penalty, even to a 250-character query |
| Reasoner.LengthAdjustment | neogenesis_system/cognitive_engine/reasoner.py:66-73 | corrected: +0.1 under 20 characters, 0 up to 100, -0.1 up to 200 and -0.2 beyond |
| Reasoner.LengthAdjustmentNonIncreasing | neogenesis_system/cognitive_engine/reasoner.py:66-73 | a longer query never gets a larger length adjustment |
| Reasoner.ContextAdjustment | neogenesis_system/cognitive_engine/reasoner.py:103-115 | no or empty context adjusts nothing; otherwise the adjustment lies between -0.08 and +0.05 |
| Reasoner.TaskConfidence | neogenesis_system/cognitive_engine/reasoner.py:63-118 | the estimate lies within [0.2, 1.0] and equals the unclamped estimate whenever that does not exceed 1; corrected (README Finding 8) |
| Reasoner.PlainQueryBaseConfidence | neogenesis_system/cognitive_engine/reasoner.py:63-118 | a mid-length query with no listed terms and no context keeps the base 0.7 |
| Reasoner.MoreComplexityLowersConfidence | neogenesis_system/cognitive_engine/reasoner.py:85-92 | with everything else equal, more complexity indicators never raise the confidence |
| Reasoner.Assessed | neogenesis_system/cognitive_engine/reasoner.py:46-130 | the cache stays within 100 entries; a cached key answers from the cache unchanged; a new key is estimated by `TaskConfidence` and stored under its key; corrected (README Finding 8) |
| Reasoner.AssessedTwice | neogenesis_system/cognitive_engine/reasoner.py:58-61 | asking again gives the same answer and leaves the cache as the first ask left it |
| Reasoner.FullCacheEvictsOldest | neogenesis_system/cognitive_engine/reasoner.py:120-127 | storing into a full cache evicts exactly the oldest entry and keeps the others |
| Reasoner.WithoutFirst | neogenesis_system/cognitive_engine/reasoner.py:124-127 | deleting the first of distinct keys drops exactly the first position |
| Reasoner.KeywordWeightNonNegative | neogenesis_system/cognitive_engine/reasoner.py:265-269 | the keyword weights found in a query never sum below zero |
| Reasoner.ComplexityScore | neogenesis_system/cognitive_engine/reasoner.py:242-302 | the complexity score lies within [0.5, 1.0] |
| Reasoner.PlainQueryBaseComplexity | neogenesis_system/cognitive_engine/reasoner.py:242-302 | a short query without indicators, sentences or technical words stays at 0.5 |
| Reasoner.NoBonusBaseScore | neogenesis_system/cognitive_engine/reasoner.py:242-302 | with no keyword weight and no density bonus the score is the base 0.5 |
| Reasoner.NoTechWordsNoDensity | neogenesis_system/cognitive_engine/reasoner.py:285-286 | without technical words the density is zero |
| Reasoner.NoMatchNoWeight | neogenesis_system/cognitive_engine/reasoner.py:265-269 | a query matching no keyword of the table has zero weight |
| Reasoner.InferDomain | neogenesis_system/cognitive_engine/reasoner.py:317-353 | `general` exactly when no indicator matches; otherwise the first domain with the most matches |
| Reasoner.AnalyzeTaskComplexity | neogenesis_system/cognitive_engine/reasoner.py:232-315 | the score is `ComplexityScore`, the matched keywords lead the factors in table order, multi-step iff a step word occurs, counts and domain as computed |
| Reasoner.Accuracy | neogenesis_system/cognitive_engine/reasoner.py:412 | the distance of the prediction from the outcome: non-negative, at most 1 for a valid prediction, zero iff the prediction was exact |
| Reasoner.Predictions | neogenesis_system/cognitive_engine/reasoner.py:370 | the predicted confidences of the history, in order |
| Reasoner.ConfidenceTrend | neogenesis_system/cognitive_engine/reasoner.py:373-385 | insufficient data exactly when fewer than five predictions exist |
| Reasoner.ConstantPredictionsStable | neogenesis_system/cognitive_engine/reasoner.py:373-385 | unchanging predictions give a stable trend once there are five |
| Reasoner.Statistics | neogenesis_system/cognitive_engine/reasoner.py:355-395 | counts the history and cache; zero average and no trend without history; the average of valid predictions lies in [0, 1] |
| Reasoner.Recommend | neogenesis_system/cognitive_engine/reasoner.py:460-480 | cautious exactly for high complexity with low confidence; direct and clarify only for moderate complexity with high or low confidence |
| Reasoner.PriorReasoner.constructor | neogenesis_system/cognitive_engine/reasoner.py:31-44 | empty cache and history |
| Reasoner.PriorReasoner.AssessTaskConfidence | neogenesis_system/cognitive_engine/reasoner.py:46-130 | the cache and answer are `Assessed` of the old cache; the answer lies in [0.2, 1.0]; corrected (README Finding 8) |
| Reasoner.PriorReasoner.UpdateConfidenceFeedback | neogenesis_system/cognitive_engine/reasoner.py:397-421 | the record is appended, and over 200 records only the last 100 are kept |
| Reasoner.PriorReasoner.QuickAnalysisSummary | neogenesis_system/cognitive_engine/reasoner.py:423-458 | complexity by `ComplexityScore`, confidence through the cache, recommendation by `Recommend`, at most three key factors; corrected (README Finding 8) |
| Reasoner.PriorReasoner.ResetCache | neogenesis_system/cognitive_engine/reasoner.py:482-484 | the cache becomes empty |

## Left out

- I/O is not modelled: logging, files, SQLite/LMDB backends, JSON and pickle serialisation, and session save/load to disk. This includes `_load_session` in `get_session` and the weights file of `MABPersistentWeights`.
- Threads, locks, queues shared between workers and asyncio are not modelled. Every operation is one sequential step, and the scheduler loop is one `Tick`.
- Randomness is an input. Thompson Beta draws, the epsilon-greedy draw and random choices are parameters. Tool selection falls back to a random tool when its algorithm raises; nothing in the modelled round raises, so that fallback is not modelled.
- Sampling-only selection modes are not modelled: softmax, Thompson and adaptive selection in `mab_engine`.
- Clock readings are the parameter `now`. Durations that only feed logs or reports are dropped, such as `analysis_time` and the scheduler's task execution time.
- Floats are exact reals. numpy's variance is population variance over reals. `sqrt` and `log` in the UCB radius enter as a function parameter.
- `hash(str(context))` and MD5 digests are not computed; they are parameters. `str.lower` folds ASCII letters only.
- Python sets are duplicate-free sequences in first-insertion order. CPython iterates string sets in hash order. This affects the order of dependents in the dependency sort, successors in the wait-for graph and lock holders.
- Reporting and summary dictionaries are not modelled. This covers analytics, status and statistics reports beyond the counters modelled, and `get_session_statistics`.
- `AgentState` is not modelled.
- `SourceReference` URL and type inference is not modelled.
- The reasoner's `get_thinking_seed` is not modelled: it only builds prompt text.
- Reasoner.Statistics: does not give the min, max and recent-confidence lists of `get_confidence_statistics`, which only report.
- The LLM feasibility analysis and the orchestration of `make_decision` are not modelled: they call foreign clients.
- `TrialGround.TrialConverger.UpdatePathPerformance` does not repeat the path-algorithm credit (mab_converger.py:2022-2028) or the golden-promotion check (2062). Those are modelled by the path converger's update.
- The `is_learned` attribute check and the learned-path metadata of the trial ground (mab_converger.py:243-244, 267-274) are not modelled.
- `ParallelPathVerifier` and the `PerformanceOptimizer` wrapper are not modelled.
- Save/load of the bandit engine's state and `AdvancedMABManager` are not modelled.
- `EnhancedNeogenesisStateManager` is not modelled.
- In the transaction manager, a commit whose storage write fails (and then aborts) is not modelled. Writes to the in-memory store always succeed.
- The `distributed_state_manager` branch, the `TransactionLogManager`, the expired-transaction cleanup thread and transaction metadata are not modelled.
- Actual execution of batches is not modelled: async `execute` and fallback execution.
- `_estimate_execution_time`, `_calculate_scheduling_priority` and `PerformanceTracker` are not modelled.
- LLM provider initialisation is reduced to the list of registered providers with their health.
- `_track_cost`, `get_provider_status`, `get_available_models`, `generate_response` and `call_api` are not modelled.
- The MemoryBackend's `created_at`, `updated_at` and `last_accessed` timestamps are only partly kept. Its `deepcopy` on store and retrieve becomes Dafny's value semantics, so the caller's later mutations cannot reach the store.
- `PerformanceOptimizer`'s cache stays within `max_size` only when `max_size >= 1`. The source's `set` evicts even when the key is already present, and the model keeps that.
- The golden template's usage count is never incremented in the source. The model keeps that, so the usage share in a template's quality is always zero.
- ToolRegistry.InstallSound: uses the corrected category index (Finding 1), so an overwrite to a new category does not leave the name under its old category as the code does.
- ToolRegistry.Registry.RegisterTool: same as `InstallSound`; the stale old-category entry of Finding 1 is not reproduced.
- ToolRegistry.Registry.ExecuteTool: counts an execution that raises as an execution, as corrected in Finding 2; the code counts it only as a failure.
- StateManagement.StateManager.CleanupOldSessions: deletes at most every session (Finding 3); the code's IndexError for a limit below 100 is not reproduced.
- StateManagement.StateManager.CreateSession: cleans up with the corrected cleanup of Finding 3, so it never raises where the code raises IndexError.
- Deadlock.Detect: the search pops the node on every return (Finding 4), so the ValueError of the code on a stale recursion stack is not reproduced; `Detect(g, false)` keeps the code's behaviour but the lock operations do not use it.
- Deadlock.DetectCycles: the corrected search of Finding 4; never raises.
- Deadlock.Roots: proved for the corrected search of Finding 4 only.
- Deadlock.DfsQuiet: proved for the corrected search of Finding 4 only.
- Deadlock.ScanQuiet: proved for the corrected search of Finding 4 only.
- Deadlock.ScanFinished: proved for the corrected search of Finding 4 only.
- Deadlock.RootsQuiet: proved for the corrected search of Finding 4 only.
- Deadlock.RootsVisitAll: proved for the corrected search of Finding 4 only.
- Deadlock.RootStep: proved for the corrected search of Finding 4 only.
- Transactions.Blocked: deadlock detection uses the corrected search of Finding 4, so a refused lock never raises ValueError from the detector.
- Transactions.AcquireReadSpec: uses the corrected search of Finding 4 and lets a transaction read under its own write lock (Finding 5); the code makes it wait for itself.
- Transactions.AcquireWriteSpec: a refused write lock runs the corrected search of Finding 4, which does not raise.
- Transactions.ReadSpec: reads through `AcquireReadSpec`, so both corrections of Findings 4 and 5 apply.
- Transactions.ChangeSpec: a refused write lock runs the corrected search of Finding 4, which does not raise.
- Transactions.TransactionManager.AcquireReadLock: the state of `AcquireReadSpec`, with the corrections of Findings 4 and 5.
- Transactions.TransactionManager.AcquireWriteLock: the state of `AcquireWriteSpec`, with the correction of Finding 4.
- Transactions.TransactionManager.Read: the state of `ReadSpec`, with the corrections of Findings 4 and 5.
- Transactions.TransactionManager.Write: the state of `ChangeSpec`, with the correction of Finding 4.
- Transactions.TransactionManager.Delete: the state of `ChangeSpec`, with the correction of Finding 4.
- Transactions.TransactionManager.HandleDeadlocks: handles the cycles of the corrected search of Finding 4.
- CognitiveScheduler.Scheduler.DetectIdleState: follows the corrected `DetectIdle` of Finding 6, which clears the completion time while a task is unfinished; the code keeps a stale completion time.
- CognitiveScheduler.Scheduler.Tick: detects idleness with the corrected `DetectIdle` of Finding 6.
- SharedStructures.KnowledgeProvenance.constructor: builds the ids with the corrected `ProvenanceIds` of Finding 7; the code's UnboundLocalError is not reproduced.
- Reasoner.TaskConfidence: uses the graded length adjustment of Finding 8; for a query over 200 characters the code subtracts 0.1 and the model 0.2.
- Reasoner.Assessed: estimates new keys by `TaskConfidence`, so the length rule of Finding 8 applies.
- Reasoner.PriorReasoner.AssessTaskConfidence: the state of `Assessed`, with the length rule of Finding 8.
- Reasoner.PriorReasoner.QuickAnalysisSummary: its confidence comes from `Assessed`, with the length rule of Finding 8.

## Findings

The rows are numbered 1 to 8 in the order listed; the "## Model" table and the lines above refer to them by that number.

| source | as written | input that shows it | evidently intended | confidence | as-written member | corrected member |
|---|---|---|---|---|---|---|
| neogenesis_system/meta_mab/utils/tool_abstraction.py:320-329 | overwriting a tool adds its name under the new category but never removes it from the old one | register tool `t` in category A, then overwrite it with a tool `t` of category B: `t` is listed under both | the name leaves its old category's list when the category changes | high (not executed) | ToolRegistry.OverwriteLeavesStaleCategory | ToolRegistry.ReindexedSound |
| neogenesis_system/meta_mab/utils/tool_abstraction.py:456-467 | an execution that raises counts a failure but not an execution | a fresh registry whose first execution raises: the reported success rate is (0 - 1) / 1 = -1 | every attempt counts as an execution, so the success rate stays in [0, 1] | high (not executed) | ToolRegistry.RaisedExecutionGivesNegativeRate | ToolRegistry.SuccessRateInUnit |
| neogenesis_langchain/state/state_management.py:408-420 | cleanup deletes `len - max_sessions + 100` sessions, indexing past the end of the list when that exceeds the number of sessions | `max_sessions = 1` with one session: creating a second session raises an IndexError | delete at most every session, oldest first | high (not executed) | StateManagement.SmallLimitCleanupRaises | StateManagement.CleanedUpOldestFirst |
| neogenesis_langchain/state/state_transactions.py:153-162 | the depth-first search returns on a found cycle without popping the node from the recursion stack, and later searches look that node up in a path that lacks it | edges A→B, B→A, C→A: the search from C finds A on the stale stack and `current_path.index` raises ValueError | pop the node on every return, so the search reports the cycle A, B | high (not executed) | Deadlock.StaleStackRaises | Deadlock.StaleSampleCorrected |
| neogenesis_langchain/state/state_transactions.py:709-727 | a read lock is refused when any holder of the key holds a write lock, the reader included | a transaction write-locks key k and then reads k: it waits for itself, its wait is a cycle of one and it becomes its own deadlock victim | a transaction's own write lock lets it read the key | medium (not executed) | Transactions.OwnWriteLockBlocksRead | Transactions.OwnWriteLockGrantsRead |
| neogenesis_system/core/cognitive_scheduler.py:330-349 | the completion time is set once and cleared only when idle mode is left | a task completes at t=100, a new one starts before the minimum idle time has passed, and it completes much later: the scheduler is idle at once, measuring from t=100 | idleness is measured from the latest completion | medium (not executed) | CognitiveScheduler.StaleCompletionSkipsIdleWait | CognitiveScheduler.IdleWaitsAfterLatestCompletion |
| neogenesis_system/shared/data_structures.py:666-674 | the timestamp local is only bound when the provenance id is empty, but the knowledge id default reads it too | a provenance record with `provenance_id="provenance_1"` and an empty `knowledge_id` raises UnboundLocalError | take the timestamp once for both defaults | high (not executed) | SharedStructures.GivenProvenanceIdWithoutKnowledgeIdRaises | SharedStructures.ProvenanceIdsAgree |
| neogenesis_system/cognitive_engine/reasoner.py:66-73 | the test for more than 100 characters comes before the test for more than 200, so the 0.2 penalty is unreachable | a 250-character query gets -0.1, not -0.2 | a graded penalty: -0.1 over 100 characters, -0.2 over 200 | medium (not executed) | Reasoner.LongQueryPenaltyUnreachable | Reasoner.LengthAdjustmentNonIncreasing |
