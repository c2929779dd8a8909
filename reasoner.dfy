/**
 * The prior reasoner: quick heuristic estimates of a query's confidence and
 * complexity from keyword matches, the inferred task domain, the bounded
 * FIFO cache of confidence assessments and the bounded feedback history.
 */
module Reasoner {
  import opened Outcomes
  import opened Seqs
  import opened Text
  import opened OrderedMaps

  /** How many of `terms` occur in `text` (`sum(1 for t in terms if t in text)`). */
  function KeywordCount(text: string, terms: seq<string>): (n: nat)
    ensures n <= |terms|
    ensures n == 0 <==> forall i :: 0 <= i < |terms| ==> !Contains(text, terms[i])
  {
    if |terms| == 0 then 0
    else KeywordCount(text, terms[..|terms| - 1]) + (if Contains(text, terms[|terms| - 1]) then 1 else 0)
  }

  // ---------------------------------------------------------------------
  // Task confidence
  // ---------------------------------------------------------------------

  const TechTerms: seq<string> := ["API", "api", "算法", "数据库", "系统", "架构", "优化",
    "机器学习", "ML", "AI", "人工智能", "深度学习", "网络", "爬虫", "数据分析", "实时", "性能"]
  const ComplexityIndicators: seq<string> := ["复杂", "困难", "挑战", "高级", "专业",
    "多步骤", "分布式", "并发", "异步", "集成"]
  const ClarityIndicators: seq<string> := ["简单", "直接", "基础", "快速", "标准",
    "帮助", "请", "如何", "怎么", "什么"]

  /** What the assessment reads from the execution context: its size and two flags. */
  datatype ExecContext = ExecContext(entries: nat, realTimeRequirements: bool, performanceCritical: bool)

  /**
   * The length adjustment as written: short queries gain 0.1, queries over
   * 100 characters lose 0.1, and the branch for queries over 200 characters
   * sits after the one for 100 and is never taken.
   */
  function LengthAdjustmentAsWritten(length: nat): real
  {
    if length < 20 then 0.1
    else if length > 100 then -0.1
    else if length > 200 then -0.2
    else 0.0
  }

  /** However long the query, the written adjustment never takes the 0.2 penalty. */
  lemma LongQueryPenaltyUnreachable(length: nat)
    ensures LengthAdjustmentAsWritten(length) >= -0.1
    ensures LengthAdjustmentAsWritten(250) == -0.1
  {
  }

  /** The graded length adjustment: +0.1 under 20 characters, -0.1 over 100 and -0.2 over 200. */
  function LengthAdjustment(length: nat): (r: real)
    ensures length < 20 ==> r == 0.1
    ensures 20 <= length <= 100 ==> r == 0.0
    ensures 100 < length <= 200 ==> r == -0.1
    ensures length > 200 ==> r == -0.2
  {
    if length < 20 then 0.1
    else if length > 200 then -0.2
    else if length > 100 then -0.1
    else 0.0
  }

  /** A longer query never gets a larger adjustment. */
  lemma LengthAdjustmentNonIncreasing(a: nat, b: nat)
    requires a <= b
    ensures LengthAdjustment(b) <= LengthAdjustment(a)
  {
  }

  /** The adjustment for the execution context, applied only to a non-empty context. */
  function ContextAdjustment(ctx: Option<ExecContext>): (r: real)
    ensures -0.08 <= r <= 0.05
    ensures ctx.None? || ctx.value.entries == 0 ==> r == 0.0
  {
    if ctx.Some? && ctx.value.entries > 0 then
      (if ctx.value.entries > 3 then 0.05 else 0.0)
      - (if ctx.value.realTimeRequirements then 0.05 else 0.0)
      - (if ctx.value.performanceCritical then 0.03 else 0.0)
    else 0.0
  }

  /** The unclamped estimate: 0.7 moved by length, keywords and context. */
  function RawConfidence(query: string, ctx: Option<ExecContext>): real
  {
    0.7 + LengthAdjustment(|query|)
    + Min(0.15, (KeywordCount(query, TechTerms) as real) * 0.05)
    - Min(0.2, (KeywordCount(query, ComplexityIndicators) as real) * 0.05)
    + Min(0.1, (KeywordCount(query, ClarityIndicators) as real) * 0.03)
    + ContextAdjustment(ctx)
  }

  /**
   * `assess_task_confidence` without the cache: the raw estimate kept within
   * [0.2, 1.0]. Every adjustment is bounded, so the estimate never falls
   * below 0.22 and the lower clamp never acts.
   */
  function TaskConfidence(query: string, ctx: Option<ExecContext>): (r: real)
    ensures 0.2 <= r <= 1.0
    ensures r >= 0.22
    ensures RawConfidence(query, ctx) <= 1.0 ==> r == RawConfidence(query, ctx)
  {
    Min(1.0, Max(0.2, RawConfidence(query, ctx)))
  }

  /** A plain, mid-length query without context keeps the base confidence. */
  lemma PlainQueryBaseConfidence(query: string)
    requires 20 <= |query| <= 100
    requires KeywordCount(query, TechTerms) == 0 && KeywordCount(query, ComplexityIndicators) == 0
    requires KeywordCount(query, ClarityIndicators) == 0
    ensures TaskConfidence(query, None) == 0.7
  {
  }

  /** More complexity indicators never raise the confidence, all else equal. */
  lemma MoreComplexityLowersConfidence(q1: string, q2: string, ctx: Option<ExecContext>)
    requires |q1| == |q2|
    requires KeywordCount(q1, TechTerms) == KeywordCount(q2, TechTerms)
    requires KeywordCount(q1, ClarityIndicators) == KeywordCount(q2, ClarityIndicators)
    requires KeywordCount(q1, ComplexityIndicators) <= KeywordCount(q2, ComplexityIndicators)
    ensures TaskConfidence(q2, ctx) <= TaskConfidence(q1, ctx)
  {
  }

  // ---------------------------------------------------------------------
  // The assessment cache
  // ---------------------------------------------------------------------

  const CacheLimit: nat := 100

  /** The cache key: the query and the context's hash, joined by `_`. */
  function CacheKey(query: string, contextHash: string): string
  {
    query + "_" + contextHash
  }

  /** The cache is a well-formed ordered dictionary of at most 100 estimates, each within [0.2, 1.0]. */
  predicate CacheOk(cache: ODict<real>)
  {
    && Valid(cache) && Size(cache) <= CacheLimit
    && forall k :: k in cache.m ==> 0.2 <= cache.m[k] <= 1.0
  }

  /**
   * `assess_task_confidence` with its cache: a cached key answers from the
   * cache and changes nothing; otherwise the new estimate is stored last,
   * and a cache over the limit loses its oldest entry.
   */
  function Assessed(cache: ODict<real>, query: string, ctx: Option<ExecContext>, contextHash: string): (r: (ODict<real>, real))
    requires CacheOk(cache)
    ensures CacheOk(r.0) && 0.2 <= r.1 <= 1.0
    ensures CacheKey(query, contextHash) in r.0.m && r.0.m[CacheKey(query, contextHash)] == r.1
    ensures CacheKey(query, contextHash) in cache.m ==> r == (cache, cache.m[CacheKey(query, contextHash)])
    ensures CacheKey(query, contextHash) !in cache.m ==> r.1 == TaskConfidence(query, ctx)
  {
    var key := CacheKey(query, contextHash);
    if key in cache.m then (cache, cache.m[key])
    else
      var v := TaskConfidence(query, ctx);
      var c := Put(cache, key, v);
      if Size(c) > CacheLimit then
        assert c.keys[0] != key;
        WithoutLength(c.keys, c.keys[0]);
        (Remove(c, c.keys[0]), v)
      else (c, v)
  }

  /** Asking again answers the same and leaves the cache as the first answer left it. */
  lemma AssessedTwice(cache: ODict<real>, query: string, ctx: Option<ExecContext>, contextHash: string, ctx2: Option<ExecContext>)
    requires CacheOk(cache)
    ensures var first := Assessed(cache, query, ctx, contextHash);
            Assessed(first.0, query, ctx2, contextHash) == first
  {
  }

  /** Storing into a full cache evicts exactly the oldest entry and keeps every other one. */
  lemma FullCacheEvictsOldest(cache: ODict<real>, query: string, ctx: Option<ExecContext>, contextHash: string)
    requires CacheOk(cache) && Size(cache) == CacheLimit
    requires CacheKey(query, contextHash) !in cache.m
    ensures var r := Assessed(cache, query, ctx, contextHash).0;
            && r.keys == cache.keys[1..] + [CacheKey(query, contextHash)]
            && r.m == cache.m[CacheKey(query, contextHash) := TaskConfidence(query, ctx)] - {cache.keys[0]}
  {
    var key := CacheKey(query, contextHash);
    var c := Put(cache, key, TaskConfidence(query, ctx));
    assert c.keys == cache.keys + [key];
    WithoutFirst(c.keys);
    assert c.keys[1..] == cache.keys[1..] + [key];
  }

  /** Deleting the first of distinct keys drops just the first position. */
  lemma WithoutFirst(keys: seq<string>)
    requires |keys| > 0 && Distinct(keys)
    ensures Without(keys, keys[0]) == keys[1..]
  {
    WithoutLength(keys[1..], keys[0]);
  }

  // ---------------------------------------------------------------------
  // Task complexity
  // ---------------------------------------------------------------------

  const ComplexityKeywords: seq<(string, real)> := [
    ("多步骤", 0.15), ("集成", 0.12), ("优化", 0.10), ("分析", 0.08), ("设计", 0.08), ("架构", 0.12),
    ("分布式", 0.15), ("并发", 0.13), ("实时", 0.10), ("高性能", 0.11), ("机器学习", 0.14),
    ("深度学习", 0.16), ("算法", 0.09), ("数据库", 0.07), ("网络", 0.06), ("安全", 0.08)]

  const TechWords: seq<string> := ["API", "HTTP", "JSON", "SQL", "Python", "JavaScript", "REST", "GraphQL"]

  const MultiStepWords: seq<string> := ["步骤", "阶段", "分步", "然后", "接下来", "首先", "最后",
    "第一", "第二", "第三", "依次", "顺序"]

  /** The summed weights of the table's keywords that occur in the query. */
  function KeywordWeight(query: string, table: seq<(string, real)>): real
  {
    if |table| == 0 then 0.0
    else
      var last := table[|table| - 1];
      KeywordWeight(query, table[..|table| - 1]) + (if Contains(query, last.0) then last.1 else 0.0)
  }

  /** The keywords of the table that occur in the query, with their weights, in table order. */
  function MatchedFactors(query: string, table: seq<(string, real)>): seq<(string, real)>
  {
    if |table| == 0 then []
    else
      var last := table[|table| - 1];
      MatchedFactors(query, table[..|table| - 1]) + (if Contains(query, last.0) then [last] else [])
  }

  /** With non-negative weights, the keyword weight is non-negative. */
  lemma {:induction false} KeywordWeightNonNegative(query: string, table: seq<(string, real)>)
    requires forall i :: 0 <= i < |table| ==> table[i].1 >= 0.0
    ensures KeywordWeight(query, table) >= 0.0
  {
    if |table| > 0 {
      TablePrefix(table);
      KeywordWeightNonNegative(query, table[..|table| - 1]);
    }
  }

  lemma TablePrefix(table: seq<(string, real)>)
    requires |table| > 0
    ensures forall i :: 0 <= i < |table| - 1 ==> table[..|table| - 1][i] == table[i]
  {
  }

  /** The bonus for more than three sentences (split on the Chinese full stop). */
  function SyntaxBonus(sentences: nat): real
  {
    if sentences > 3 then Min(0.1, ((sentences - 3) as real) * 0.02) else 0.0
  }

  /** The bonus for queries over 150 characters. */
  function LengthBonus(length: nat): real
  {
    if length > 150 then Min(0.08, ((length - 150) as real) / 1000.0) else 0.0
  }

  /** Technical words per whitespace-separated word (`max(words, 1)` as the divisor). */
  function TechDensity(query: string): real
  {
    (KeywordCount(query, TechWords) as real) / (Max(|Words(query)| as real, 1.0))
  }

  function DensityBonus(density: real): real
  {
    if density > 0.1 then Min(0.12, density * 2.0) else 0.0
  }

  /** The complexity score: 0.5 plus every bonus, capped at 1.0. */
  function ComplexityScore(query: string): (r: real)
    ensures 0.5 <= r <= 1.0
  {
    KeywordWeightNonNegative(query, ComplexityKeywords);
    Min(1.0, 0.5 + KeywordWeight(query, ComplexityKeywords) + SyntaxBonus(SplitCount(query, '。'))
             + LengthBonus(|query|) + DensityBonus(TechDensity(query)))
  }

  /** A query that mentions none of the indicators is at the base complexity. */
  lemma PlainQueryBaseComplexity(query: string)
    requires forall i :: 0 <= i < |ComplexityKeywords| ==> !Contains(query, ComplexityKeywords[i].0)
    requires SplitCount(query, '。') <= 3 && |query| <= 150 && KeywordCount(query, TechWords) == 0
    ensures ComplexityScore(query) == 0.5
  {
    NoMatchNoWeight(query, ComplexityKeywords);
    NoTechWordsNoDensity(query);
    NoBonusBaseScore(query);
  }

  lemma NoBonusBaseScore(query: string)
    requires KeywordWeight(query, ComplexityKeywords) == 0.0 && TechDensity(query) == 0.0
    requires SplitCount(query, '。') <= 3 && |query| <= 150
    ensures ComplexityScore(query) == 0.5
  {
  }

  lemma NoTechWordsNoDensity(query: string)
    requires KeywordCount(query, TechWords) == 0
    ensures TechDensity(query) == 0.0
  {
    var words := Max(|Words(query)| as real, 1.0);
    assert TechDensity(query) == 0.0 / words;
  }

  lemma {:induction false} NoMatchNoWeight(query: string, table: seq<(string, real)>)
    requires forall i :: 0 <= i < |table| ==> !Contains(query, table[i].0)
    ensures KeywordWeight(query, table) == 0.0
  {
    if |table| > 0 {
      TablePrefix(table);
      NoMatchNoWeight(query, table[..|table| - 1]);
    }
  }

  // ---------------------------------------------------------------------
  // Domain inference
  // ---------------------------------------------------------------------

  const DomainIndicators: seq<(string, seq<string>)> := [
    ("web_development", ["网站", "web", "html", "css", "javascript", "前端", "后端"]),
    ("data_science", ["数据分析", "数据科学", "pandas", "numpy", "机器学习", "模型", "预测"]),
    ("api_development", ["api", "接口", "rest", "restful", "graphql", "endpoints"]),
    ("web_scraping", ["爬虫", "spider", "scrapy", "抓取", "爬取", "crawl"]),
    ("database", ["数据库", "sql", "mysql", "postgresql", "mongodb", "查询"]),
    ("system_admin", ["系统", "服务器", "部署", "运维", "docker", "kubernetes"]),
    ("mobile_development", ["移动", "app", "安卓", "android", "ios", "react native"]),
    ("security", ["安全", "加密", "认证", "授权", "防护", "security"]),
    ("performance", ["性能", "优化", "速度", "效率", "benchmark", "负载"]),
    ("automation", ["自动化", "脚本", "定时", "批处理", "cron", "schedule"])]

  /** The number of indicators of domain `k` in the lower-cased query. */
  function DomainScore(query: string, k: nat): nat
    requires k < |DomainIndicators|
  {
    KeywordCount(Lower(query), DomainIndicators[k].1)
  }

  /** Domain `k` has the most matches, and no earlier domain has as many (Python's `max` keeps the first). */
  predicate MostMatched(query: string, k: nat)
  {
    k < |DomainIndicators|
    && DomainScore(query, k) > 0
    && (forall j :: 0 <= j < |DomainIndicators| ==> DomainScore(query, j) <= DomainScore(query, k))
    && (forall j :: 0 <= j < k ==> DomainScore(query, j) < DomainScore(query, k))
  }

  /**
   * `_infer_domain`: the domain with the most indicator matches, the first
   * of equals, or `general` when nothing matches. The loop fuses building
   * the score dictionary with the `max` over it.
   */
  method InferDomain(query: string) returns (domain: string)
    ensures domain == "general" <==> forall j :: 0 <= j < |DomainIndicators| ==> DomainScore(query, j) == 0
    ensures domain != "general" ==> exists k: nat :: MostMatched(query, k) && domain == DomainIndicators[k].0
  {
    var best: Option<nat> := None;
    var bestScore: nat := 0;
    var i := 0;
    while i < |DomainIndicators|
      invariant 0 <= i <= |DomainIndicators|
      invariant best.None? <==> forall j :: 0 <= j < i ==> DomainScore(query, j) == 0
      invariant best.None? ==> bestScore == 0
      invariant best.Some? ==> best.value < i && bestScore == DomainScore(query, best.value) > 0
      invariant best.Some? ==> forall j :: 0 <= j < i ==> DomainScore(query, j) <= bestScore
      invariant best.Some? ==> forall j :: 0 <= j < best.value ==> DomainScore(query, j) < bestScore
    {
      var score := KeywordCount(Lower(query), DomainIndicators[i].1);
      assert score == DomainScore(query, i);
      if score > 0 && score > bestScore {
        best, bestScore := Some(i), score;
      }
      i := i + 1;
    }
    if best.None? {
      return "general";
    }
    domain := DomainIndicators[best.value].0;
    assert MostMatched(query, best.value);
  }

  /** `analyze_task_complexity`'s result, without the log line. */
  datatype Complexity = Complexity(
    score: real,
    factors: seq<(string, real)>,
    domain: string,
    requiresMultiStep: bool,
    sentenceCount: nat,
    wordCount: nat,
    techDensity: real)

  /**
   * `analyze_task_complexity`: the keyword loop accumulates weights and
   * factors; the syntax, length and density bonuses follow; the score is
   * capped at 1.0.
   */
  method AnalyzeTaskComplexity(query: string) returns (c: Complexity)
    ensures c.score == ComplexityScore(query)
    ensures 0.5 <= c.score <= 1.0
    ensures |MatchedFactors(query, ComplexityKeywords)| <= |c.factors|
    ensures c.factors[..|MatchedFactors(query, ComplexityKeywords)|] == MatchedFactors(query, ComplexityKeywords)
    ensures c.requiresMultiStep <==> KeywordCount(query, MultiStepWords) > 0
    ensures c.sentenceCount == SplitCount(query, '。') && c.wordCount == |Words(query)|
    ensures c.domain == "general" <==> forall j :: 0 <= j < |DomainIndicators| ==> DomainScore(query, j) == 0
  {
    var score := 0.5;
    var factors: seq<(string, real)> := [];
    var i := 0;
    while i < |ComplexityKeywords|
      invariant 0 <= i <= |ComplexityKeywords|
      invariant score == 0.5 + KeywordWeight(query, ComplexityKeywords[..i])
      invariant factors == MatchedFactors(query, ComplexityKeywords[..i])
    {
      assert ComplexityKeywords[..i + 1][..i] == ComplexityKeywords[..i];
      var entry := ComplexityKeywords[i];
      if Contains(query, entry.0) {
        score := score + entry.1;
        factors := factors + [entry];
      }
      i := i + 1;
    }
    assert ComplexityKeywords[..i] == ComplexityKeywords;
    var matched := factors;
    var sentences := SplitCount(query, '。');
    if sentences > 3 {
      score := score + SyntaxBonus(sentences);
      factors := factors + [("多句表达", SyntaxBonus(sentences))];
    }
    if |query| > 150 {
      score := score + LengthBonus(|query|);
      factors := factors + [("表达长度", LengthBonus(|query|))];
    }
    var density := TechDensity(query);
    if density > 0.1 {
      score := score + DensityBonus(density);
      factors := factors + [("技术词汇密度", DensityBonus(density))];
    }
    assert factors[..|matched|] == matched;
    var domain := InferDomain(query);
    c := Complexity(Min(1.0, score), factors, domain, KeywordCount(query, MultiStepWords) > 0,
                    sentences, |Words(query)|, density);
  }

  // ---------------------------------------------------------------------
  // Feedback history and statistics
  // ---------------------------------------------------------------------

  /** One feedback record: the prediction, the outcome and how far apart they were. */
  datatype Feedback = Feedback(timestamp: real, predicted: real, actualSuccess: bool, executionTime: real, accuracy: real)

  /** `confidence_accuracy`: the distance of the prediction from the outcome (1 for success, 0 for failure). */
  function Accuracy(predicted: real, success: bool): (r: real)
    ensures r >= 0.0
    ensures 0.0 <= predicted <= 1.0 ==> r <= 1.0
    ensures r == 0.0 <==> predicted == (if success then 1.0 else 0.0)
  {
    var target := if success then 1.0 else 0.0;
    if predicted >= target then predicted - target else target - predicted
  }

  datatype Trend = Improving | Declining | Stable | InsufficientData

  function Predictions(h: seq<Feedback>): (r: seq<real>)
    ensures |r| == |h| && forall i :: 0 <= i < |h| ==> r[i] == h[i].predicted
  {
    seq(|h|, i requires 0 <= i < |h| => h[i].predicted)
  }

  /**
   * The trend in `get_confidence_statistics`: the mean of the last five
   * predictions against the five before them (or against the overall mean
   * with fewer than ten), with a margin of 0.05 either way.
   */
  function ConfidenceTrend(cs: seq<real>): (t: Trend)
    ensures |cs| < 5 <==> t == InsufficientData
  {
    if |cs| < 5 then InsufficientData
    else
      var recent := Mean(cs[|cs| - 5..]);
      var earlier := if |cs| >= 10 then Mean(cs[|cs| - 10..|cs| - 5]) else Mean(cs);
      if recent > earlier + 0.05 then Improving
      else if recent < earlier - 0.05 then Declining
      else Stable
  }

  /** Predictions that never change give a stable trend once there are enough of them. */
  lemma ConstantPredictionsStable(cs: seq<real>)
    requires |cs| >= 5 && forall i :: 0 <= i < |cs| ==> cs[i] == cs[0]
    ensures ConfidenceTrend(cs) == Stable
  {
    var last := cs[|cs| - 5..];
    SumConstant(last, cs[0]);
    if |cs| >= 10 {
      SumConstant(cs[|cs| - 10..|cs| - 5], cs[0]);
    } else {
      SumConstant(cs, cs[0]);
    }
  }

  /** `get_confidence_statistics`, without the min, max and recent lists. */
  datatype ConfidenceStats = ConfidenceStats(total: nat, average: real, trend: Trend, cacheSize: nat)

  function Statistics(h: seq<Feedback>, cacheSize: nat): (s: ConfidenceStats)
    ensures s.total == |h| && s.cacheSize == cacheSize
    ensures |h| == 0 ==> s.average == 0.0 && s.trend == InsufficientData
    ensures s.trend == InsufficientData <==> |h| < 5
    ensures (forall i :: 0 <= i < |h| ==> 0.0 <= h[i].predicted <= 1.0) ==> 0.0 <= s.average <= 1.0
  {
    if |h| == 0 then ConfidenceStats(0, 0.0, InsufficientData, cacheSize)
    else
      var cs := Predictions(h);
      assert (forall i :: 0 <= i < |h| ==> 0.0 <= h[i].predicted <= 1.0) ==> 0.0 <= Mean(cs) <= 1.0 by {
        if forall i :: 0 <= i < |h| ==> 0.0 <= h[i].predicted <= 1.0 {
          MeanBounds(cs, 0.0, 1.0);
        }
      }
      ConfidenceStats(|h|, Mean(cs), ConfidenceTrend(cs), cacheSize)
  }

  /** The recommendation `_get_analysis_recommendation` gives. */
  datatype Recommendation = Cautious | Stepwise | Direct | Clarify | Balanced

  function Recommend(complexity: real, confidence: real): (r: Recommendation)
    ensures r == Cautious <==> complexity > 0.8 && confidence < 0.4
    ensures r == Direct ==> confidence > 0.8 && complexity <= 0.7
    ensures r == Clarify ==> confidence < 0.3 && complexity <= 0.7
  {
    if complexity > 0.8 && confidence < 0.4 then Cautious
    else if complexity > 0.7 then Stepwise
    else if confidence > 0.8 then Direct
    else if confidence < 0.3 then Clarify
    else Balanced
  }

  /** `get_quick_analysis_summary` without its timing. */
  datatype Summary = Summary(domain: string, complexity: real, confidence: real, requiresMultiStep: bool,
                             keyFactors: seq<string>, recommendation: Recommendation)

  /** The summary of an analysis and a confidence: at most three factor names, and the recommendation. */
  function Summarized(c: Complexity, confidence: real): (s: Summary)
    ensures s.domain == c.domain && s.complexity == c.score && s.confidence == confidence
    ensures s.requiresMultiStep == c.requiresMultiStep && |s.keyFactors| <= 3
    ensures s.recommendation == Recommend(c.score, confidence)
  {
    var keys := seq(|c.factors|, i requires 0 <= i < |c.factors| => c.factors[i].0);
    Summary(c.domain, c.score, confidence, c.requiresMultiStep, FirstN(keys, 3), Recommend(c.score, confidence))
  }

  /** The reasoner as an object holding its cache and history. */
  class PriorReasoner {
    var cache: ODict<real>
    var history: seq<Feedback>

    constructor ()
      ensures cache == Empty() && history == []
    {
      cache, history := Empty(), [];
    }

    /** `assess_task_confidence`, the cache updated in place. */
    method AssessTaskConfidence(query: string, ctx: Option<ExecContext>, contextHash: string) returns (r: real)
      requires CacheOk(cache)
      modifies `cache
      ensures (cache, r) == Assessed(old(cache), query, ctx, contextHash)
      ensures CacheOk(cache) && 0.2 <= r <= 1.0
    {
      var key := CacheKey(query, contextHash);
      if key in cache.m {
        return cache.m[key];
      }
      r := TaskConfidence(query, ctx);
      cache := Put(cache, key, r);
      if Size(cache) > CacheLimit {
        cache := Remove(cache, cache.keys[0]);
      }
    }

    /** `update_confidence_feedback`: the record appended; over 200 records the last 100 are kept. */
    method UpdateConfidenceFeedback(predicted: real, success: bool, executionTime: real, now: real)
      modifies `history
      ensures history == Bounded(old(history) + [Feedback(now, predicted, success, executionTime, Accuracy(predicted, success))], 200, 100)
      ensures |history| <= 200 && history[|history| - 1].predicted == predicted
    {
      history := history + [Feedback(now, predicted, success, executionTime, Accuracy(predicted, success))];
      if |history| > 200 {
        history := history[|history| - 100..];
      }
    }

    /** `get_quick_analysis_summary`: complexity, cached confidence, and the recommendation they give. */
    method QuickAnalysisSummary(query: string, ctx: Option<ExecContext>, contextHash: string) returns (s: Summary)
      requires CacheOk(cache)
      modifies `cache
      ensures s.complexity == ComplexityScore(query)
      ensures (cache, s.confidence) == Assessed(old(cache), query, ctx, contextHash)
      ensures s.recommendation == Recommend(s.complexity, s.confidence)
      ensures |s.keyFactors| <= 3
    {
      var c := AnalyzeTaskComplexity(query);
      var confidence := AssessTaskConfidence(query, ctx, contextHash);
      s := Summarized(c, confidence);
    }

    /** `reset_cache`. */
    method ResetCache()
      modifies `cache
      ensures cache == Empty()
    {
      cache := Empty();
    }
  }
}
