/**
 * Golden decision templates of the path converger: how a template is
 * scored against a candidate path, which candidate (if any) a selection
 * round takes from the templates, and which template is evicted when the
 * store is full.
 */
module GoldenTemplates {
  import opened Outcomes
  import opened Seqs
  import opened Text
  import opened OrderedMaps
  import opened DecisionArm

  const MaxGoldenTemplates: nat := 50
  const MatchThreshold := 0.85

  /** One stored template (`template_data`). */
  datatype Template = Template(
    strategyId: string,
    pathId: string,
    pathType: string,
    description: string,
    successRate: real,
    totalActivations: nat,
    averageReward: real,
    createdTimestamp: real,
    lastUpdated: real,
    promotionReason: string,
    stabilityScore: real,
    usageCount: nat)

  /** A candidate pairing of a template with a path, with its score. */
  datatype Match = Match(templateId: string, path: ReasoningPath, score: real, strategyMatch: bool)

  // ---------------------------------------------------------------------
  // Scoring
  // ---------------------------------------------------------------------

  function WordSet(s: string): set<string>
  {
    set w | w in Words(Lower(s))
  }

  /** `_calculate_description_similarity`: the Jaccard index of the lower-cased word sets. */
  function DescriptionSimilarity(d1: string, d2: string): (r: real)
    ensures 0.0 <= r <= 1.0
    ensures d1 == "" || d2 == "" ==> r == 0.0
    ensures r == 0.0 <==> WordSet(d1) * WordSet(d2) == {} || d1 == "" || d2 == ""
  {
    if d1 == "" || d2 == "" then 0.0
    else
      var w1, w2 := WordSet(d1), WordSet(d2);
      if w1 == {} || w2 == {} then 0.0
      else
        SubsetCard(w1 * w2, w1 + w2);
        SubsetCard(w1, w1 + w2);
        RatioInUnit(|w1 * w2|, |w1 + w2|);
        (|w1 * w2| as real) / (|w1 + w2| as real)
  }

  /** A description whose words are not all blank is fully similar to itself. */
  lemma SelfSimilarity(d: string)
    requires WordSet(d) != {}
    ensures DescriptionSimilarity(d, d) == 1.0
  {
    var w := WordSet(d);
    assert d != "";
    assert w * w == w && w + w == w;
  }

  /** The share of the success rate above 0.8, at most 0.2 (negative below 0.8). */
  function PerformanceBonus(successRate: real): (b: real)
    ensures b <= 0.2
    ensures successRate >= 1.0 ==> b == 0.2
    ensures successRate <= 1.0 ==> b == successRate - 0.8
  {
    Min(successRate - 0.8, 0.2)
  }

  /**
   * `_calculate_template_match_score`: 0.6 for the same strategy id, else 0.4
   * for the same path type, plus 0.2 of the description similarity, plus the
   * performance bonus, capped at 1.
   */
  function MatchScore(t: Template, p: ReasoningPath): (s: real)
    ensures s <= 1.0
    ensures t.strategyId != p.strategyId && t.pathType != p.pathType ==> s <= 0.4
    ensures t.strategyId != p.strategyId && t.description == "" ==> s <= 0.6
  {
    var base := if t.strategyId == p.strategyId then 0.6 else if t.pathType == p.pathType then 0.4 else 0.0;
    Min(base + DescriptionSimilarity(t.description, p.description) * 0.2 + PerformanceBonus(t.successRate), 1.0)
  }

  /** The score a selection round gives the pair: the match score plus 0.1 when the template key is the path's strategy. */
  function CandidateScore(templateId: string, t: Template, p: ReasoningPath): (s: real)
    ensures s <= 1.1
    ensures templateId != p.strategyId ==> s == MatchScore(t, p)
  {
    MatchScore(t, p) + (if templateId == p.strategyId then 0.1 else 0.0)
  }

  /**
   * For a template stored under its own strategy id and without a
   * description (every promoted template), a pair passes the 0.85 bar
   * exactly when the path has that strategy and the template's success rate
   * exceeds 0.95: a match on path type alone never fires.
   */
  lemma PromotedTemplateMatch(templateId: string, t: Template, p: ReasoningPath)
    requires t.strategyId == templateId && t.description == ""
    ensures CandidateScore(templateId, t, p) > MatchThreshold <==>
      p.strategyId == templateId && t.successRate > 0.95
  {
    if p.strategyId == templateId {
      assert MatchScore(t, p) == Min(0.6 + PerformanceBonus(t.successRate), 1.0);
    }
  }

  // ---------------------------------------------------------------------
  // The match search
  // ---------------------------------------------------------------------

  /** A template is paired with a path that shares its key as strategy or its path type. */
  predicate Pairs(templateId: string, t: Template, p: ReasoningPath)
  {
    templateId == p.strategyId || t.pathType == p.pathType
  }

  /** The candidates one template yields, in path order. */
  function TemplateCandidates(templateId: string, t: Template, paths: seq<ReasoningPath>): (cs: seq<Match>)
    ensures |cs| <= |paths|
  {
    if |paths| == 0 then []
    else
      var p := paths[|paths| - 1];
      TemplateCandidates(templateId, t, paths[..|paths| - 1])
      + (if Pairs(templateId, t, p)
         then [Match(templateId, p, CandidateScore(templateId, t, p), templateId == p.strategyId)]
         else [])
  }

  /** All candidates, templates in store order and paths in list order. */
  function AllCandidates(ids: seq<string>, store: map<string, Template>, paths: seq<ReasoningPath>): (cs: seq<Match>)
    requires forall id :: id in ids ==> id in store
  {
    if |ids| == 0 then []
    else
      var id := ids[|ids| - 1];
      AllCandidates(ids[..|ids| - 1], store, paths) + TemplateCandidates(id, store[id], paths)
  }

  /** Every candidate of one template carries its key and a path of the list that it pairs with. */
  lemma {:induction false} TemplateCandidatesMembers(templateId: string, t: Template, paths: seq<ReasoningPath>)
    ensures forall c :: c in TemplateCandidates(templateId, t, paths) ==>
      c.templateId == templateId && c.path in paths && Pairs(templateId, t, c.path)
  {
    if |paths| > 0 {
      TemplateCandidatesMembers(templateId, t, paths[..|paths| - 1]);
      assert forall p :: p in paths[..|paths| - 1] ==> p in paths;
    }
  }

  /** Every candidate comes from a listed template and a listed path. */
  lemma {:induction false} AllCandidatesMembers(ids: seq<string>, store: map<string, Template>, paths: seq<ReasoningPath>)
    requires forall id :: id in ids ==> id in store
    ensures forall c :: c in AllCandidates(ids, store, paths) ==> c.templateId in ids && c.path in paths
  {
    if |ids| > 0 {
      var id := ids[|ids| - 1];
      AllCandidatesMembers(ids[..|ids| - 1], store, paths);
      TemplateCandidatesMembers(id, store[id], paths);
      assert forall x :: x in ids[..|ids| - 1] ==> x in ids;
    }
  }

  /** One step of the scan: keep `c` when it passes the bar and beats the best so far. */
  function Step(prev: Option<Match>, c: Match): Option<Match>
  {
    if c.score > MatchThreshold && (prev.None? || c.score > prev.value.score) then Some(c) else prev
  }

  /** The scan over `cs` from an initial best. */
  function Scan(start: Option<Match>, cs: seq<Match>): Option<Match>
  {
    if |cs| == 0 then start else Step(Scan(start, cs[..|cs| - 1]), cs[|cs| - 1])
  }

  lemma ScanStep(start: Option<Match>, cs: seq<Match>, c: Match)
    ensures Scan(start, cs + [c]) == Step(Scan(start, cs), c)
  {
    assert (cs + [c])[..|cs|] == cs;
  }

  /** Scanning two pieces one after the other is scanning their concatenation. */
  lemma {:induction false} ScanAppend(start: Option<Match>, a: seq<Match>, b: seq<Match>)
    ensures Scan(start, a + b) == Scan(Scan(start, a), b)
    decreases |b|
  {
    if |b| == 0 {
      assert a + b == a;
    } else {
      var b0 := b[..|b| - 1];
      ScanAppend(start, a, b0);
      assert a + b == (a + b0) + [b[|b| - 1]];
      ScanStep(start, a + b0, b[|b| - 1]);
    }
  }

  /** `cs[k]` scores highest, and every earlier candidate scores strictly lower. */
  predicate IsFirstBest(cs: seq<Match>, k: int)
  {
    0 <= k < |cs|
    && (forall j :: 0 <= j < |cs| ==> cs[j].score <= cs[k].score)
    && (forall j :: 0 <= j < k ==> cs[j].score < cs[k].score)
  }

  /** What the scan from no candidate keeps: nothing when no score passes the bar, else the first best candidate. */
  lemma {:induction false} ScanFindsFirstBest(cs: seq<Match>)
    ensures Scan(None, cs).None? <==> forall i :: 0 <= i < |cs| ==> cs[i].score <= MatchThreshold
    ensures Scan(None, cs).Some? ==>
      (Scan(None, cs).value.score > MatchThreshold && exists k :: IsFirstBest(cs, k) && cs[k] == Scan(None, cs).value)
  {
    if |cs| > 0 {
      var init := cs[..|cs| - 1];
      ScanFindsFirstBest(init);
      var prev := Scan(None, init);
      var c := cs[|cs| - 1];
      assert cs == init + [c];
      if prev.Some? {
        var k :| IsFirstBest(init, k) && init[k] == prev.value;
        if c.score > MatchThreshold && c.score > prev.value.score {
          FirstBestNew(init, c, prev.value.score);
        } else {
          FirstBestKeep(init, c, k);
        }
      } else if c.score > MatchThreshold {
        FirstBestNew(init, c, MatchThreshold);
      } else {
        assert forall j :: 0 <= j < |init| ==> init[j] == cs[j];
      }
    }
  }

  /** A last candidate that does not beat the first best of the others leaves it first best. */
  lemma FirstBestKeep(init: seq<Match>, c: Match, k: int)
    requires IsFirstBest(init, k) && c.score <= init[k].score
    ensures IsFirstBest(init + [c], k) && (init + [c])[k] == init[k]
  {
  }

  /** A last candidate above a bound every other candidate stays within is the first best. */
  lemma FirstBestNew(init: seq<Match>, c: Match, bound: real)
    requires c.score > bound
    requires forall j :: 0 <= j < |init| ==> init[j].score <= bound
    ensures IsFirstBest(init + [c], |init|)
  {
  }

  /** The candidate a selection round keeps. */
  function BestMatch(cs: seq<Match>): (r: Option<Match>)
    ensures r.None? <==> forall i :: 0 <= i < |cs| ==> cs[i].score <= MatchThreshold
    ensures r.Some? ==> (r.value.score > MatchThreshold && exists k :: IsFirstBest(cs, k) && cs[k] == r.value)
  {
    ScanFindsFirstBest(cs);
    Scan(None, cs)
  }

  lemma TemplateCandidatesStep(id: string, t: Template, paths: seq<ReasoningPath>, i: nat)
    requires i < |paths|
    ensures TemplateCandidates(id, t, paths[..i + 1]) == TemplateCandidates(id, t, paths[..i])
      + (if Pairs(id, t, paths[i])
         then [Match(id, paths[i], CandidateScore(id, t, paths[i]), id == paths[i].strategyId)]
         else [])
  {
    assert paths[..i + 1][..i] == paths[..i];
  }

  /** The inner loop of the search: the paths paired with one template, scanned from the best so far. */
  method ScanTemplate(id: string, t: Template, paths: seq<ReasoningPath>, r0: Option<Match>) returns (r: Option<Match>)
    ensures r == Scan(r0, TemplateCandidates(id, t, paths))
  {
    r := r0;
    var pi := 0;
    while pi < |paths|
      invariant 0 <= pi <= |paths|
      invariant r == Scan(r0, TemplateCandidates(id, t, paths[..pi]))
    {
      var p := paths[pi];
      TemplateCandidatesStep(id, t, paths, pi);
      if id == p.strategyId || t.pathType == p.pathType {
        var score := CandidateScore(id, t, p);
        var c := Match(id, p, score, id == p.strategyId);
        ScanStep(r0, TemplateCandidates(id, t, paths[..pi]), c);
        if score > MatchThreshold && (r.None? || score > r.value.score) {
          r := Some(c);
        }
      } else {
        assert TemplateCandidates(id, t, paths[..pi + 1]) == TemplateCandidates(id, t, paths[..pi]);
      }
      pi := pi + 1;
    }
    assert paths[..|paths|] == paths;
  }

  /** The candidate the template search keeps for `paths`. */
  function GoldenMatch(templates: ODict<Template>, paths: seq<ReasoningPath>): Option<Match>
    requires Valid(templates)
  {
    Scan(None, AllCandidates(templates.keys, templates.m, paths))
  }

  /**
   * The search keeps nothing when no candidate passes the 0.85 bar, and
   * otherwise the first best-scoring candidate, which pairs a stored template
   * with one of the paths.
   */
  lemma GoldenMatchIsBest(templates: ODict<Template>, paths: seq<ReasoningPath>)
    requires Valid(templates)
    ensures GoldenMatch(templates, paths) == BestMatch(AllCandidates(templates.keys, templates.m, paths))
    ensures GoldenMatch(templates, paths).Some? ==>
      GoldenMatch(templates, paths).value.templateId in templates.m
      && GoldenMatch(templates, paths).value.path in paths
  {
    var cs := AllCandidates(templates.keys, templates.m, paths);
    AllCandidatesMembers(templates.keys, templates.m, paths);
    ScanFindsFirstBest(cs);
  }

  /**
   * `_check_golden_template_match`: the nested loop over templates and
   * paths, keeping the best candidate above the bar.
   */
  lemma AllCandidatesStep(ids: seq<string>, store: map<string, Template>, paths: seq<ReasoningPath>, i: nat)
    requires i < |ids|
    requires forall id :: id in ids ==> id in store
    ensures AllCandidates(ids[..i + 1], store, paths)
      == AllCandidates(ids[..i], store, paths) + TemplateCandidates(ids[i], store[ids[i]], paths)
  {
    assert ids[..i + 1][..i] == ids[..i];
  }

  /** The outer loop of the search: the templates `ids` in order, from nothing kept. */
  method ScanTemplates(ids: seq<string>, store: map<string, Template>, paths: seq<ReasoningPath>) returns (r: Option<Match>)
    requires forall id :: id in ids ==> id in store
    ensures r == Scan(None, AllCandidates(ids, store, paths))
  {
    r := None;
    var ti := 0;
    while ti < |ids|
      invariant 0 <= ti <= |ids|
      invariant r == Scan(None, AllCandidates(ids[..ti], store, paths))
    {
      var id := ids[ti];
      AllCandidatesStep(ids, store, paths, ti);
      ScanAppend(None, AllCandidates(ids[..ti], store, paths), TemplateCandidates(id, store[id], paths));
      r := ScanTemplate(id, store[id], paths, r);
      ti := ti + 1;
    }
    assert ids[..|ids|] == ids;
  }

  /**
   * `_check_golden_template_match`: the nested loop over templates and
   * paths, keeping the best candidate above the bar.
   */
  method FindGoldenMatch(templates: ODict<Template>, paths: seq<ReasoningPath>) returns (r: Option<Match>)
    requires Valid(templates)
    ensures r == GoldenMatch(templates, paths)
    ensures r.Some? ==> r.value.templateId in templates.m && r.value.path in paths
  {
    r := ScanTemplates(templates.keys, templates.m, paths);
    GoldenMatchIsBest(templates, paths);
  }

  // ---------------------------------------------------------------------
  // Eviction
  // ---------------------------------------------------------------------

  /** `_calculate_recency_score`: 1 within a day of the last update, falling linearly to 0 at a week. */
  function RecencyScore(t: Template, now: real): (r: real)
    ensures 0.0 <= r <= 1.0
    ensures now - t.lastUpdated <= 24.0 * 3600.0 ==> r == 1.0
    ensures now - t.lastUpdated > 168.0 * 3600.0 ==> r == 0.0
  {
    var hours := (now - t.lastUpdated) / 3600.0;
    if hours <= 24.0 then 1.0
    else if hours <= 168.0 then 1.0 - (hours - 24.0) / 144.0
    else 0.0
  }

  /** `_calculate_template_quality_score`: 40% success rate, 30% usage (saturating at 10), 20% stability, 10% recency. */
  function QualityScore(t: Template, now: real): (q: real)
    ensures 0.0 <= t.successRate <= 1.0 && 0.0 <= t.stabilityScore <= 1.0 ==> 0.0 <= q <= 1.0
  {
    t.successRate * 0.4 + Min((t.usageCount as real) / 10.0, 1.0) * 0.3 + t.stabilityScore * 0.2
    + RecencyScore(t, now) * 0.1
  }

  function Qualities(ids: seq<string>, store: map<string, Template>, now: real): (qs: seq<real>)
    requires forall id :: id in ids ==> id in store
    ensures |qs| == |ids|
    ensures forall i :: 0 <= i < |ids| ==> qs[i] == QualityScore(store[ids[i]], now)
  {
    seq(|ids|, i requires 0 <= i < |ids| => QualityScore(store[ids[i]], now))
  }

  /** Python's `min` over a non-empty sequence: the index of its first minimum. */
  function FirstMinIndex(xs: seq<real>): (k: nat)
    requires |xs| > 0
    ensures IsFirstMin(xs, k)
  {
    if |xs| == 1 then 0
    else
      var k := FirstMinIndex(xs[..|xs| - 1]);
      assert forall j :: 0 <= j < |xs| - 1 ==> xs[..|xs| - 1][j] == xs[j];
      if xs[|xs| - 1] < xs[k] then |xs| - 1 else k
  }

  /** `_remove_worst_golden_template`: the first template, in store order, with the lowest quality. */
  function WorstTemplate(templates: ODict<Template>, now: real): (id: string)
    requires Valid(templates) && |templates.keys| > 0
    ensures id in templates.m
    ensures forall other :: other in templates.m ==>
      QualityScore(templates.m[id], now) <= QualityScore(templates.m[other], now)
  {
    var qs := Qualities(templates.keys, templates.m, now);
    var k := FirstMinIndex(qs);
    templates.keys[k]
  }
}
