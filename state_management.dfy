/**
 * Decision-session state for the LangChain integration: the per-session
 * stage record with its dictionary form, the strategy weights learnt from
 * MAB decisions, and the session manager with its recommendation rule and
 * oldest-first session cleanup.
 */
module StateManagement {
  import opened Outcomes
  import opened Seqs
  import opened OrderedMaps
  import opened Sorting

  /** `DecisionStage`. */
  datatype DecisionStage =
    | ThinkingSeed | SeedVerification | PathGeneration | PathVerification | MabDecision | Completed | Error

  /** The enum's `.value`. */
  function StageName(s: DecisionStage): string
  {
    match s
    case ThinkingSeed => "thinking_seed"
    case SeedVerification => "seed_verification"
    case PathGeneration => "path_generation"
    case PathVerification => "path_verification"
    case MabDecision => "mab_decision"
    case Completed => "completed"
    case Error => "error"
  }

  /** `DecisionStage(value)`: `None` where the constructor raises `ValueError`. */
  function StageFromName(n: string): (r: Option<DecisionStage>)
    ensures r.Some? ==> StageName(r.value) == n
  {
    if n == "thinking_seed" then Some(ThinkingSeed)
    else if n == "seed_verification" then Some(SeedVerification)
    else if n == "path_generation" then Some(PathGeneration)
    else if n == "path_verification" then Some(PathVerification)
    else if n == "mab_decision" then Some(MabDecision)
    else if n == "completed" then Some(Completed)
    else if n == "error" then Some(Error)
    else None
  }

  /** Every stage's name reads back as that stage, so names identify stages. */
  lemma StageNameRoundTrip(s: DecisionStage)
    ensures StageFromName(StageName(s)) == Some(s)
  {
  }

  /** The JSON-like payloads stage results carry. */
  datatype Value = Null | Str(s: string) | Num(x: real) | Flag(b: bool) | List(items: seq<Value>) | Dict(fields: map<string, Value>)

  /** `d.get(k, default)`. */
  function Get(d: map<string, Value>, k: string, default: Value): (r: Value)
    ensures k !in d ==> r == default
  {
    if k in d then d[k] else default
  }

  /** `StageResult`. */
  datatype StageResult = StageResult(
    stage: DecisionStage,
    success: bool,
    data: map<string, Value>,
    executionTime: real,
    errorMessage: Option<string>,
    timestamp: real)

  /** `DecisionState`; an absent execution context is `Null`. */
  datatype DecisionState = DecisionState(
    sessionId: string,
    userQuery: string,
    currentStage: DecisionStage,
    stageResults: map<string, StageResult>,
    executionContext: Value,
    createdAt: real,
    updatedAt: real,
    thinkingSeed: Value,
    reasoningPaths: Value,
    verifiedPaths: Value,
    selectedPath: Value,
    useRagEnhancement: bool,
    maxPaths: int,
    enableVerification: bool)

  /** A new session at the thinking-seed stage with no results. */
  function NewDecisionState(sessionId: string, userQuery: string, context: Value,
                            useRag: bool, maxPaths: int, enableVerification: bool, now: real): (s: DecisionState)
    ensures s.sessionId == sessionId && s.currentStage == ThinkingSeed && s.stageResults == map[]
    ensures s.createdAt == now && s.updatedAt == now
  {
    DecisionState(sessionId, userQuery, ThinkingSeed, map[], context, now, now,
                  Null, List([]), List([]), Null, useRag, maxPaths, enableVerification)
  }

  /** The five working stages, `COMPLETED` and `ERROR` excluded. */
  const WorkingStages: seq<DecisionStage> := [ThinkingSeed, SeedVerification, PathGeneration, PathVerification, MabDecision]

  /** `is_stage_completed`: a result is recorded for the stage and it succeeded. */
  predicate StageCompleted(s: DecisionState, stage: DecisionStage)
  {
    StageName(stage) in s.stageResults && s.stageResults[StageName(stage)].success
  }

  /**
   * `update_stage`: the stage becomes current and its result is recorded
   * under the stage's name; only a successful result of the seed,
   * generation, verification or decision stage copies its data into the
   * intermediate fields.
   */
  function UpdateStage(s: DecisionState, stage: DecisionStage, result: StageResult, now: real): (t: DecisionState)
    ensures t.currentStage == stage && t.updatedAt == now
    ensures t.stageResults == s.stageResults[StageName(stage) := result]
    ensures t.sessionId == s.sessionId && t.createdAt == s.createdAt && t.userQuery == s.userQuery
    ensures !result.success ==>
      t.thinkingSeed == s.thinkingSeed && t.reasoningPaths == s.reasoningPaths && t.verifiedPaths == s.verifiedPaths && t.selectedPath == s.selectedPath
    ensures result.success <==> StageCompleted(t, stage)
  {
    var u := s.(currentStage := stage, stageResults := s.stageResults[StageName(stage) := result], updatedAt := now);
    if !result.success then u
    else if stage == ThinkingSeed then u.(thinkingSeed := Get(result.data, "thinking_seed", Null))
    else if stage == PathGeneration then u.(reasoningPaths := Get(result.data, "reasoning_paths", List([])))
    else if stage == PathVerification then u.(verifiedPaths := Get(result.data, "verified_paths", List([])))
    else if stage == MabDecision then u.(selectedPath := Get(result.data, "selected_path", Null))
    else u
  }

  /** Which working stages are completed, in enum order. */
  function CompletedFlags(s: DecisionState): (r: seq<bool>)
    ensures |r| == |WorkingStages|
    ensures forall i :: 0 <= i < |r| ==> r[i] == StageCompleted(s, WorkingStages[i])
  {
    seq(|WorkingStages|, i requires 0 <= i < |WorkingStages| => StageCompleted(s, WorkingStages[i]))
  }

  /** `get_completion_rate`: completed working stages over five. */
  function CompletionRate(s: DecisionState): (r: real)
    ensures 0.0 <= r <= 1.0
  {
    var flags := CompletedFlags(s);
    CountTrueBound(flags);
    (CountTrue(flags) as real) / 5.0
  }

  /** The rate is 1 exactly when all five working stages are completed. */
  lemma CompletionRateFull(s: DecisionState)
    ensures CompletionRate(s) == 1.0 <==> forall i :: 0 <= i < |WorkingStages| ==> StageCompleted(s, WorkingStages[i])
  {
    var flags := CompletedFlags(s);
    if forall i :: 0 <= i < |flags| ==> flags[i] {
      CountTrueAll(flags);
    } else {
      CountBelowAll(flags);
    }
  }

  lemma {:induction false} CountBelowAll(bs: seq<bool>)
    requires exists i :: 0 <= i < |bs| && !bs[i]
    ensures CountTrue(bs) < |bs|
  {
    var i :| 0 <= i < |bs| && !bs[i];
    if i == |bs| - 1 {
      CountTrueBound(bs[..|bs| - 1]);
    } else {
      assert bs[..|bs| - 1][i] == bs[i];
      CountBelowAll(bs[..|bs| - 1]);
    }
  }

  /** A successful stage update never lowers the completion rate. */
  lemma SuccessNeverLowersCompletion(s: DecisionState, stage: DecisionStage, result: StageResult, now: real)
    requires result.success
    ensures CompletionRate(s) <= CompletionRate(UpdateStage(s, stage, result, now))
  {
    var t := UpdateStage(s, stage, result, now);
    var a, b := CompletedFlags(s), CompletedFlags(t);
    forall i | 0 <= i < |a| ensures a[i] ==> b[i] {
      var n := StageName(WorkingStages[i]);
      if n == StageName(stage) {
        StageNameRoundTrip(stage);
        StageNameRoundTrip(WorkingStages[i]);
      }
    }
    CountTrueMonotone(a, b);
  }

  // ---------------------------------------------------------------------
  // Dictionary form
  // ---------------------------------------------------------------------

  /** `asdict(result)` with the stage written as its name. */
  datatype ResultRecord = ResultRecord(
    stage: string, success: bool, data: map<string, Value>,
    executionTime: real, errorMessage: Option<string>, timestamp: real)

  /** `to_dict()`: the state's fields with stages written as names. */
  datatype StateRecord = StateRecord(
    sessionId: string,
    userQuery: string,
    currentStage: string,
    stageResults: map<string, ResultRecord>,
    executionContext: Value,
    createdAt: real,
    updatedAt: real,
    thinkingSeed: Value,
    reasoningPaths: Value,
    verifiedPaths: Value,
    selectedPath: Value,
    useRagEnhancement: bool,
    maxPaths: int,
    enableVerification: bool)

  function ResultToRecord(r: StageResult): ResultRecord
  {
    ResultRecord(StageName(r.stage), r.success, r.data, r.executionTime, r.errorMessage, r.timestamp)
  }

  function ToDict(s: DecisionState): StateRecord
  {
    StateRecord(s.sessionId, s.userQuery, StageName(s.currentStage),
                map k | k in s.stageResults :: ResultToRecord(s.stageResults[k]),
                s.executionContext, s.createdAt, s.updatedAt, s.thinkingSeed, s.reasoningPaths,
                s.verifiedPaths, s.selectedPath, s.useRagEnhancement, s.maxPaths, s.enableVerification)
  }

  predicate RecordStagesValid(d: StateRecord)
  {
    StageFromName(d.currentStage).Some?
    && forall k :: k in d.stageResults ==> StageFromName(d.stageResults[k].stage).Some?
  }

  /** `from_dict`: an unknown stage name raises `ValueError`, here an error. */
  function FromDict(d: StateRecord): (r: Result<DecisionState>)
    ensures r.Ok? <==> RecordStagesValid(d)
  {
    if !RecordStagesValid(d) then Err("invalid DecisionStage")
    else
      var results := map k | k in d.stageResults ::
        var rr := d.stageResults[k];
        StageResult(StageFromName(rr.stage).value, rr.success, rr.data, rr.executionTime, rr.errorMessage, rr.timestamp);
      Ok(DecisionState(d.sessionId, d.userQuery, StageFromName(d.currentStage).value, results,
                       d.executionContext, d.createdAt, d.updatedAt, d.thinkingSeed, d.reasoningPaths,
                       d.verifiedPaths, d.selectedPath, d.useRagEnhancement, d.maxPaths, d.enableVerification))
  }

  /** Converting to the dictionary form and back gives the same state. */
  lemma FromDictToDict(s: DecisionState)
    ensures FromDict(ToDict(s)) == Ok(s)
  {
    var d := ToDict(s);
    forall k | k in d.stageResults ensures StageFromName(d.stageResults[k].stage).Some? {
      StageNameRoundTrip(s.stageResults[k].stage);
    }
    forall st { StageNameRoundTrip(st); }
    assert FromDict(d).value.stageResults == s.stageResults;
  }

  /** A record that converts to a state is that state's dictionary form. */
  lemma ToDictFromDict(d: StateRecord)
    requires FromDict(d).Ok?
    ensures ToDict(FromDict(d).value) == d
  {
    var s := FromDict(d).value;
    assert ToDict(s).stageResults == d.stageResults;
  }

  // ---------------------------------------------------------------------
  // Strategy weights
  // ---------------------------------------------------------------------

  /** `strategy_weights.get(id, 0.5)`. */
  function WeightOf(weights: map<string, real>, id: string): real
  {
    if id in weights then weights[id] else 0.5
  }

  /** `get_strategy_confidence` from a strategy's count: 0.5 when unused, else `min(1, count / 10)`. */
  function CountConfidence(count: nat): (r: real)
    ensures 0.0 <= r <= 1.0
    ensures count == 0 ==> r == 0.5
    ensures count >= 10 ==> r == 1.0
  {
    if count == 0 then 0.5 else Min(1.0, (count as real) / 10.0)
  }

  /** Past the first use, more uses never lower a strategy's confidence. */
  lemma ConfidenceMonotone(a: nat, b: nat)
    requires 0 < a <= b
    ensures CountConfidence(a) <= CountConfidence(b)
  {
    assert (a as real) / 10.0 <= (b as real) / 10.0;
  }

  /** `MABWeights`. */
  class MabWeights {
    var weights: map<string, real>
    var counts: map<string, nat>
    var rewards: map<string, seq<real>>
    var totalRounds: nat
    var lastUpdated: real

    /** Each known strategy's count is its number of rewards and its weight their mean. */
    ghost predicate Invariant()
      reads this
    {
      && weights.Keys == counts.Keys && counts.Keys == rewards.Keys
      && forall k :: k in counts ==> counts[k] == |rewards[k]| && (|rewards[k]| > 0 ==> weights[k] == Mean(rewards[k]))
    }

    constructor (now: real)
      ensures Invariant()
      ensures weights == map[] && counts == map[] && rewards == map[] && totalRounds == 0
    {
      weights, counts, rewards := map[], map[], map[];
      totalRounds := 0;
      lastUpdated := now;
    }

    /**
     * `update_strategy`: the reward is appended to the strategy's rewards
     * (a new strategy starts with none), its count goes up by one and its
     * weight becomes the mean of its rewards.
     */
    method UpdateStrategy(id: string, reward: real, now: real)
      requires Invariant()
      modifies `weights, `counts, `rewards, `totalRounds, `lastUpdated
      ensures Invariant()
      ensures var before := if id in old(rewards) then old(rewards)[id] else [];
        && rewards == old(rewards)[id := before + [reward]]
        && counts == old(counts)[id := |before| + 1]
        && weights == old(weights)[id := Mean(before + [reward])]
      ensures totalRounds == old(totalRounds) + 1 && lastUpdated == now
    {
      var before := if id in rewards then rewards[id] else [];
      var history := before + [reward];
      rewards := rewards[id := history];
      counts := counts[id := |history|];
      weights := weights[id := Mean(history)];
      totalRounds := totalRounds + 1;
      lastUpdated := now;
    }

    function StrategyConfidence(id: string): (r: real)
      reads this
      ensures 0.0 <= r <= 1.0
      ensures id !in counts ==> r == 0.5
    {
      if id !in counts then 0.5 else CountConfidence(counts[id])
    }
  }

  /** Repeated rewards of 1.0 keep a strategy's weight at 1.0: the mean of all-one rewards. */
  lemma AllSuccessWeight(xs: seq<real>)
    requires |xs| > 0 && forall i :: 0 <= i < |xs| ==> xs[i] == 1.0
    ensures Mean(xs) == 1.0
  {
    SumConstant(xs, 1.0);
  }

  /**
   * The strategy id of a successful MAB decision's data:
   * `data.get("selected_path", {}).get("strategy_id")` when truthy. A
   * selected path that is not a dictionary has no `get`, an error here.
   */
  function DecisionStrategy(data: map<string, Value>): (r: Result<Option<string>>)
    ensures r.Err? <==> !Get(data, "selected_path", Dict(map[])).Dict?
    ensures r.Ok? && r.value.Some? ==> r.value.value != ""
  {
    var sp := Get(data, "selected_path", Dict(map[]));
    if !sp.Dict? then Err("selected_path has no get")
    else
      var sid := Get(sp.fields, "strategy_id", Null);
      if sid.Str? && sid.s != "" then Ok(Some(sid.s)) else Ok(None)
  }

  // ---------------------------------------------------------------------
  // Session cleanup
  // ---------------------------------------------------------------------

  /** `(session_id, created_at)` for every session, in insertion order. */
  function CreationEntries(d: ODict<DecisionState>): (r: seq<Entry>)
    requires Valid(d)
    ensures |r| == |d.keys|
    ensures forall i :: 0 <= i < |r| ==> r[i] == (d.keys[i], d.m[d.keys[i]].createdAt)
  {
    seq(|d.keys|, i requires 0 <= i < |d.keys| => (d.keys[i], d.m[d.keys[i]].createdAt))
  }

  function Ids(es: seq<Entry>): (r: seq<string>)
    ensures |r| == |es|
    ensures forall i :: 0 <= i < |es| ==> r[i] == es[i].0
  {
    seq(|es|, i requires 0 <= i < |es| => es[i].0)
  }

  /** The sessions by creation time, oldest first (ties in insertion order). */
  function OldestFirst(d: ODict<DecisionState>): (r: seq<Entry>)
    requires Valid(d)
    ensures |r| == Size(d)
  {
    SortByCorrect(CreationEntries(d), false);
    SortBy(CreationEntries(d), false)
  }

  /** `len(sessions) - max_sessions + 100`: how many sessions cleanup sets out to delete. */
  function CleanupCount(d: ODict<DecisionState>, maxSessions: nat): int
  {
    Size(d) - maxSessions + 100
  }

  /**
   * `_cleanup_old_sessions` as written: below the limit nothing happens;
   * otherwise it deletes `CleanupCount` sessions oldest first, indexing
   * past the end of the session list (an `IndexError`) when the count
   * exceeds the number of sessions.
   */
  function CleanupAsWritten(d: ODict<DecisionState>, maxSessions: nat): (r: Result<ODict<DecisionState>>)
    requires Valid(d)
    ensures Size(d) < maxSessions ==> r == Ok(d)
    ensures r.Ok? ==> Valid(r.value) && forall k :: k in r.value.m ==> k in d.m && r.value.m[k] == d.m[k]
  {
    if Size(d) < maxSessions then Ok(d)
    else if CleanupCount(d, maxSessions) > Size(d) then Err("list index out of range")
    else Ok(RemoveAll(d, Ids(OldestFirst(d)[..CleanupCount(d, maxSessions)])))
  }

  /** At the limit, the cleanup as written raises exactly when the limit is below 100. */
  lemma CleanupRaisesBelowHundred(d: ODict<DecisionState>, maxSessions: nat)
    requires Valid(d) && Size(d) >= maxSessions
    ensures CleanupAsWritten(d, maxSessions).Err? <==> maxSessions < 100
  {
  }

  /** One session with a limit of one: creating a second session raises. */
  lemma SmallLimitCleanupRaises(s: DecisionState)
    ensures CleanupAsWritten(ODict([s.sessionId], map[s.sessionId := s]), 1).Err?
  {
    assert Size(ODict([s.sessionId], map[s.sessionId := s])) == 1;
  }

  /** How many sessions the corrected cleanup deletes: the count, or every session when it is larger. */
  function CleanupTake(d: ODict<DecisionState>, maxSessions: nat): (n: nat)
    ensures n <= Size(d)
  {
    var c := CleanupCount(d, maxSessions);
    if c <= 0 then 0 else if c <= Size(d) then c else Size(d)
  }

  /** The sessions the corrected cleanup deletes, in deletion order. */
  function Doomed(d: ODict<DecisionState>, maxSessions: nat): seq<string>
    requires Valid(d)
  {
    Ids(OldestFirst(d)[..CleanupTake(d, maxSessions)])
  }

  /** The cleanup with the deletion count capped at the number of sessions. */
  function CleanedUp(d: ODict<DecisionState>, maxSessions: nat): (r: ODict<DecisionState>)
    requires Valid(d)
    ensures Valid(r)
    ensures forall k :: k in r.m ==> k in d.m && r.m[k] == d.m[k]
    ensures Size(d) >= maxSessions ==> r.m == d.m - (set k | k in Doomed(d, maxSessions))
  {
    if Size(d) < maxSessions then d else RemoveAll(d, Doomed(d, maxSessions))
  }

  /** Every entry of the sorted list is a session's id with its creation time. */
  lemma OldestFirstEntry(d: ODict<DecisionState>, p: nat)
    requires Valid(d) && p < |OldestFirst(d)|
    ensures OldestFirst(d)[p].0 in d.m && OldestFirst(d)[p].1 == d.m[OldestFirst(d)[p].0].createdAt
  {
    SortByCorrect(CreationEntries(d), false);
    var e := OldestFirst(d)[p];
    assert e in multiset(CreationEntries(d));
    var j :| 0 <= j < |d.keys| && CreationEntries(d)[j] == e;
  }

  /** Every session appears in the sorted list. */
  lemma OldestFirstCovers(d: ODict<DecisionState>, k: string) returns (p: nat)
    requires Valid(d) && k in d.m
    ensures p < |OldestFirst(d)| && OldestFirst(d)[p] == (k, d.m[k].createdAt)
  {
    SortByCorrect(CreationEntries(d), false);
    var j :| 0 <= j < |d.keys| && d.keys[j] == k;
    var e := CreationEntries(d)[j];
    assert e in multiset(OldestFirst(d));
    p :| 0 <= p < |OldestFirst(d)| && OldestFirst(d)[p] == e;
  }

  /** A kept session sits in the sorted list after the deleted prefix. */
  lemma KeptAfterPrefix(d: ODict<DecisionState>, maxSessions: nat, kept: string) returns (p: nat)
    requires Valid(d) && Size(d) >= maxSessions && kept in CleanedUp(d, maxSessions).m
    ensures CleanupTake(d, maxSessions) <= p < |OldestFirst(d)|
    ensures OldestFirst(d)[p] == (kept, d.m[kept].createdAt)
    ensures kept in Ids(OldestFirst(d)[CleanupTake(d, maxSessions)..])
  {
    var order := OldestFirst(d);
    var n := CleanupTake(d, maxSessions);
    var doomed := Doomed(d, maxSessions);
    assert kept !in doomed;
    assert forall q :: 0 <= q < n ==> order[q].0 == doomed[q];
    p := OldestFirstCovers(d, kept);
    assert Ids(order[n..])[p - n] == kept;
  }

  /**
   * At the limit, the corrected cleanup leaves at most `maxSessions - 100`
   * sessions (none when the limit is at most 100), so the session about to
   * be created fits.
   */
  lemma CleanedUpSize(d: ODict<DecisionState>, maxSessions: nat)
    requires Valid(d) && Size(d) >= maxSessions
    ensures Size(CleanedUp(d, maxSessions)) <= (if maxSessions >= 100 then maxSessions - 100 else 0)
  {
    SortByCorrect(CreationEntries(d), false);
    var order := OldestFirst(d);
    var n := CleanupTake(d, maxSessions);
    var r := CleanedUp(d, maxSessions);
    var rest := Ids(order[n..]);
    KeptInRest(d, maxSessions);
    var restSet := set k | k in rest;
    assert r.m.Keys <= restSet;
    SubsetCard(r.m.Keys, restSet);
    SeqSetCard(rest);
    SizeIsCard(r);
    assert |rest| == Size(d) - n;
  }

  /** Every session the cleanup keeps comes after the deleted prefix of the oldest-first order. */
  lemma KeptInRest(d: ODict<DecisionState>, maxSessions: nat)
    requires Valid(d) && Size(d) >= maxSessions
    ensures CleanupTake(d, maxSessions) <= |OldestFirst(d)|
    ensures forall k :: k in CleanedUp(d, maxSessions).m ==> k in Ids(OldestFirst(d)[CleanupTake(d, maxSessions)..])
  {
    forall k | k in CleanedUp(d, maxSessions).m
      ensures k in Ids(OldestFirst(d)[CleanupTake(d, maxSessions)..])
    {
      var _ := KeptAfterPrefix(d, maxSessions, k);
    }
  }

  /** The corrected cleanup deletes oldest first: no deleted session is newer than a kept one. */
  lemma CleanedUpOldestFirst(d: ODict<DecisionState>, maxSessions: nat, gone: string, kept: string)
    requires Valid(d) && Size(d) >= maxSessions
    requires gone in d.m && gone !in CleanedUp(d, maxSessions).m && kept in CleanedUp(d, maxSessions).m
    ensures d.m[gone].createdAt <= d.m[kept].createdAt
  {
    SortByCorrect(CreationEntries(d), false);
    var order := OldestFirst(d);
    var doomed := Doomed(d, maxSessions);
    var i :| 0 <= i < |doomed| && doomed[i] == gone;
    OldestFirstEntry(d, i);
    var p := KeptAfterPrefix(d, maxSessions, kept);
    assert !Precedes(order[p], order[i], false);
  }

  /** A deque-free loop over the sorted ids, deleting each in turn. */
  method DeleteEach(d: ODict<DecisionState>, ids: seq<string>) returns (r: ODict<DecisionState>)
    requires Valid(d)
    ensures r == RemoveAll(d, ids)
  {
    r := d;
    var i := 0;
    while i < |ids|
      invariant 0 <= i <= |ids|
      invariant r == RemoveAll(d, ids[..i])
    {
      assert ids[..i + 1][..i] == ids[..i];
      r := Remove(r, ids[i]);
      i := i + 1;
    }
    assert ids[..|ids|] == ids;
  }

  /** The sessions a caller can hold at most: a limit of 0 still keeps the newest session. */
  function SessionCapacity(maxSessions: nat): nat
  {
    if maxSessions == 0 then 1 else maxSessions
  }

  // ---------------------------------------------------------------------
  // The manager
  // ---------------------------------------------------------------------

  /** `NeogenesisStateManager` in memory: active sessions and strategy weights. */
  class StateManager {
    var sessions: ODict<DecisionState>
    const weights: MabWeights
    const maxSessions: nat

    ghost predicate Invariant()
      reads this, weights
    {
      && Valid(sessions)
      && (forall k :: k in sessions.m ==> sessions.m[k].sessionId == k)
      && Size(sessions) <= SessionCapacity(maxSessions)
      && weights.Invariant()
    }

    constructor (maxSessions: nat, now: real)
      ensures Invariant() && fresh(weights)
      ensures sessions == Empty() && this.maxSessions == maxSessions
    {
      sessions := Empty();
      this.maxSessions := maxSessions;
      weights := new MabWeights(now);
    }

    /** `_cleanup_old_sessions`, deleting at most every session. */
    method CleanupOldSessions()
      requires Valid(sessions)
      modifies `sessions
      ensures sessions == CleanedUp(old(sessions), maxSessions)
    {
      if Size(sessions) < maxSessions {
        return;
      }
      sessions := DeleteEach(sessions, Doomed(sessions, maxSessions));
    }

    /**
     * `create_session`: at the limit old sessions are cleaned up first;
     * then the new session, at the thinking-seed stage, is stored under
     * its id.
     */
    method CreateSession(sessionId: string, userQuery: string, context: Value,
                         useRag: bool, maxPaths: int, enableVerification: bool, now: real) returns (s: DecisionState)
      requires Invariant()
      modifies `sessions
      ensures Invariant()
      ensures s == NewDecisionState(sessionId, userQuery, context, useRag, maxPaths, enableVerification, now)
      ensures var base := if Size(old(sessions)) >= maxSessions then CleanedUp(old(sessions), maxSessions) else old(sessions);
        sessions == Put(base, sessionId, s)
    {
      ghost var before := sessions;
      if Size(sessions) >= maxSessions {
        CleanupOldSessions();
        CleanedUpSize(before, maxSessions);
      }
      s := NewDecisionState(sessionId, userQuery, context, useRag, maxPaths, enableVerification, now);
      sessions := Put(sessions, sessionId, s);
    }

    /** `get_session` for sessions in memory. */
    function GetSession(sessionId: string): (r: Option<DecisionState>)
      reads this
      ensures r.Some? <==> sessionId in sessions.m
      ensures r.Some? ==> r.value == sessions.m[sessionId]
    {
      if sessionId in sessions.m then Some(sessions.m[sessionId]) else None
    }

    /**
     * `update_session_stage`: an unknown session gives false; otherwise the
     * stage result is recorded and, for a successful MAB decision naming a
     * strategy, that strategy is rewarded with 1.0.
     */
    method UpdateSessionStage(sessionId: string, stage: DecisionStage, success: bool, data: map<string, Value>,
                              executionTime: real, errorMessage: Option<string>, now: real) returns (r: Result<bool>)
      requires Invariant()
      modifies `sessions, weights
      ensures Invariant()
      ensures sessionId !in old(sessions).m ==>
        r == Ok(false) && sessions == old(sessions) && unchanged(weights)
      ensures sessionId in old(sessions).m ==>
        sessions == Put(old(sessions), sessionId,
          UpdateStage(old(sessions).m[sessionId], stage, StageResult(stage, success, data, executionTime, errorMessage, now), now))
      ensures sessionId in old(sessions).m && stage == MabDecision && success ==>
        match DecisionStrategy(data)
        case Err(_) => r.Err? && unchanged(weights)
        case Ok(None) => r == Ok(true) && unchanged(weights)
        case Ok(Some(sid)) =>
          && r == Ok(true) && weights.totalRounds == old(weights.totalRounds) + 1
          && weights.rewards == old(weights.rewards)[sid := (if sid in old(weights.rewards) then old(weights.rewards)[sid] else []) + [1.0]]
      ensures sessionId in old(sessions).m && !(stage == MabDecision && success) ==> r == Ok(true) && unchanged(weights)
    {
      if sessionId !in sessions.m {
        return Ok(false);
      }
      RecordStage(sessionId, stage, StageResult(stage, success, data, executionTime, errorMessage, now), now);
      if stage == MabDecision && success {
        var sid := DecisionStrategy(data);
        if sid.Err? {
          return Err(sid.message);
        }
        if sid.value.Some? {
          weights.UpdateStrategy(sid.value.value, 1.0, now);
        }
      }
      r := Ok(true);
    }

    /** The session's record of a finished stage, kept under the same identifier. */
    method RecordStage(sessionId: string, stage: DecisionStage, result: StageResult, now: real)
      requires Invariant() && sessionId in sessions.m
      modifies `sessions
      ensures Invariant()
      ensures sessions == Put(old(sessions), sessionId, UpdateStage(old(sessions).m[sessionId], stage, result, now))
    {
      sessions := Put(sessions, sessionId, UpdateStage(sessions.m[sessionId], stage, result, now));
    }

    /** `complete_session`: the stage becomes `COMPLETED`. */
    method CompleteSession(sessionId: string, now: real) returns (ok: bool)
      requires Invariant()
      modifies `sessions
      ensures Invariant()
      ensures ok <==> sessionId in old(sessions).m
      ensures !ok ==> sessions == old(sessions)
      ensures ok ==> sessions == Put(old(sessions), sessionId,
        old(sessions).m[sessionId].(currentStage := Completed, updatedAt := now))
    {
      if sessionId !in sessions.m {
        return false;
      }
      sessions := Put(sessions, sessionId, sessions.m[sessionId].(currentStage := Completed, updatedAt := now));
      ok := true;
    }

    /** `cleanup_session`. */
    method CleanupSession(sessionId: string) returns (ok: bool)
      requires Invariant()
      modifies `sessions
      ensures Invariant()
      ensures ok <==> sessionId in old(sessions).m
      ensures sessions == Remove(old(sessions), sessionId)
    {
      ok := sessionId in sessions.m;
      sessions := Remove(sessions, sessionId);
    }

    /**
     * `get_strategy_recommendation`: "" for no strategies; otherwise the
     * first strategy with the highest weight, unknown strategies weighing 0.5.
     */
    method StrategyRecommendation(available: seq<string>) returns (best: string)
      ensures |available| == 0 ==> best == ""
      ensures |available| > 0 ==> exists k :: IsFirstMax(WeightsOf(weights.weights, available), k) && best == available[k]
    {
      if |available| == 0 {
        return "";
      }
      var ws := WeightsOf(weights.weights, available);
      var k := 0;
      var bestWeight := WeightOf(weights.weights, available[0]);
      var i := 1;
      while i < |available|
        invariant 1 <= i <= |available|
        invariant IsFirstMax(ws[..i], k) && bestWeight == ws[k]
      {
        var w := WeightOf(weights.weights, available[i]);
        if w > bestWeight {
          k, bestWeight := i, w;
        }
        i := i + 1;
      }
      assert ws[..|available|] == ws;
      best := available[k];
    }
  }

  function WeightsOf(weights: map<string, real>, ids: seq<string>): (r: seq<real>)
    ensures |r| == |ids|
    ensures forall i :: 0 <= i < |ids| ==> r[i] == WeightOf(weights, ids[i])
  {
    seq(|ids|, i requires 0 <= i < |ids| => WeightOf(weights, ids[i]))
  }
}
