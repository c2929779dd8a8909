/**
 * The cognitive scheduler: the idle-detection state machine that switches
 * between task-driven and cognitive-idle mode, the queue of background
 * cognitive tasks with its high-priority insertion, the registry of active
 * tasks with timeout cleanup, and the recursive configuration merge. The
 * worker and scheduler threads are not modelled; one pass of the scheduler
 * loop is the method `Tick`, and every clock reading is a parameter `now`.
 */
module CognitiveScheduler {
  import opened Outcomes
  import opened Seqs
  import opened Text

  datatype CognitiveMode = TaskDriven | CognitiveIdle | DeepReflection | CreativeIdeation | KnowledgeExploration

  /** `CognitiveTask` without its free-form context. */
  datatype CognitiveTask = CognitiveTask(taskId: string, taskType: string, priority: int, createdAt: real, estimatedDuration: real)

  const Retrospection: string := "retrospection"
  const Ideation: string := "ideation"
  const KnowledgeSynthesis: string := "knowledge_synthesis"
  const Exploration: string := "knowledge_exploration"

  /** A task as built with the post-initialisation default: an empty id becomes `<type>_<milliseconds>`. */
  function MakeTask(taskId: string, taskType: string, priority: int, now: real, estimated: real): (t: CognitiveTask)
    requires now >= 0.0
    ensures t.taskType == taskType && t.priority == priority && t.createdAt == now && t.estimatedDuration == estimated
    ensures taskId != "" ==> t.taskId == taskId
    ensures taskId == "" ==> t.taskId == StampedId(taskType + "_", now)
  {
    CognitiveTask(if taskId != "" then taskId else StampedId(taskType + "_", now), taskType, priority, now, estimated)
  }

  /** The scheduler's configuration values that its logic reads. */
  datatype SchedulerConfig = SchedulerConfig(
    minIdleDuration: real,
    ideationInterval: real,
    explorationInterval: real,
    taskTimeout: real,
    userDirectedTimeout: real,
    explorationTimeout: real)

  const DefaultConfig: SchedulerConfig := SchedulerConfig(10.0, 120.0, 180.0, 180.0, 60.0, 120.0)

  // ---------------------------------------------------------------------
  // Idle detection
  // ---------------------------------------------------------------------

  /** The state manager reports a finished task: the completion phase, or a goal achieved or failed. */
  predicate IsTaskCompleted(phase: string, goalStatus: string)
  {
    phase == "completion" || goalStatus == "achieved" || goalStatus == "failed"
  }

  datatype Transition = Enter(idleDuration: real) | Exit | Stay

  /** The outcome of one idle detection: the new idle flag, the completion timestamp and the transition to run. */
  datatype Detection = Detection(isIdle: bool, completion: Option<real>, transition: Transition)

  /**
   * `_detect_idle_state` as written: a completion timestamp is recorded the
   * first time a completed task is seen and kept until idle mode is left; the
   * system is idle when the current task is completed and the time since that
   * timestamp reaches the minimum. Leaving idle mode clears the timestamp.
   */
  function DetectIdleAsWritten(wasIdle: bool, completion: Option<real>, completed: bool, now: real, minIdle: real): (d: Detection)
    ensures !completed ==> !d.isIdle
    ensures completed && Truthy(completion) ==> (d.isIdle <==> now - completion.value >= minIdle)
    ensures completed && !Truthy(completion) ==> (d.isIdle <==> minIdle <= 0.0)
    ensures d.transition.Enter? <==> d.isIdle && !wasIdle
    ensures d.transition.Exit? <==> !d.isIdle && wasIdle
    ensures d.transition.Exit? ==> d.completion.None?
    ensures completion.Some? && !d.transition.Exit? ==> d.completion == completion
  {
    var c := if completed && completion.None? then Some(now) else completion;
    var duration := if Truthy(c) then now - c.value else 0.0;
    var idle := completed && duration >= minIdle;
    if idle && !wasIdle then Detection(idle, c, Enter(duration))
    else if !idle && wasIdle then Detection(idle, None, Exit)
    else Detection(idle, c, Stay)
  }

  /**
   * A task that completes, is followed by new work before the idle minimum,
   * and completes again is treated as idle at once: the first completion's
   * timestamp was never cleared, so the active period counts as idle time.
   */
  lemma StaleCompletionSkipsIdleWait()
    ensures var first := DetectIdleAsWritten(false, None, true, 100.0, 10.0);
            var resumed := DetectIdleAsWritten(first.isIdle, first.completion, false, 105.0, 10.0);
            var again := DetectIdleAsWritten(resumed.isIdle, resumed.completion, true, 200.0, 10.0);
            !first.isIdle && !resumed.isIdle && resumed.completion == Some(100.0)
            && again.isIdle && again.transition == Enter(100.0)
  {
  }

  /**
   * The idle detection with the completion timestamp cleared whenever the
   * task is not completed, so that idle time is measured from the latest
   * completion.
   */
  function DetectIdle(wasIdle: bool, completion: Option<real>, completed: bool, now: real, minIdle: real): (d: Detection)
    ensures !completed ==> !d.isIdle
    ensures completed && Truthy(completion) ==> (d.isIdle <==> now - completion.value >= minIdle)
    ensures completed && !Truthy(completion) ==> (d.isIdle <==> minIdle <= 0.0)
    ensures d.transition.Enter? <==> d.isIdle && !wasIdle
    ensures d.transition.Exit? <==> !d.isIdle && wasIdle
    ensures !completed ==> d.completion.None?
    ensures completed && completion.Some? && !d.transition.Exit? ==> d.completion == completion
    ensures completed && completion.None? && !d.transition.Exit? ==> d.completion == Some(now)
  {
    var c := if !completed then None else if completion.None? then Some(now) else completion;
    var duration := if Truthy(c) then now - c.value else 0.0;
    var idle := completed && duration >= minIdle;
    if idle && !wasIdle then Detection(idle, c, Enter(duration))
    else if !idle && wasIdle then Detection(idle, None, Exit)
    else Detection(idle, c, Stay)
  }

  /** Run the corrected detection over a sequence of (completed, clock) observations. */
  function Observe(wasIdle: bool, completion: Option<real>, obs: seq<(bool, real)>, minIdle: real): (d: Detection)
    decreases |obs|
  {
    if |obs| == 0 then Detection(wasIdle, completion, Stay)
    else
      var d := DetectIdle(wasIdle, completion, obs[0].0, obs[0].1, minIdle);
      if |obs| == 1 then d else Observe(d.isIdle, d.completion, obs[1..], minIdle)
  }

  /**
   * With the correction, idleness always waits out the minimum after the
   * latest completion: whenever the detector reports idle, the current task has been
   * completed without interruption since an observation at least the
   * minimum earlier.
   */
  lemma {:induction false} IdleWaitsAfterLatestCompletion(wasIdle: bool, completion: Option<real>, obs: seq<(bool, real)>, minIdle: real)
    requires |obs| > 0 && minIdle > 0.0
    requires completion.Some? ==> completion.value <= obs[0].1
    requires completion.Some? ==> completion.value != 0.0
    requires forall i :: 0 <= i < |obs| ==> obs[i].1 > 0.0
    requires forall i, j :: 0 <= i < j < |obs| ==> obs[i].1 <= obs[j].1
    requires !obs[0].0
    ensures var d := Observe(wasIdle, completion, obs, minIdle);
            d.isIdle ==> exists k :: 0 < k < |obs| && obs[|obs| - 1].1 - obs[k].1 >= minIdle
                                     && forall j :: k <= j < |obs| ==> obs[j].0
    decreases |obs|
  {
    var d0 := DetectIdle(wasIdle, completion, obs[0].0, obs[0].1, minIdle);
    assert d0.completion.None? && !d0.isIdle;
    if |obs| > 1 {
      IdleWaitsFrom(d0.isIdle, d0.completion, obs[1..], minIdle, 1, obs);
    }
  }

  /** The inductive step: from a cleared timestamp, idleness needs a completed streak at least the minimum long. */
  lemma {:induction false} IdleWaitsFrom(wasIdle: bool, completion: Option<real>, rest: seq<(bool, real)>, minIdle: real,
                                         offset: nat, obs: seq<(bool, real)>)
    requires |rest| > 0 && offset + |rest| == |obs| && rest == obs[offset..] && offset > 0
    requires minIdle > 0.0
    requires forall i :: 0 <= i < |obs| ==> obs[i].1 > 0.0
    requires forall i, j :: 0 <= i < j < |obs| ==> obs[i].1 <= obs[j].1
    // the timestamp, when set, is the clock reading of the first observation of the current completed streak
    requires completion.Some? ==> exists k :: 0 < k < offset && completion.value == obs[k].1
                                             && forall j :: k <= j < offset ==> obs[j].0
    ensures var d := Observe(wasIdle, completion, rest, minIdle);
            d.isIdle ==> exists k :: 0 < k < |obs| && obs[|obs| - 1].1 - obs[k].1 >= minIdle
                                     && forall j :: k <= j < |obs| ==> obs[j].0
    decreases |rest|
  {
    var d := DetectIdle(wasIdle, completion, rest[0].0, rest[0].1, minIdle);
    assert rest[0] == obs[offset];
    var streak := d.completion.Some? ==> exists k :: 0 < k < offset + 1 && d.completion.value == obs[k].1
                                                     && forall j :: k <= j < offset + 1 ==> obs[j].0;
    if d.completion.Some? {
      if completion.Some? && rest[0].0 {
        var k :| 0 < k < offset && completion.value == obs[k].1 && forall j :: k <= j < offset ==> obs[j].0;
        assert d.completion.value == obs[k].1;
        assert forall j :: k <= j < offset + 1 ==> obs[j].0;
      } else {
        assert d.completion.value == obs[offset].1;
      }
    }
    if |rest| == 1 {
      if d.isIdle {
        var k :| 0 < k < offset + 1 && d.completion.value == obs[k].1 && forall j :: k <= j < offset + 1 ==> obs[j].0;
        assert obs[|obs| - 1] == rest[0];
      }
    } else {
      assert rest[1..] == obs[offset + 1..];
      IdleWaitsFrom(d.isIdle, d.completion, rest[1..], minIdle, offset + 1, obs);
    }
  }

  // ---------------------------------------------------------------------
  // The queue of cognitive tasks
  // ---------------------------------------------------------------------

  /** Non-increasing priority from the front of the queue. */
  predicate ByPriority(ts: seq<CognitiveTask>)
  {
    forall i, j :: 0 <= i < j < |ts| ==> ts[i].priority >= ts[j].priority
  }

  /** Stable insertion of a task that came before all of `ys`: it goes before the first task of no higher priority. */
  function InsertByPriority(x: CognitiveTask, ys: seq<CognitiveTask>): (r: seq<CognitiveTask>)
    ensures multiset(r) == multiset(ys) + multiset{x}
    ensures |r| == |ys| + 1
  {
    if |ys| == 0 then [x]
    else if ys[0].priority <= x.priority then [x] + ys
    else
      assert ys == [ys[0]] + ys[1..];
      [ys[0]] + InsertByPriority(x, ys[1..])
  }

  /** Python's stable `sort(key=priority, reverse=True)`. */
  function SortByPriority(ts: seq<CognitiveTask>): (r: seq<CognitiveTask>)
    ensures multiset(r) == multiset(ts) && |r| == |ts|
  {
    if |ts| == 0 then []
    else
      assert ts == [ts[0]] + ts[1..];
      InsertByPriority(ts[0], SortByPriority(ts[1..]))
  }

  lemma {:induction false} InsertByPriorityOrdered(x: CognitiveTask, ys: seq<CognitiveTask>)
    requires ByPriority(ys)
    ensures ByPriority(InsertByPriority(x, ys))
  {
    if |ys| > 0 && ys[0].priority > x.priority {
      var rest := ys[1..];
      InsertByPriorityOrdered(x, rest);
      InsertByPriorityMembers(x, rest);
      var r := InsertByPriority(x, rest);
      forall j | 0 <= j < |r| ensures r[j].priority <= ys[0].priority {
        assert r[j] in r;
        if r[j] != x {
          var t :| 0 <= t < |rest| && rest[t] == r[j];
          assert ys[t + 1] == r[j];
        }
      }
      ConsByPriority(ys[0], r);
    }
  }

  /** Every task of the insertion is the inserted one or one of the queue. */
  lemma {:induction false} InsertByPriorityMembers(x: CognitiveTask, ys: seq<CognitiveTask>)
    ensures forall e :: e in InsertByPriority(x, ys) ==> e == x || e in ys
  {
    if |ys| > 0 && ys[0].priority > x.priority {
      InsertByPriorityMembers(x, ys[1..]);
      assert ys == [ys[0]] + ys[1..];
    }
  }

  /** A task of no lower priority than any of an ordered queue can lead it. */
  lemma ConsByPriority(y: CognitiveTask, r: seq<CognitiveTask>)
    requires ByPriority(r)
    requires forall j :: 0 <= j < |r| ==> r[j].priority <= y.priority
    ensures ByPriority([y] + r)
  {
    forall i, j | 0 <= i < j < |r| + 1 ensures ([y] + r)[i].priority >= ([y] + r)[j].priority {
      assert ([y] + r)[j] == r[j - 1];
      if i > 0 {
        assert ([y] + r)[i] == r[i - 1];
      }
    }
  }

  /** The sort orders by priority and keeps every task. */
  lemma {:induction false} SortByPriorityOrdered(ts: seq<CognitiveTask>)
    ensures ByPriority(SortByPriority(ts))
  {
    if |ts| > 0 {
      SortByPriorityOrdered(ts[1..]);
      InsertByPriorityOrdered(ts[0], SortByPriority(ts[1..]));
    }
  }

  /** `_insert_high_priority_task`: the new task first, then the queued tasks by descending priority. */
  function HighPriorityQueue(queue: seq<CognitiveTask>, task: CognitiveTask): (r: seq<CognitiveTask>)
    ensures |r| == |queue| + 1 && r[0] == task
    ensures multiset(r) == multiset(queue) + multiset{task}
    ensures ByPriority(r[1..])
  {
    SortByPriorityOrdered(queue);
    assert ([task] + SortByPriority(queue))[1..] == SortByPriority(queue);
    [task] + SortByPriority(queue)
  }

  // ---------------------------------------------------------------------
  // Strategy selection for user-directed exploration
  // ---------------------------------------------------------------------

  const TrendKeywords: seq<string> := ["最新", "趋势", "发展", "动态", "latest", "trend"]
  const MethodKeywords: seq<string> := ["如何", "方法", "解决", "how", "solution", "method"]
  const CompareKeywords: seq<string> := ["比较", "对比", "compare", "versus", "vs"]
  const NoveltyKeywords: seq<string> := ["创新", "新颖", "innovative", "creative", "novel"]

  /** One of `keywords` occurs in `text`. */
  predicate Mentions(text: string, keywords: seq<string>)
  {
    exists i :: 0 <= i < |keywords| && Contains(text, keywords[i])
  }

  /** The strategies the source may return. */
  predicate KnownStrategy(s: string)
  {
    s in ["trend_monitoring", "domain_expansion", "expert_knowledge", "gap_analysis",
          "competitive_intelligence", "cross_domain_learning", "serendipity_discovery"]
  }

  /** All strategies of the matching keyword groups, in group order, before truncation. */
  function MatchedStrategies(q: string): seq<string>
  {
    (if Mentions(q, TrendKeywords) then ["trend_monitoring", "domain_expansion"] else [])
    + (if Mentions(q, MethodKeywords) then ["expert_knowledge", "gap_analysis"] else [])
    + (if Mentions(q, CompareKeywords) then ["competitive_intelligence", "cross_domain_learning"] else [])
    + (if Mentions(q, NoveltyKeywords) then ["serendipity_discovery", "cross_domain_learning"] else [])
  }

  /**
   * `_select_user_directed_strategies`: the strategies of every keyword
   * group the lower-cased query mentions, the two defaults when it mentions
   * none, and never more than three.
   */
  function SelectUserDirectedStrategies(query: string): (r: seq<string>)
    ensures 0 < |r| <= 3
    ensures forall i :: 0 <= i < |r| ==> KnownStrategy(r[i])
    ensures MatchedStrategies(Lower(query)) == [] <==> r == ["domain_expansion", "expert_knowledge"]
    ensures MatchedStrategies(Lower(query)) != [] ==> r == FirstN(MatchedStrategies(Lower(query)), 3)
  {
    var all := MatchedStrategies(Lower(query));
    if all == [] then ["domain_expansion", "expert_knowledge"]
    else
      assert all[0] != "domain_expansion" || |all| < 2 || all[1] != "expert_knowledge";
      FirstN(all, 3)
  }

  /** A query that names a trend gets trend monitoring first. */
  lemma TrendQueryMonitorsFirst(query: string)
    requires Mentions(Lower(query), TrendKeywords)
    ensures SelectUserDirectedStrategies(query)[0] == "trend_monitoring"
  {
  }

  // ---------------------------------------------------------------------
  // Active tasks
  // ---------------------------------------------------------------------

  /** A task is expired once strictly more than the timeout has passed since its creation. */
  predicate Expired(t: CognitiveTask, now: real, timeout: real)
  {
    now - t.createdAt > timeout
  }

  /** `_cleanup_expired_tasks` as a function: exactly the unexpired tasks remain. */
  function Unexpired(active: map<string, CognitiveTask>, now: real, timeout: real): (r: map<string, CognitiveTask>)
    ensures forall id :: id in r <==> id in active && !Expired(active[id], now, timeout)
    ensures forall id :: id in r ==> r[id] == active[id]
  {
    map id | id in active && !Expired(active[id], now, timeout) :: active[id]
  }

  /** A later cleanup removes at least what an earlier one did, and cleaning twice is cleaning once. */
  lemma CleanupMonotone(active: map<string, CognitiveTask>, now: real, later: real, timeout: real)
    requires now <= later
    ensures Unexpired(active, later, timeout).Keys <= Unexpired(active, now, timeout).Keys
    ensures Unexpired(Unexpired(active, now, timeout), now, timeout) == Unexpired(active, now, timeout)
  {
  }

  // ---------------------------------------------------------------------
  // Configuration merge
  // ---------------------------------------------------------------------

  /** A configuration value: a leaf, or a nested dictionary. */
  datatype ConfigValue = Leaf(value: string) | Section(entries: map<string, ConfigValue>)

  /**
   * `_merge_config`: every user key is taken over, except that a dictionary
   * given for a key whose base value is also a dictionary is merged into it
   * recursively; base keys the user does not mention are kept.
   */
  function MergeConfig(base: map<string, ConfigValue>, user: ConfigValue): (r: map<string, ConfigValue>)
    requires user.Section?
    ensures r.Keys == base.Keys + user.entries.Keys
    ensures forall k :: k in base && k !in user.entries ==> r[k] == base[k]
    ensures forall k :: k in user.entries && !(k in base && base[k].Section? && user.entries[k].Section?) ==> r[k] == user.entries[k]
    ensures forall k :: k in user.entries && k in base && base[k].Section? && user.entries[k].Section? ==>
              r[k].Section? && r[k].entries.Keys == base[k].entries.Keys + user.entries[k].entries.Keys
    decreases user
  {
    map k | k in base.Keys + user.entries.Keys ::
      if k !in user.entries then base[k]
      else if k in base && base[k].Section? && user.entries[k].Section? then Section(MergeConfig(base[k].entries, user.entries[k]))
      else user.entries[k]
  }

  /** Merging a configuration into its own entries gives them back unchanged. */
  lemma {:induction false} MergeConfigSelf(user: ConfigValue)
    requires user.Section?
    ensures MergeConfig(user.entries, user) == user.entries
    decreases user
  {
    var r := MergeConfig(user.entries, user);
    forall k | k in r.Keys
      ensures r[k] == user.entries[k]
    {
      if user.entries[k].Section? {
        MergeConfigSelf(user.entries[k]);
      }
    }
  }

  /** Merging the same user configuration twice gives what merging it once gives. */
  lemma {:induction false} MergeConfigIdempotent(base: map<string, ConfigValue>, user: ConfigValue)
    requires user.Section?
    ensures MergeConfig(MergeConfig(base, user), user) == MergeConfig(base, user)
    decreases user
  {
    var once := MergeConfig(base, user);
    var twice := MergeConfig(once, user);
    forall k | k in twice.Keys
      ensures twice[k] == once[k]
    {
      if k in user.entries && user.entries[k].Section? && once[k].Section? {
        if k in base && base[k].Section? {
          MergeConfigIdempotent(base[k].entries, user.entries[k]);
        } else {
          MergeConfigSelf(user.entries[k]);
        }
      }
    }
  }

  /** An empty user configuration changes nothing. */
  lemma MergeEmptyConfig(base: map<string, ConfigValue>)
    ensures MergeConfig(base, Section(map[])) == base
  {
  }

  // ---------------------------------------------------------------------
  // The scheduler
  // ---------------------------------------------------------------------

  datatype SchedulerStats = SchedulerStats(
    totalIdlePeriods: nat,
    totalIdleTime: real,
    cognitiveTasksCompleted: nat,
    retrospectionSessions: nat,
    ideationSessions: nat,
    synthesisSessions: nat,
    explorationSessions: nat,
    userDirectedExplorations: nat)

  const KnownTaskTypes: seq<string> := [Retrospection, Ideation, KnowledgeSynthesis, Exploration]

  /** The session counter of a known task type, counted as its handler starts; other counters unchanged. */
  function CountSession(s: SchedulerStats, taskType: string): (r: SchedulerStats)
    ensures r.cognitiveTasksCompleted == s.cognitiveTasksCompleted
    ensures r.totalIdlePeriods == s.totalIdlePeriods && r.totalIdleTime == s.totalIdleTime
    ensures r.userDirectedExplorations == s.userDirectedExplorations
    ensures r.retrospectionSessions + r.ideationSessions + r.synthesisSessions + r.explorationSessions
            == s.retrospectionSessions + s.ideationSessions + s.synthesisSessions + s.explorationSessions
               + (if taskType in KnownTaskTypes then 1 else 0)
  {
    if taskType == Retrospection then s.(retrospectionSessions := s.retrospectionSessions + 1)
    else if taskType == Ideation then s.(ideationSessions := s.ideationSessions + 1)
    else if taskType == KnowledgeSynthesis then s.(synthesisSessions := s.synthesisSessions + 1)
    else if taskType == Exploration then s.(explorationSessions := s.explorationSessions + 1)
    else s
  }

  /** `_should_trigger_knowledge_synthesis`: a non-empty history whose length is a multiple of five. */
  predicate ShouldTriggerSynthesis(historyLength: nat)
  {
    historyLength > 0 && historyLength % 5 == 0
  }

  /** One type of task is among the active tasks. */
  predicate HasActiveTaskType(active: map<string, CognitiveTask>, taskType: string)
  {
    exists id :: id in active && active[id].taskType == taskType
  }

  class Scheduler {
    const cfg: SchedulerConfig
    var mode: CognitiveMode
    var isIdle: bool
    var lastActivityTime: real
    var lastTaskCompletionTime: Option<real>
    var queue: seq<CognitiveTask>
    var active: map<string, CognitiveTask>
    var history: seq<CognitiveTask>
    var stats: SchedulerStats
    var lastExplorationTime: real

    /** Mode and idle flag agree: idle mode exactly while idle. */
    ghost predicate Invariant()
      reads this
    {
      (mode == CognitiveIdle <==> isIdle) && (mode == TaskDriven || mode == CognitiveIdle)
    }

    constructor (cfg: SchedulerConfig, now: real)
      ensures Invariant() && this.cfg == cfg
      ensures mode == TaskDriven && !isIdle && lastActivityTime == now && lastTaskCompletionTime == None
      ensures queue == [] && active == map[] && history == [] && lastExplorationTime == 0.0
      ensures stats == SchedulerStats(0, 0.0, 0, 0, 0, 0, 0, 0)
    {
      this.cfg := cfg;
      mode, isIdle, lastActivityTime, lastTaskCompletionTime := TaskDriven, false, now, None;
      queue, active, history, lastExplorationTime := [], map[], [], 0.0;
      stats := SchedulerStats(0, 0.0, 0, 0, 0, 0, 0, 0);
    }

    /** `_enter_idle_state`: idle mode, one more idle period, and a retrospection task queued. */
    method EnterIdleState(now: real)
      requires now >= 0.0
      modifies `mode, `stats, `queue
      ensures mode == CognitiveIdle
      ensures stats == old(stats).(totalIdlePeriods := old(stats).totalIdlePeriods + 1)
      ensures queue == old(queue) + [MakeTask("", Retrospection, 7, now, 45.0)]
    {
      mode := CognitiveIdle;
      stats := stats.(totalIdlePeriods := stats.totalIdlePeriods + 1);
      queue := queue + [MakeTask("", Retrospection, 7, now, 45.0)];
    }

    /** `_exit_idle_state`: the idle time since the completion is added up, and task-driven mode resumes. */
    method ExitIdleState(now: real)
      modifies `mode, `stats, `lastTaskCompletionTime
      ensures mode == TaskDriven && lastTaskCompletionTime == None
      ensures stats == old(stats).(totalIdleTime := old(stats).totalIdleTime
                        + if Truthy(old(lastTaskCompletionTime)) then now - old(lastTaskCompletionTime).value else 0.0)
    {
      if Truthy(lastTaskCompletionTime) {
        stats := stats.(totalIdleTime := stats.totalIdleTime + (now - lastTaskCompletionTime.value));
      }
      mode := TaskDriven;
      lastTaskCompletionTime := None;
    }

    /**
     * `_detect_idle_state` with the corrected timestamp handling: the idle
     * flag follows `DetectIdle`, and a change of it enters or leaves idle mode.
     */
    method DetectIdleState(completed: bool, now: real)
      requires Invariant() && now >= 0.0
      modifies `isIdle, `lastTaskCompletionTime, `mode, `stats, `queue
      ensures Invariant()
      ensures var d := DetectIdle(old(isIdle), old(lastTaskCompletionTime), completed, now, cfg.minIdleDuration);
              && isIdle == d.isIdle
              && lastTaskCompletionTime == (if d.transition.Exit? then None else d.completion)
              && (d.transition.Enter? ==> stats.totalIdlePeriods == old(stats).totalIdlePeriods + 1
                                          && queue == old(queue) + [MakeTask("", Retrospection, 7, now, 45.0)])
              && (!d.transition.Enter? ==> stats.totalIdlePeriods == old(stats).totalIdlePeriods && queue == old(queue))
    {
      var d := DetectIdle(isIdle, lastTaskCompletionTime, completed, now, cfg.minIdleDuration);
      if d.transition.Exit? {
        // the idle time is measured from the timestamp the period started with
        isIdle := false;
        ExitIdleState(now);
      } else {
        lastTaskCompletionTime := d.completion;
        isIdle := d.isIdle;
        if d.transition.Enter? {
          EnterIdleState(now);
        }
      }
    }

    /**
     * `_handle_idle_state`: an ideation task when no activity for the
     * ideation interval and none active, an autonomous exploration task when
     * the exploration interval has passed and none active, and a synthesis
     * task when the history length calls for one.
     */
    method HandleIdleState(now: real)
      requires now >= 0.0
      modifies `queue, `lastExplorationTime
      ensures var ideate := now - old(lastActivityTime) >= cfg.ideationInterval && !HasActiveTaskType(active, Ideation);
              var explore := now - old(lastExplorationTime) >= cfg.explorationInterval && !HasActiveTaskType(active, Exploration);
              && queue == old(queue)
                          + (if ideate then [MakeTask("", Ideation, 5, now, 60.0)] else [])
                          + (if explore then [MakeTask("", Exploration, 3, now, cfg.explorationTimeout)] else [])
                          + (if ShouldTriggerSynthesis(|history|) then [MakeTask("", KnowledgeSynthesis, 6, now, 90.0)] else [])
              && lastExplorationTime == if explore then now else old(lastExplorationTime)
    {
      if now - lastActivityTime >= cfg.ideationInterval && !HasActiveTaskType(active, Ideation) {
        queue := queue + [MakeTask("", Ideation, 5, now, 60.0)];
      }
      if now - lastExplorationTime >= cfg.explorationInterval && !HasActiveTaskType(active, Exploration) {
        queue := queue + [MakeTask("", Exploration, 3, now, cfg.explorationTimeout)];
        lastExplorationTime := now;
      }
      if ShouldTriggerSynthesis(|history|) {
        queue := queue + [MakeTask("", KnowledgeSynthesis, 6, now, 90.0)];
      }
    }

    /** `_cleanup_expired_tasks`: drops every active task older than the timeout. */
    method CleanupExpiredTasks(now: real)
      modifies `active
      ensures active == Unexpired(old(active), now, cfg.taskTimeout)
    {
      var expired: set<string> := set id | id in active && Expired(active[id], now, cfg.taskTimeout);
      ghost var before := active;
      while expired != {}
        invariant expired <= active.Keys
        invariant forall id :: id in active <==> id in before && (id in expired || !Expired(before[id], now, cfg.taskTimeout))
        invariant forall id :: id in active ==> active[id] == before[id]
        decreases expired
      {
        var id :| id in expired;
        active := active - {id};
        expired := expired - {id};
      }
    }

    /** One pass of the scheduler loop: detect idleness, handle the state, clean up expired tasks. */
    method Tick(completed: bool, now: real)
      requires Invariant() && now >= 0.0
      modifies this
      ensures Invariant()
      ensures isIdle == DetectIdle(old(isIdle), old(lastTaskCompletionTime), completed, now, cfg.minIdleDuration).isIdle
      ensures !isIdle ==> lastActivityTime == now
      ensures active == Unexpired(old(active), now, cfg.taskTimeout)
    {
      DetectIdleState(completed, now);
      if isIdle {
        HandleIdleState(now);
      } else {
        lastActivityTime := now;
      }
      CleanupExpiredTasks(now);
    }

    /**
     * `schedule_user_directed_exploration`: always counted; a non-empty query
     * puts a priority-10 exploration task at the front of the queue, while an
     * empty one falls through to the autonomous priority-3 task at the back.
     */
    method ScheduleUserDirectedExploration(query: string, now: real)
      requires now >= 0.0
      modifies `stats, `queue, `lastExplorationTime
      ensures stats == old(stats).(userDirectedExplorations := old(stats).userDirectedExplorations + 1)
      ensures query != "" ==> queue == HighPriorityQueue(old(queue), MakeTask("", Exploration, 10, now, cfg.userDirectedTimeout))
      ensures query == "" ==> queue == old(queue) + [MakeTask("", Exploration, 3, now, cfg.explorationTimeout)]
      ensures lastExplorationTime == now
    {
      stats := stats.(userDirectedExplorations := stats.userDirectedExplorations + 1);
      if query != "" {
        InsertHighPriorityTask(MakeTask("", Exploration, 10, now, cfg.userDirectedTimeout));
      } else {
        queue := queue + [MakeTask("", Exploration, 3, now, cfg.explorationTimeout)];
      }
      lastExplorationTime := now;
    }

    /** `_insert_high_priority_task`: drain the queue, put the new task, put the drained tasks back by priority. */
    method InsertHighPriorityTask(task: CognitiveTask)
      modifies `queue
      ensures queue == HighPriorityQueue(old(queue), task)
    {
      var temp := Drain();
      // the new task first, then the others by priority
      var q := Requeue(task, SortByPriority(temp));
      queue := q;
    }

    /** Take out every queued task, front first. */
    method Drain() returns (temp: seq<CognitiveTask>)
      ensures temp == queue
    {
      temp := [];
      var rest := queue;
      while |rest| > 0
        invariant temp + rest == queue
        decreases |rest|
      {
        assert temp + rest == (temp + [rest[0]]) + rest[1..];
        temp := temp + [rest[0]];
        rest := rest[1..];
      }
    }

    /** Put `task` and then each of `sorted` back, in order. */
    method Requeue(task: CognitiveTask, sorted: seq<CognitiveTask>) returns (q: seq<CognitiveTask>)
      ensures q == [task] + sorted
    {
      q := [task];
      var i := 0;
      while i < |sorted|
        invariant 0 <= i <= |sorted|
        invariant q == [task] + sorted[..i]
      {
        assert sorted[..i + 1] == sorted[..i] + [sorted[i]];
        q := q + [sorted[i]];
        i := i + 1;
      }
      assert sorted[..i] == sorted;
    }


    /**
     * `_execute_cognitive_task`'s bookkeeping: a task is active while it
     * runs; a task of a known type counts its session as its handler starts,
     * and, unless the handler raised (`handlerRaised`), is recorded in the
     * history and counted as completed; an unknown type is only logged.
     * Afterwards no active task has its id. The handlers' work itself is not
     * part of this model.
     */
    method ExecuteCognitiveTask(task: CognitiveTask, handlerRaised: bool)
      modifies `active, `history, `stats
      ensures active == old(active) - {task.taskId}
      ensures task.taskType in KnownTaskTypes && !handlerRaised ==>
                history == old(history) + [task]
                && stats == CountSession(old(stats), task.taskType).(cognitiveTasksCompleted := old(stats).cognitiveTasksCompleted + 1)
      ensures task.taskType in KnownTaskTypes && handlerRaised ==>
                history == old(history) && stats == CountSession(old(stats), task.taskType)
      ensures task.taskType !in KnownTaskTypes ==> history == old(history) && stats == old(stats)
    {
      active := active[task.taskId := task];
      if task.taskType in KnownTaskTypes {
        stats := CountSession(stats, task.taskType);
        if !handlerRaised {
          history := history + [task];
          stats := stats.(cognitiveTasksCompleted := stats.cognitiveTasksCompleted + 1);
        }
      }
      active := active - {task.taskId};
    }

    /** `_on_state_change`: goal progress, or a successful turn, counts as activity. */
    method OnStateChange(eventType: string, success: bool, now: real)
      modifies `lastActivityTime
      ensures lastActivityTime == if eventType == "goal_progress" || (eventType == "turn_completed" && success) then now
                                  else old(lastActivityTime)
    {
      if eventType == "goal_progress" {
        lastActivityTime := now;
      } else if eventType == "turn_completed" && success {
        lastActivityTime := now;
      }
    }
  }
}
