/**
 * The LLM provider manager: per-provider health bookkeeping, provider
 * selection by preference, and request execution with fallback to other
 * providers. The provider clients themselves are foreign: what a client
 * answers is an input (`reply`), indexed by the attempt's position in the
 * list of providers to try.
 */
module LlmManager {
  import opened Outcomes
  import opened Seqs
  import opened OrderedMaps

  /** `ProviderStatus`. */
  datatype ProviderStatus = ProviderStatus(
    name: string,
    enabled: bool,
    healthy: bool,
    lastCheck: real,
    errorCount: nat,
    successCount: nat,
    avgResponseTime: real,
    lastError: Option<string>)

  /** The routing part of the manager's configuration. */
  datatype LlmConfig = LlmConfig(
    primaryProvider: string,
    preferredProviders: seq<string>,
    fallbackProviders: seq<string>,
    autoFallback: bool)

  /** `DEFAULT_LLM_CONFIG`'s routing entries. */
  const DefaultConfig: LlmConfig :=
    LlmConfig("auto", ["deepseek", "openai", "anthropic", "ollama"], ["openai", "anthropic", "ollama", "deepseek"], true)

  /** The `primary_provider` value that asks for automatic choice. */
  const Auto: string := "auto"

  /** Consecutive errors after which a provider is marked unhealthy. */
  const UnhealthyAfter: nat := 3

  /** Seconds between two unforced health checks (the interval key is absent from the manager's configuration). */
  const HealthCheckInterval: real := 300.0

  datatype Stats = Stats(
    totalRequests: nat,
    successfulRequests: nat,
    failedRequests: nat,
    fallbackCount: nat,
    providerUsage: map<string, nat>)

  /** What one client call gives: a successful response, an unsuccessful one, or an exception. */
  datatype Reply = Replied(content: string, responseTime: real) | Refused(error: string, responseTime: real) | Raised(error: string)

  datatype ErrorReason = NoProviders | NoSelection | AllFailed(lastError: Option<string>)

  /**
   * What a request returns: a provider's answer, the one provider's own
   * failed response (when it was the only one to try), or an error response
   * the manager builds.
   */
  datatype Response = Answer(provider: string, content: string) | ProviderError(provider: string, error: string) | ManagerError(reason: ErrorReason)

  /** The mutable part of the manager: provider statuses in registration order, and the counters. */
  datatype Manager = Manager(status: ODict<ProviderStatus>, stats: Stats)

  /** A registered provider whose status is healthy (providers and statuses are registered together). */
  predicate Usable(status: map<string, ProviderStatus>, n: string)
  {
    n in status && status[n].healthy
  }

  /** The first usable name of `names`. */
  function FirstUsable(names: seq<string>, status: map<string, ProviderStatus>): (r: Option<string>)
    ensures r.Some? ==> r.value in names && Usable(status, r.value)
    ensures r.Some? ==> exists k :: 0 <= k < |names| && names[k] == r.value && forall j :: 0 <= j < k ==> !Usable(status, names[j])
    ensures r.None? <==> forall n :: n in names ==> !Usable(status, n)
  {
    if |names| == 0 then None
    else if Usable(status, names[0]) then Some(names[0])
    else
      var r := FirstUsable(names[1..], status);
      assert forall n :: n in names <==> n == names[0] || n in names[1..];
      if r.Some? then
        var k :| 0 <= k < |names[1..]| && names[1..][k] == r.value && forall j :: 0 <= j < k ==> !Usable(status, names[1..][j]);
        assert names[k + 1] == r.value;
        r
      else r
  }

  /**
   * `_select_provider`: the preferred provider if it is usable; else the
   * first usable provider of the preference order (automatic mode) or the
   * configured primary provider if usable; else the first usable provider
   * in registration order; else none. An empty name means no preference.
   */
  function SelectProvider(status: ODict<ProviderStatus>, cfg: LlmConfig, preferred: string): (r: Option<string>)
    requires Valid(status)
    ensures r.Some? ==> Usable(status.m, r.value)
    ensures r.None? <==> forall n :: n in status.m ==> !status.m[n].healthy
    ensures preferred != "" && Usable(status.m, preferred) ==> r == Some(preferred)
    ensures (preferred == "" || !Usable(status.m, preferred)) && cfg.primaryProvider != Auto && Usable(status.m, cfg.primaryProvider)
            ==> r == Some(cfg.primaryProvider)
  {
    if preferred != "" && Usable(status.m, preferred) then Some(preferred)
    else
      var byConfig :=
        if cfg.primaryProvider == Auto then FirstUsable(cfg.preferredProviders, status.m)
        else if Usable(status.m, cfg.primaryProvider) then Some(cfg.primaryProvider)
        else None;
      if byConfig.Some? then byConfig else FirstUsable(status.keys, status.m)
  }

  /**
   * `_update_provider_stats` on one status: a success counts, clears the
   * error count and marks the provider healthy; an error counts, and the
   * third consecutive one marks it unhealthy. The average response time
   * starts at the first time measured and then halves towards each new one.
   */
  function Recorded(s: ProviderStatus, success: bool, responseTime: real, now: real): (r: ProviderStatus)
    ensures r.name == s.name && r.enabled == s.enabled && r.lastCheck == now
    ensures success ==> r.healthy && r.errorCount == 0 && r.successCount == s.successCount + 1
    ensures !success ==> r.errorCount == s.errorCount + 1 && r.successCount == s.successCount
                         && r.avgResponseTime == s.avgResponseTime
    ensures !success ==> (r.healthy <==> s.healthy && r.errorCount < UnhealthyAfter)
  {
    if success then
      s.(lastCheck := now, successCount := s.successCount + 1, errorCount := 0, healthy := true,
         avgResponseTime := if s.avgResponseTime == 0.0 then responseTime else (s.avgResponseTime + responseTime) / 2.0)
    else
      s.(lastCheck := now, errorCount := s.errorCount + 1,
         healthy := if s.errorCount + 1 >= UnhealthyAfter then false else s.healthy)
  }

  /** Response times within [lo, hi] keep the average within [lo, hi] once it has started. */
  lemma AverageResponseTimeBounds(s: ProviderStatus, responseTime: real, now: real, lo: real, hi: real)
    requires lo <= responseTime <= hi
    requires s.avgResponseTime == 0.0 || lo <= s.avgResponseTime <= hi
    ensures lo <= Recorded(s, true, responseTime, now).avgResponseTime <= hi
  {
  }

  /** `k` failed calls in a row. */
  function FailedTimes(s: ProviderStatus, k: nat, now: real): ProviderStatus
  {
    if k == 0 then s else Recorded(FailedTimes(s, k - 1, now), false, 0.0, now)
  }

  /**
   * A healthy provider with no recorded errors stays healthy through two
   * consecutive errors and is unhealthy from the third on.
   */
  lemma {:induction false} ThirdErrorMarksUnhealthy(s: ProviderStatus, k: nat, now: real)
    requires s.healthy && s.errorCount == 0
    ensures FailedTimes(s, k, now).errorCount == k
    ensures FailedTimes(s, k, now).healthy <==> k < UnhealthyAfter
  {
    if k > 0 {
      ThirdErrorMarksUnhealthy(s, k - 1, now);
    }
  }

  /** One success after any run of errors restores the provider. */
  lemma SuccessRestores(s: ProviderStatus, k: nat, responseTime: real, now: real)
    ensures Recorded(FailedTimes(s, k, now), true, responseTime, now).healthy
    ensures Recorded(FailedTimes(s, k, now), true, responseTime, now).errorCount == 0
  {
  }

  /** The status table with one call recorded for a registered provider. */
  function WithCall(status: ODict<ProviderStatus>, p: string, success: bool, responseTime: real, now: real): (r: ODict<ProviderStatus>)
    requires Valid(status) && p in status.m
    ensures Valid(r) && r.keys == status.keys && r.m.Keys == status.m.Keys
    ensures r.m[p] == Recorded(status.m[p], success, responseTime, now)
    ensures forall n :: n in status.m && n != p ==> r.m[n] == status.m[n]
  {
    ODict(status.keys, status.m[p := Recorded(status.m[p], success, responseTime, now)])
  }

  /** The registered fallbacks other than the selected provider, in configured order. */
  function Fallbacks(fallbacks: seq<string>, selected: string, status: map<string, ProviderStatus>): (r: seq<string>)
    ensures forall n :: n in r <==> n in fallbacks && n != selected && n in status
  {
    if |fallbacks| == 0 then []
    else
      var rest := Fallbacks(fallbacks[1..], selected, status);
      assert forall n :: n in fallbacks <==> n == fallbacks[0] || n in fallbacks[1..];
      if fallbacks[0] != selected && fallbacks[0] in status then [fallbacks[0]] + rest else rest
  }

  /** `providers_to_try`: the selected provider, then (with automatic fallback) the other registered fallbacks. */
  function TryList(selected: string, cfg: LlmConfig, status: map<string, ProviderStatus>): (r: seq<string>)
    ensures |r| > 0 && r[0] == selected
    ensures forall i :: 1 <= i < |r| ==> r[i] != selected && r[i] in status && r[i] in cfg.fallbackProviders
    ensures !cfg.autoFallback ==> r == [selected]
  {
    var rest := if cfg.autoFallback then Fallbacks(cfg.fallbackProviders, selected, status) else [];
    assert forall i :: 1 <= i < |[selected] + rest| ==> ([selected] + rest)[i] in rest;
    [selected] + rest
  }

  /** Every provider to try is registered. */
  predicate Registered(tries: seq<string>, status: map<string, ProviderStatus>)
  {
    forall i :: 0 <= i < |tries| ==> tries[i] in status
  }

  /**
   * The outcome of calling one healthy provider: the request either ends
   * (`done`) with `response`, or the run moves on with `lastError`.
   */
  datatype Step = Step(st: Manager, done: bool, response: Response, lastError: Option<string>)

  /**
   * One call of a healthy provider `p` in `_execute_with_fallback`: a
   * success is counted and ends the request; an unsuccessful response moves
   * on (counting a fallback) when `several` providers are to be tried, and
   * otherwise ends the request with the provider's error; an exception
   * moves on.
   */
  function Call(st: Manager, p: string, r: Reply, several: bool, now: real): (s: Step)
    requires Valid(st.status) && p in st.status.m
    ensures Valid(s.st.status) && s.st.status.keys == st.status.keys && s.st.status.m.Keys == st.status.m.Keys
  {
    match r
    case Replied(content, t) =>
      var usage := (if p in st.stats.providerUsage then st.stats.providerUsage[p] else 0) + 1;
      Step(Manager(WithCall(st.status, p, true, t, now),
                   st.stats.(successfulRequests := st.stats.successfulRequests + 1,
                             providerUsage := st.stats.providerUsage[p := usage])),
           true, Answer(p, content), None)
    case Refused(e, t) =>
      var after := st.(status := WithCall(st.status, p, false, t, now));
      if several then Step(after.(stats := after.stats.(fallbackCount := after.stats.fallbackCount + 1)), false, ManagerError(AllFailed(Some(e))), Some(e))
      else Step(after, true, ProviderError(p, e), Some(e))
    case Raised(e) =>
      Step(st.(status := WithCall(st.status, p, false, 0.0, now)), false, ManagerError(AllFailed(Some(e))), Some(e))
  }

  /**
   * `_execute_with_fallback` from the `i`-th provider to try on: unhealthy
   * providers are skipped, healthy ones are called in turn until a call
   * ends the request; when every provider has been passed, the request
   * counts as failed.
   */
  function Execute(st: Manager, tries: seq<string>, i: nat, reply: nat -> Reply, lastError: Option<string>, now: real)
    : (Manager, Response)
    requires Valid(st.status) && Registered(tries, st.status.m) && i <= |tries|
    decreases |tries| - i
  {
    if i == |tries| then
      (st.(stats := st.stats.(failedRequests := st.stats.failedRequests + 1)), ManagerError(AllFailed(lastError)))
    else if !st.status.m[tries[i]].healthy then Execute(st, tries, i + 1, reply, lastError, now)
    else
      var s := Call(st, tries[i], reply(i), |tries| > 1, now);
      if s.done then (s.st, s.response) else Execute(s.st, tries, i + 1, reply, s.lastError, now)
  }

  /** Past the end of the try list the request counts as failed. */
  lemma ExecuteExhausted(st: Manager, tries: seq<string>, reply: nat -> Reply, lastError: Option<string>, now: real)
    requires Valid(st.status) && Registered(tries, st.status.m)
    ensures Execute(st, tries, |tries|, reply, lastError, now)
            == (st.(stats := st.stats.(failedRequests := st.stats.failedRequests + 1)), ManagerError(AllFailed(lastError)))
  {
  }

  /** One position of the try list, taken by a call or skipped, advances `Execute` by one. */
  lemma ExecuteStep(st: Manager, tries: seq<string>, i: nat, reply: nat -> Reply, lastError: Option<string>, now: real,
                    st': Manager, done: bool, response: Response, lastError': Option<string>)
    requires Valid(st.status) && Registered(tries, st.status.m) && i < |tries|
    requires !st.status.m[tries[i]].healthy ==> !done && st' == st && lastError' == lastError
    requires st.status.m[tries[i]].healthy ==> Step(st', done, response, lastError') == Call(st, tries[i], reply(i), |tries| > 1, now)
    ensures Valid(st'.status) && Registered(tries, st'.status.m)
    ensures done ==> Execute(st, tries, i, reply, lastError, now) == (st', response)
    ensures !done ==> Execute(st, tries, i, reply, lastError, now) == Execute(st', tries, i + 1, reply, lastError', now)
  {
  }

  /**
   * What one request does to the counters and the statuses: an answer
   * comes from a provider to try that is healthy afterwards and counts as a
   * success; a manager error means every provider failed and counts as a
   * failure; a provider's own error is returned only when it was the only
   * provider to try, and counts as neither. Providers that are all
   * unhealthy are never called.
   */
  lemma {:induction false} ExecuteAccounting(st: Manager, tries: seq<string>, i: nat, reply: nat -> Reply, lastError: Option<string>, now: real)
    requires Valid(st.status) && Registered(tries, st.status.m) && i <= |tries|
    ensures var r := Execute(st, tries, i, reply, lastError, now);
      && Valid(r.0.status) && r.0.status.keys == st.status.keys && r.0.status.m.Keys == st.status.m.Keys
      && r.0.stats.totalRequests == st.stats.totalRequests
      && (r.1.Answer? ==> r.0.stats.successfulRequests == st.stats.successfulRequests + 1
                          && r.0.stats.failedRequests == st.stats.failedRequests
                          && r.1.provider in tries[i..] && Usable(r.0.status.m, r.1.provider)
                          && r.0.status.m[r.1.provider].errorCount == 0)
      && (r.1.ManagerError? ==> r.1.reason.AllFailed?
                                && r.0.stats.failedRequests == st.stats.failedRequests + 1
                                && r.0.stats.successfulRequests == st.stats.successfulRequests)
      && (r.1.ProviderError? ==> |tries| == 1 && r.1.provider == tries[0]
                                 && r.0.stats.failedRequests == st.stats.failedRequests
                                 && r.0.stats.successfulRequests == st.stats.successfulRequests)
      && ((forall j :: i <= j < |tries| ==> !st.status.m[tries[j]].healthy) ==> r.0.status == st.status)
    decreases |tries| - i
  {
    if i < |tries| {
      var p := tries[i];
      if !st.status.m[p].healthy {
        ExecuteAccounting(st, tries, i + 1, reply, lastError, now);
      } else {
        var s := Call(st, p, reply(i), |tries| > 1, now);
        if !s.done {
          ExecuteAccounting(s.st, tries, i + 1, reply, s.lastError, now);
        }
      }
    }
  }

  /** A healthy selected provider that answers is the one whose answer is returned. */
  lemma HealthyFirstAnswers(st: Manager, tries: seq<string>, reply: nat -> Reply, now: real)
    requires Valid(st.status) && Registered(tries, st.status.m) && |tries| > 0
    requires st.status.m[tries[0]].healthy && reply(0).Replied?
    ensures Execute(st, tries, 0, reply, None, now).1 == Answer(tries[0], reply(0).content)
  {
  }

  /**
   * `chat_completion`: counts the request; without initialised providers,
   * or without a provider to select, it returns an error response; else it
   * executes over the try list of the selected provider.
   */
  function ChatCompletion(st: Manager, cfg: LlmConfig, initialized: bool, preferred: string, reply: nat -> Reply, now: real)
    : (r: (Manager, Response))
    requires Valid(st.status)
    ensures r.0.stats.totalRequests == st.stats.totalRequests + 1
    ensures !initialized || st.status.keys == [] ==> r.1 == ManagerError(NoProviders) && r.0.status == st.status
    ensures initialized && (forall n :: n in st.status.m ==> !st.status.m[n].healthy) ==> r.1.ManagerError?
    ensures r.1.Answer? ==> r.0.stats.successfulRequests == st.stats.successfulRequests + 1
  {
    var counted := st.(stats := st.stats.(totalRequests := st.stats.totalRequests + 1));
    if !initialized || |st.status.keys| == 0 then (counted, ManagerError(NoProviders))
    else
      match SelectProvider(st.status, cfg, preferred)
      case None => (counted, ManagerError(NoSelection))
      case Some(p) =>
        ExecuteAccounting(counted, TryList(p, cfg, st.status.m), 0, reply, None, now);
        Execute(counted, TryList(p, cfg, st.status.m), 0, reply, None, now)
  }

  /** After switching the primary provider to a usable one, requests without a preference select it. */
  lemma SwitchThenSelect(status: ODict<ProviderStatus>, cfg: LlmConfig, p: string)
    requires Valid(status) && Usable(status.m, p) && p != Auto
    ensures SelectProvider(status, cfg.(primaryProvider := p), "") == Some(p)
  {
  }

  /** A health check's verdict; a check that raised (absent from `verdicts`) counts as unhealthy. */
  predicate Verdict(verdicts: map<string, bool>, n: string)
  {
    n in verdicts && verdicts[n]
  }

  /** The manager as an object; the provider clients are not part of this model. */
  class LlmProviderManager {
    var status: ODict<ProviderStatus>
    var stats: Stats
    var cfg: LlmConfig
    var initialized: bool
    var lastHealthCheck: real

    function State(): Manager
      reads this
    {
      Manager(status, stats)
    }

    /**
     * The manager after provider initialisation: `registered` are the
     * providers that passed it, each healthy with one success counted.
     */
    constructor (registered: seq<string>, now: real)
      requires Distinct(registered)
      ensures Valid(status) && status.keys == registered
      ensures forall n :: n in status.m ==> status.m[n] == ProviderStatus(n, true, true, now, 0, 1, 0.0, None)
      ensures stats == Stats(0, 0, 0, 0, map[]) && cfg == DefaultConfig
      ensures initialized == (|registered| > 0) && lastHealthCheck == 0.0
    {
      status := ODict(registered, map n | n in registered :: ProviderStatus(n, true, true, now, 0, 1, 0.0, None));
      stats := Stats(0, 0, 0, 0, map[]);
      cfg := DefaultConfig;
      initialized := |registered| > 0;
      lastHealthCheck := 0.0;
    }

    /** `_update_provider_stats`: an unknown provider is ignored. */
    method UpdateProviderStats(p: string, success: bool, responseTime: real, now: real)
      requires Valid(status)
      modifies `status
      ensures p in old(status).m ==> status == WithCall(old(status), p, success, responseTime, now)
      ensures p !in old(status).m ==> status == old(status)
    {
      if p !in status.m {
        return;
      }
      var s := status.m[p];
      s := s.(lastCheck := now);
      if success {
        s := s.(successCount := s.successCount + 1, errorCount := 0, healthy := true);
        if s.avgResponseTime == 0.0 {
          s := s.(avgResponseTime := responseTime);
        } else {
          s := s.(avgResponseTime := (s.avgResponseTime + responseTime) / 2.0);
        }
      } else {
        s := s.(errorCount := s.errorCount + 1);
        if s.errorCount >= UnhealthyAfter {
          s := s.(healthy := false);
        }
      }
      status := ODict(status.keys, status.m[p := s]);
    }

    /**
     * One pass of `_execute_with_fallback`'s loop, at the `i`-th provider to
     * try: either the request ends here with `response`, or the rest of the
     * run continues from the next provider with `lastError'`.
     */
    method Attempt(tries: seq<string>, i: nat, reply: nat -> Reply, lastError: Option<string>, now: real)
      returns (done: bool, response: Response, lastError': Option<string>)
      requires Valid(status) && Registered(tries, status.m) && i < |tries|
      modifies `status, `stats
      ensures !old(status).m[tries[i]].healthy ==> !done && State() == old(State()) && lastError' == lastError
      ensures old(status).m[tries[i]].healthy ==>
                Step(State(), done, response, lastError') == Call(old(State()), tries[i], reply(i), |tries| > 1, now)
    {
      var p := tries[i];
      done, response, lastError' := false, ManagerError(AllFailed(lastError)), lastError;
      if !status.m[p].healthy {
        return;
      }
      match reply(i) {
        case Replied(content, t) =>
          UpdateProviderStats(p, true, t, now);
          var usage := (if p in stats.providerUsage then stats.providerUsage[p] else 0) + 1;
          stats := stats.(successfulRequests := stats.successfulRequests + 1, providerUsage := stats.providerUsage[p := usage]);
          done, response, lastError' := true, Answer(p, content), None;
        case Refused(e, t) =>
          UpdateProviderStats(p, false, t, now);
          lastError' := Some(e);
          if |tries| > 1 {
            stats := stats.(fallbackCount := stats.fallbackCount + 1);
            response := ManagerError(AllFailed(Some(e)));
          } else {
            done, response := true, ProviderError(p, e);
          }
        case Raised(e) =>
          UpdateProviderStats(p, false, 0.0, now);
          lastError' := Some(e);
          response := ManagerError(AllFailed(Some(e)));
      }
    }

    /** One attempt, as the step it takes through `Execute`. */
    method Advance(tries: seq<string>, i: nat, reply: nat -> Reply, lastError: Option<string>, now: real)
      returns (done: bool, response: Response, lastError': Option<string>)
      requires Valid(status) && Registered(tries, status.m) && i < |tries|
      modifies `status, `stats
      ensures Valid(status) && Registered(tries, status.m)
      ensures done ==> Execute(old(State()), tries, i, reply, lastError, now) == (State(), response)
      ensures !done ==> Execute(old(State()), tries, i, reply, lastError, now) == Execute(State(), tries, i + 1, reply, lastError', now)
    {
      ghost var before := State();
      done, response, lastError' := Attempt(tries, i, reply, lastError, now);
      ExecuteStep(before, tries, i, reply, lastError, now, State(), done, response, lastError');
    }

    /** `_execute_with_fallback` over the try list of `selected`. */
    method ExecuteWithFallback(selected: string, reply: nat -> Reply, now: real) returns (response: Response)
      requires Valid(status) && selected in status.m
      modifies `status, `stats
      ensures (State(), response) == Execute(old(State()), TryList(selected, cfg, old(status).m), 0, reply, None, now)
    {
      var tries := TryList(selected, cfg, status.m);
      response := RunTries(tries, reply, now);
    }

    /** The fallback loop over a try list of registered providers. */
    method RunTries(tries: seq<string>, reply: nat -> Reply, now: real) returns (response: Response)
      requires Valid(status) && Registered(tries, status.m)
      modifies `status, `stats
      ensures (State(), response) == Execute(old(State()), tries, 0, reply, None, now)
    {
      ghost var goal := Execute(State(), tries, 0, reply, None, now);
      var lastError: Option<string> := None;
      var i := 0;
      while i < |tries|
        invariant 0 <= i <= |tries|
        invariant Valid(status) && Registered(tries, status.m)
        invariant Execute(State(), tries, i, reply, lastError, now) == goal
        decreases |tries| - i
      {
        var done;
        done, response, lastError := Advance(tries, i, reply, lastError, now);
        if done {
          return;
        }
        i := i + 1;
      }
      ExecuteExhausted(State(), tries, reply, lastError, now);
      stats := stats.(failedRequests := stats.failedRequests + 1);
      response := ManagerError(AllFailed(lastError));
    }

    /** `chat_completion`. */
    method Chat(preferred: string, reply: nat -> Reply, now: real) returns (response: Response)
      requires Valid(status)
      modifies `status, `stats
      ensures (State(), response) == ChatCompletion(old(State()), cfg, initialized, preferred, reply, now)
    {
      stats := stats.(totalRequests := stats.totalRequests + 1);
      if !initialized || |status.keys| == 0 {
        return ManagerError(NoProviders);
      }
      var selected := SelectProvider(status, cfg, preferred);
      if selected.None? {
        return ManagerError(NoSelection);
      }
      response := ExecuteWithFallback(selected.value, reply, now);
    }

    /** `switch_primary_provider`: only a registered, healthy provider becomes primary. */
    method SwitchPrimaryProvider(p: string) returns (ok: bool)
      modifies `cfg
      ensures ok <==> Usable(status.m, p)
      ensures cfg == if ok then old(cfg).(primaryProvider := p) else old(cfg)
    {
      ok := Usable(status.m, p);
      if ok {
        cfg := cfg.(primaryProvider := p);
      }
    }

    /**
     * `health_check`: within the interval and unforced, the current health
     * flags; otherwise each provider's flag becomes its check's verdict (a
     * check absent from `verdicts` stands for one that raised, which marks
     * the provider unhealthy) and the check time is stamped.
     */
    method HealthCheck(force: bool, now: real, verdicts: map<string, bool>) returns (results: map<string, bool>)
      requires Valid(status)
      modifies `status, `lastHealthCheck
      ensures Valid(status) && status.keys == old(status).keys && status.m.Keys == old(status).m.Keys
      ensures results.Keys == status.m.Keys
      ensures !force && now - old(lastHealthCheck) < HealthCheckInterval ==>
                status == old(status) && lastHealthCheck == old(lastHealthCheck)
                && forall n :: n in results ==> results[n] == status.m[n].healthy
      ensures force || now - old(lastHealthCheck) >= HealthCheckInterval ==>
                lastHealthCheck == now
                && (forall n :: n in status.m ==> status.m[n] == old(status).m[n].(healthy := Verdict(verdicts, n)))
                && (forall n :: n in results ==> results[n] == Verdict(verdicts, n))
    {
      if !force && now - lastHealthCheck < HealthCheckInterval {
        return map n | n in status.m :: status.m[n].healthy;
      }
      results := CheckAll(verdicts);
      lastHealthCheck := now;
    }

    /** Every provider checked in registration order, its verdict recorded. */
    method CheckAll(verdicts: map<string, bool>) returns (results: map<string, bool>)
      requires Valid(status)
      modifies `status
      ensures Valid(status) && status.keys == old(status).keys && status.m.Keys == old(status).m.Keys
      ensures results.Keys == status.m.Keys
      ensures forall n :: n in status.m ==> status.m[n] == old(status).m[n].(healthy := Verdict(verdicts, n))
      ensures forall n :: n in results ==> results[n] == Verdict(verdicts, n)
    {
      var keys, checked := status.keys, status.m;
      results := map[];
      var i := 0;
      while i < |keys|
        invariant 0 <= i <= |keys|
        invariant checked.Keys == status.m.Keys && results.Keys <= checked.Keys
        invariant forall n :: n in checked ==>
                    checked[n] == if n in results then status.m[n].(healthy := Verdict(verdicts, n)) else status.m[n]
        invariant forall n :: n in results ==> results[n] == Verdict(verdicts, n)
        invariant forall j :: 0 <= j < i ==> keys[j] in results
      {
        var n := keys[i];
        checked := checked[n := checked[n].(healthy := Verdict(verdicts, n))];
        results := results[n := Verdict(verdicts, n)];
        i := i + 1;
      }
      status := ODict(keys, checked);
    }
  }
}
