/**
 * `BaseAIProvider`: the bookkeeping a provider keeps per service key (the
 * start of the current rate-limit window and the requests counted in it),
 * the fixed-window rate limiter over it, and the provider's info, health
 * report and cleanup.
 */
module BaseProvider {
  import opened Common
  import opened AiInterfaces

  /** The length of a rate-limit window, in seconds. */
  const WINDOW: real := 60.0

  /** The key a provider's bookkeeping uses for a service type: `<provider>_<type value>`. */
  function ServiceKey(provider: string, t: ServiceType): string
  {
    provider + "_" + TypeValue(t)
  }

  /** One key's window: when it opened and how many requests it has counted. */
  datatype Window = Window(start: real, count: int)

  /** The window a call at `now` works on: a fresh one once a full window has elapsed. */
  function Current(w: Window, now: real): Window
  {
    if now - w.start >= WINDOW then Window(now, 0) else w
  }

  /**
   * One `_check_rate_limit` call on one key. The first call opens a window
   * at `now` and is allowed without being counted. Later calls first reset
   * the window once 60 seconds have elapsed since it opened, then are
   * denied, counting nothing, when the count has reached the maximum, and
   * otherwise are counted and allowed.
   */
  function RateStep(w: Option<Window>, maxRequests: int, now: real): (r: (Window, bool))
    ensures w.None? ==> r == (Window(now, 0), true)
    ensures w.Some? ==> r.0.start == Current(w.value, now).start
    ensures w.Some? ==> (r.1 <==> Current(w.value, now).count < maxRequests)
    ensures w.Some? && !r.1 ==> r.0.count == Current(w.value, now).count
    ensures w.Some? && r.1 ==> r.0.count == Current(w.value, now).count + 1
    ensures (w.None? || w.value.count <= maxRequests) && 0 <= maxRequests ==> r.0.count <= maxRequests
  {
    match w
    case None => (Window(now, 0), true)
    case Some(old_) =>
      var cur := Current(old_, now);
      if cur.count >= maxRequests then (cur, false)
      else (Window(cur.start, cur.count + 1), true)
  }

  function Min(a: int, b: int): int
  {
    if a <= b then a else b
  }

  /** A run of calls on one key at the given times: the final window and how many calls were allowed. */
  function Calls(w: Option<Window>, maxRequests: int, times: seq<real>): (Option<Window>, nat)
    decreases |times|
  {
    if times == [] then (w, 0)
    else
      var step := RateStep(w, maxRequests, times[0]);
      var rest := Calls(Some(step.0), maxRequests, times[1..]);
      (rest.0, rest.1 + if step.1 then 1 else 0)
  }

  /**
   * Within one window, calls are allowed until the count reaches the
   * maximum, and every later call is denied.
   */
  lemma {:induction false} WithinWindow(start: real, count: int, maxRequests: int, times: seq<real>)
    requires 0 <= count <= maxRequests
    requires forall i :: 0 <= i < |times| ==> times[i] - start < WINDOW
    ensures Calls(Some(Window(start, count)), maxRequests, times).1 == Min(|times|, maxRequests - count)
    ensures Calls(Some(Window(start, count)), maxRequests, times).0 ==
            Some(Window(start, count + Min(|times|, maxRequests - count)))
    decreases |times|
  {
    if times != [] {
      var step := RateStep(Some(Window(start, count)), maxRequests, times[0]);
      if count < maxRequests {
        assert step == (Window(start, count + 1), true);
        WithinWindow(start, count + 1, maxRequests, times[1..]);
      } else {
        assert step == (Window(start, count), false);
        WithinWindow(start, count, maxRequests, times[1..]);
      }
    }
  }

  /**
   * The fixed-window bound: of the calls made within 60 seconds of a key's
   * first call, exactly the first `maxRequests + 1` are allowed (the first
   * call opens the window without being counted).
   */
  lemma FirstWindowAllowance(maxRequests: int, times: seq<real>)
    requires 0 <= maxRequests && times != []
    requires forall i :: 0 <= i < |times| ==> times[i] - times[0] < WINDOW
    ensures Calls(None, maxRequests, times).1 == Min(|times|, maxRequests + 1)
  {
    WithinWindow(times[0], 0, maxRequests, times[1..]);
  }

  /** The sum of the counts in a map. */
  ghost function SumCounts(m: map<string, int>): int
    decreases |m|
  {
    if m == map[] then 0
    else
      var k :| k in m;
      m[k] + SumCounts(m - {k})
  }

  /** The sum can be split at any key, whichever one the definition picked. */
  lemma {:induction false} SumCountsAt(m: map<string, int>, k: string)
    requires k in m
    ensures SumCounts(m) == m[k] + SumCounts(m - {k})
    decreases |m|
  {
    var j :| j in m && SumCounts(m) == m[j] + SumCounts(m - {j});
    if j != k {
      assert (m - {j}) - {k} == (m - {k}) - {j};
      SumCountsAt(m - {j}, k);
      SumCountsAt(m - {k}, j);
    }
  }

  /** Setting one key's count changes the sum by the difference. */
  lemma SumCountsUpdate(m: map<string, int>, k: string, v: int)
    ensures SumCounts(m[k := v]) == SumCounts(m) - (if k in m then m[k] else 0) + v
  {
    SumCountsAt(m[k := v], k);
    assert m[k := v] - {k} == m - {k};
    if k in m {
      SumCountsAt(m, k);
    } else {
      assert m - {k} == m;
    }
  }

  /** `get_provider_info`. */
  datatype ProviderInfo = ProviderInfo(
    name: string,
    supportedServices: seq<string>,
    activeInstances: nat,
    totalRequests: int,
    status: string)

  /** What one service's health check reported: its entry, or the error it raised. */
  datatype HealthEntry = Healthy(serviceType: string, lastRequest: Option<real>) | Unhealthy(error: string)

  /**
   * `get_service_health`. The per-service entries, stored in the source
   * under `<type value>_health`, are keyed here by the type itself.
   */
  datatype Health = Health(
    providerName: string,
    status: string,
    supportedServices: seq<string>,
    activeInstances: nat,
    requestStats: map<string, int>,
    checks: map<ServiceType, HealthEntry>)

  /** The type values of a list of types. */
  function Values(ts: seq<ServiceType>): (vs: seq<string>)
    ensures |vs| == |ts| && forall i :: 0 <= i < |ts| ==> vs[i] == TypeValue(ts[i])
  {
    if ts == [] then [] else [TypeValue(ts[0])] + Values(ts[1..])
  }

  /** The entry a check's outcome gives. */
  function EntryOf(r: Result<HealthEntry, string>): HealthEntry
  {
    match r
    case Ok(e) => e
    case Err(msg) => Unhealthy(msg)
  }

  /** When a key was last given a window, as the base health check reports it. */
  function LastRequest(times: map<string, real>, provider: string, t: ServiceType): Option<real>
  {
    if ServiceKey(provider, t) in times then Some(times[ServiceKey(provider, t)]) else None
  }

  class BaseAiProvider {
    var providerName: string
    var supportedServices: seq<ServiceType>
    var instances: map<ServiceType, Service>
    var lastRequestTime: map<string, real>
    var requestCounts: map<string, int>

    /** Both bookkeeping maps track the same keys. */
    ghost predicate Valid()
      reads this
    {
      lastRequestTime.Keys == requestCounts.Keys
    }

    /** `__init__`: a named provider with its service list and empty bookkeeping. */
    constructor (name: string, services: seq<ServiceType>)
      ensures Valid()
      ensures providerName == name && supportedServices == services
      ensures instances == map[] && lastRequestTime == map[] && requestCounts == map[]
    {
      providerName := name;
      supportedServices := services;
      instances := map[];
      lastRequestTime := map[];
      requestCounts := map[];
    }

    /** `get_available_services`: a copy of the supported list. */
    function AvailableServices(): seq<ServiceType>
      reads this
    {
      supportedServices
    }

    /** `_validate_service_type`. */
    function ValidateServiceType(t: ServiceType): (ok: bool)
      reads this
      ensures ok <==> exists i :: 0 <= i < |supportedServices| && supportedServices[i] == t
    {
      t in supportedServices
    }

    /** The window a key is in, if it has one. */
    function WindowOf(key: string): (w: Option<Window>)
      reads this
      requires Valid()
      ensures w.Some? <==> key in requestCounts
    {
      if key in lastRequestTime then Some(Window(lastRequestTime[key], requestCounts[key])) else None
    }

    /**
     * `_check_rate_limit` for a call at time `now`: the key's window moves
     * as `RateStep` says, and no other key changes.
     */
    method CheckRateLimit(t: ServiceType, maxRequests: int, now: real) returns (allowed: bool)
      requires Valid()
      modifies this
      ensures Valid()
      ensures providerName == old(providerName) && supportedServices == old(supportedServices)
      ensures instances == old(instances)
      ensures var key := ServiceKey(providerName, t);
              var step := RateStep(old(WindowOf(key)), maxRequests, now);
              && allowed == step.1
              && lastRequestTime == old(lastRequestTime)[key := step.0.start]
              && requestCounts == old(requestCounts)[key := step.0.count]
    {
      var key := ServiceKey(providerName, t);
      if key !in lastRequestTime {
        lastRequestTime := lastRequestTime[key := now];
        requestCounts := requestCounts[key := 0];
        return true;
      }
      var diff := now - lastRequestTime[key];
      if diff >= WINDOW {
        requestCounts := requestCounts[key := 0];
        lastRequestTime := lastRequestTime[key := now];
      }
      if requestCounts[key] >= maxRequests {
        return false;
      }
      requestCounts := requestCounts[key := requestCounts[key] + 1];
      allowed := true;
    }

    /** `get_provider_info`: the total is the sum of the per-key counts. */
    method Info() returns (info: ProviderInfo)
      ensures info.name == providerName && info.status == "active"
      ensures info.supportedServices == Values(supportedServices)
      ensures info.activeInstances == |instances|
      ensures info.totalRequests == SumCounts(requestCounts)
    {
      var rest := requestCounts;
      var total := 0;
      while rest != map[]
        invariant total + SumCounts(rest) == SumCounts(requestCounts)
        decreases |rest|
      {
        var k :| k in rest;
        SumCountsAt(rest, k);
        total := total + rest[k];
        rest := rest - {k};
      }
      info := ProviderInfo(providerName, Values(supportedServices), |instances|, total, "active");
    }

    /**
     * `get_service_health`, with `check` standing for the per-service check
     * (an `Err` is an exception it raised): 'degraded' exactly when some
     * supported service's check raised, and one entry per supported service.
     */
    method ServiceHealth(check: ServiceType -> Result<HealthEntry, string>) returns (h: Health)
      ensures h.providerName == providerName && h.activeInstances == |instances|
      ensures h.supportedServices == Values(supportedServices) && h.requestStats == requestCounts
      ensures h.status == "degraded" <==> exists i :: 0 <= i < |supportedServices| && check(supportedServices[i]).Err?
      ensures h.status == "healthy" || h.status == "degraded"
      ensures forall t :: t in h.checks <==> t in supportedServices
      ensures forall t :: t in h.checks ==> h.checks[t] == EntryOf(check(t))
    {
      var status := "healthy";
      var checks: map<ServiceType, HealthEntry> := map[];
      var k := 0;
      while k < |supportedServices|
        invariant 0 <= k <= |supportedServices|
        invariant status == "degraded" <==> exists i :: 0 <= i < k && check(supportedServices[i]).Err?
        invariant status == "healthy" || status == "degraded"
        invariant forall t :: t in checks <==> t in supportedServices[..k]
        invariant forall t :: t in checks ==> checks[t] == EntryOf(check(t))
      {
        var t := supportedServices[k];
        assert supportedServices[..k + 1] == supportedServices[..k] + [t];
        match check(t) {
          case Ok(entry) =>
            checks := checks[t := entry];
          case Err(msg) =>
            checks := checks[t := Unhealthy(msg)];
            status := "degraded";
        }
        k := k + 1;
      }
      assert supportedServices[..k] == supportedServices;
      h := Health(providerName, status, Values(supportedServices), |instances|, requestCounts, checks);
    }

    /**
     * `get_service_health` with the base `_check_service_health`, which
     * never raises: the provider is healthy and each entry reports when the
     * type's key last opened a window.
     */
    method BaseHealth() returns (h: Health)
      ensures h.status == "healthy"
      ensures forall t :: t in h.checks <==> t in supportedServices
      ensures forall t :: t in h.checks ==>
        h.checks[t] == Healthy(TypeValue(t), LastRequest(lastRequestTime, providerName, t))
    {
      var times := lastRequestTime;
      var name := providerName;
      h := ServiceHealth(t => Ok(Healthy(TypeValue(t), LastRequest(times, name, t))));
    }

    /** `cleanup`: every bookkeeping map is emptied. */
    method Cleanup()
      modifies this
      ensures Valid()
      ensures instances == map[] && lastRequestTime == map[] && requestCounts == map[]
      ensures providerName == old(providerName) && supportedServices == old(supportedServices)
    {
      instances := map[];
      lastRequestTime := map[];
      requestCounts := map[];
    }
  }

  /**
   * A fresh provider allows its first call, and the total it reports
   * afterwards is still 0 because that call opened the window uncounted;
   * the next call within the window is counted.
   */
  method FirstCallsCounted(name: string, t: ServiceType, maxRequests: int, now: real) returns (first: bool, second: bool, total: int)
    requires 1 <= maxRequests
    ensures first && second && total == 1
  {
    var p := new BaseAiProvider(name, [t]);
    first := p.CheckRateLimit(t, maxRequests, now);
    second := p.CheckRateLimit(t, maxRequests, now);
    var key := ServiceKey(name, t);
    assert p.requestCounts == map[key := 1];
    SumCountsAt(p.requestCounts, key);
    assert p.requestCounts - {key} == map[];
    var info := p.Info();
    total := info.totalRequests;
  }
}
