/**
 * `ProductionMonitor`: a bounded history of per-request metrics, the
 * alerts each request triggers, the system health over the last hour, the
 * quality dashboard over the last day, and the recent alerts newest first.
 * Times are seconds on one clock; `now` is a parameter.
 */
module ProductionMonitor {
  import opened Common

  const ERROR_RATE_THRESHOLD: real := 0.05
  const RESPONSE_TIME_THRESHOLD: real := 60.0
  const QUALITY_THRESHOLD: real := 0.70
  const CACHE_HIT_THRESHOLD: real := 0.30
  const COST_PER_HOUR_THRESHOLD: real := 10.0
  /** A single request costing more than this raises a cost alert. */
  const HIGH_REQUEST_COST: real := 1.0
  const MAX_HISTORY: nat := 1000
  const MAX_ALERTS: nat := 100
  const HOUR: real := 3600.0

  // ---------------------------------------------------------------------
  // Recording
  // ---------------------------------------------------------------------

  /** The metrics a caller reports for one request; an absent one reads as its default. */
  datatype Reported = Reported(
    success: Option<bool>,
    processingTime: Option<real>,
    qualityScore: Option<real>,
    cost: Option<real>,
    cacheHit: Option<bool>,
    modelUsed: Option<string>,
    errorType: Option<string>)

  /** One entry of the history. A quality score of 0 means the request has no score. */
  datatype RequestMetrics = RequestMetrics(
    timestamp: real,
    success: bool,
    processingTime: real,
    qualityScore: real,
    cost: real,
    cacheHit: bool,
    modelUsed: string,
    errorType: Option<string>)

  function OrElse<T>(o: Option<T>, dflt: T): T
  {
    if o.Some? then o.value else dflt
  }

  /** The entry `record_request_metrics` stores for a report received at `now`. */
  function Recorded(r: Reported, now: real): RequestMetrics
  {
    RequestMetrics(now, OrElse(r.success, false), OrElse(r.processingTime, 0.0), OrElse(r.qualityScore, 0.0),
                   OrElse(r.cost, 0.0), OrElse(r.cacheHit, false), OrElse(r.modelUsed, "unknown"), r.errorType)
  }

  /** An empty report is recorded as an unscored, free, uncached failure of an unknown model. */
  lemma EmptyReportDefaults(now: real)
    ensures Recorded(Reported(None, None, None, None, None, None, None), now) ==
      RequestMetrics(now, false, 0.0, 0.0, 0.0, false, "unknown", None)
  {
  }

  /** The last `n` elements of `s`, or all of them when there are fewer. */
  function KeepLast<T>(s: seq<T>, n: nat): (r: seq<T>)
    ensures |r| == if |s| <= n then |s| else n
    ensures r == s[|s| - |r|..]
  {
    if |s| > n then s[|s| - n..] else s
  }

  /** Truncating after every append keeps what truncating once at the end keeps. */
  lemma KeepLastAppend<T>(s: seq<T>, t: seq<T>, n: nat)
    ensures KeepLast(KeepLast(s, n) + t, n) == KeepLast(s + t, n)
  {
    var k := KeepLast(s, n);
    assert s == s[..|s| - |k|] + k;
    assert s + t == s[..|s| - |k|] + (k + t);
    var r := KeepLast(s + t, n);
    assert |r| == |KeepLast(k + t, n)|;
    assert (k + t)[|k + t| - |r|..] == (s + t)[|s + t| - |r|..];
  }

  // ---------------------------------------------------------------------
  // Alerts
  // ---------------------------------------------------------------------

  datatype AlertType = ErrorAlert | PerformanceAlert | QualityAlert | CostAlert
  datatype Severity = High | Medium | Low

  /** An alert; its message text is not modelled. */
  datatype Alert = Alert(kind: AlertType, severity: Severity, timestamp: real)

  /** The position of each alert type in the order the checks run. */
  function Rank(t: AlertType): nat
  {
    match t
    case ErrorAlert => 0
    case PerformanceAlert => 1
    case QualityAlert => 2
    case CostAlert => 3
  }

  /** The severity every alert of a type carries. */
  function SeverityOf(t: AlertType): Severity
  {
    match t
    case ErrorAlert => High
    case PerformanceAlert => Medium
    case QualityAlert => Medium
    case CostAlert => Low
  }

  predicate HasAlert(alerts: seq<Alert>, t: AlertType)
  {
    exists a :: a in alerts && a.kind == t
  }

  /** Whether a type of alert fires for an entry. */
  predicate Fires(m: RequestMetrics, t: AlertType)
  {
    match t
    case ErrorAlert => !m.success
    case PerformanceAlert => m.processingTime > RESPONSE_TIME_THRESHOLD
    case QualityAlert => 0.0 < m.qualityScore < QUALITY_THRESHOLD
    case CostAlert => m.cost > HIGH_REQUEST_COST
  }

  /** The alert of type `t` for `m` when it fires, else nothing. */
  function AlertIf(m: RequestMetrics, t: AlertType): (r: seq<Alert>)
    ensures |r| <= 1
    ensures r != [] <==> Fires(m, t)
    ensures r != [] ==> r[0] == Alert(t, SeverityOf(t), m.timestamp)
  {
    if Fires(m, t) then [Alert(t, SeverityOf(t), m.timestamp)] else []
  }

  /** The alerts `_check_alerts` raises for one entry, in the order of its checks. */
  function AlertsFor(m: RequestMetrics): seq<Alert>
  {
    AlertIf(m, ErrorAlert) + AlertIf(m, PerformanceAlert) + AlertIf(m, QualityAlert) + AlertIf(m, CostAlert)
  }

  /**
   * Each type of alert is raised exactly when its condition holds: a
   * failure, more than 60 s, a score strictly between 0 and 0.70, a cost
   * above 1.0.
   */
  lemma AlertsForFire(m: RequestMetrics, t: AlertType)
    ensures HasAlert(AlertsFor(m), t) <==> Fires(m, t)
  {
    if Fires(m, t) {
      assert Alert(t, SeverityOf(t), m.timestamp) in AlertIf(m, t);
    }
  }

  /**
   * At most four alerts, one per type that fires, each with its type's
   * severity and the entry's time; a failed request's high-severity error
   * alert comes first.
   */
  lemma AlertsForShape(m: RequestMetrics)
    ensures |AlertsFor(m)| <= 4
    ensures forall a :: a in AlertsFor(m) ==>
      Fires(m, a.kind) && a.severity == SeverityOf(a.kind) && a.timestamp == m.timestamp
    ensures !m.success ==> AlertsFor(m)[0] == Alert(ErrorAlert, High, m.timestamp)
  {
  }

  /** An unscored request (score 0) never raises a quality alert, however it went. */
  lemma UnscoredNoQualityAlert(m: RequestMetrics)
    requires m.qualityScore == 0.0
    ensures !HasAlert(AlertsFor(m), QualityAlert)
  {
    AlertsForFire(m, QualityAlert);
  }

  // ---------------------------------------------------------------------
  // Aggregates over entries
  // ---------------------------------------------------------------------

  /** The entries stamped strictly after `cutoff`, in order. */
  function Since(ms: seq<RequestMetrics>, cutoff: real): (r: seq<RequestMetrics>)
    ensures |r| <= |ms|
    ensures IsSubsequence(r, ms)
    ensures forall m :: multiset(r)[m] == if m.timestamp > cutoff then multiset(ms)[m] else 0
  {
    if ms == [] then []
    else
      var rest := Since(ms[1..], cutoff);
      assert multiset(ms) == multiset{ms[0]} + multiset(ms[1..]) by { assert ms == [ms[0]] + ms[1..]; }
      if ms[0].timestamp > cutoff then
        assert ([ms[0]] + rest)[1..] == rest;
        assert multiset([ms[0]] + rest) == multiset{ms[0]} + multiset(rest);
        [ms[0]] + rest
      else
        SubsequenceSkip(rest, ms);
        rest
  }

  /** So an entry is among those kept exactly when it is listed and recent. */
  lemma SinceMembers(ms: seq<RequestMetrics>, cutoff: real)
    ensures forall m :: m in Since(ms, cutoff) <==> m in ms && m.timestamp > cutoff
  {
  }

  function Successes(ms: seq<RequestMetrics>): (n: nat)
    ensures n <= |ms|
  {
    if ms == [] then 0 else (if ms[0].success then 1 else 0) + Successes(ms[1..])
  }

  function CacheHits(ms: seq<RequestMetrics>): (n: nat)
    ensures n <= |ms|
  {
    if ms == [] then 0 else (if ms[0].cacheHit then 1 else 0) + CacheHits(ms[1..])
  }

  function TotalTime(ms: seq<RequestMetrics>): real
  {
    if ms == [] then 0.0 else ms[0].processingTime + TotalTime(ms[1..])
  }

  function TotalCost(ms: seq<RequestMetrics>): real
  {
    if ms == [] then 0.0 else ms[0].cost + TotalCost(ms[1..])
  }

  /** The positive quality scores, in order. */
  function Scores(ms: seq<RequestMetrics>): (qs: seq<real>)
    ensures |qs| <= |ms|
    ensures forall i :: 0 <= i < |qs| ==> qs[i] > 0.0
  {
    if ms == [] then []
    else (if ms[0].qualityScore > 0.0 then [ms[0].qualityScore] else []) + Scores(ms[1..])
  }

  /** A count as a share of a positive total lies between 0 and 1. */
  lemma ShareBounded(part: nat, total: nat)
    requires 0 < total && part <= total
    ensures 0.0 <= part as real / total as real <= 1.0
  {
    var q := part as real / total as real;
    assert q * (total as real) == part as real;
    assert q <= 1.0 by {
      if q > 1.0 {
        assert q * (total as real) > 1.0 * (total as real);
      }
    }
  }

  // ---------------------------------------------------------------------
  // get_system_health
  // ---------------------------------------------------------------------

  datatype Status = Unknown | Stale | Healthy | Degraded | Warning

  /** The problems the health message lists, in the order they are checked. */
  datatype Issue = HighErrorRate | SlowResponse | LowQuality | LowCacheHitRate | HighCost

  datatype HealthMetrics = HealthMetrics(
    totalRequests: nat,
    errorRate: real,
    avgResponseTime: real,
    avgQualityScore: real,
    cacheHitRate: real,
    totalCostPerHour: real)

  datatype Health = Health(status: Status, issues: seq<Issue>, metrics: Option<HealthMetrics>, lastUpdated: real)

  /** Dividing by a positive number and multiplying back gives the number again. */
  lemma Quotient(x: real, n: real)
    requires n > 0.0
    ensures (x / n) * n == x
  {
  }

  /**
   * The hour's figures over a non-empty list of entries: the failures' and
   * the cache hits' shares, the mean time, the mean of the positive scores
   * (0 when there are none) and the total cost.
   */
  function MetricsOf(recent: seq<RequestMetrics>): (hm: HealthMetrics)
    requires recent != []
    ensures hm.totalRequests == |recent| && hm.totalCostPerHour == TotalCost(recent)
    ensures hm.errorRate == Share(|recent| - Successes(recent), |recent|)
    ensures hm.cacheHitRate == Share(CacheHits(recent), |recent|)
    ensures 0.0 <= hm.errorRate <= 1.0 && 0.0 <= hm.cacheHitRate <= 1.0
    ensures hm.avgResponseTime == Mean(TotalTime(recent), |recent|)
    ensures hm.avgQualityScore == (if Scores(recent) == [] then 0.0 else Mean(Sum(Scores(recent)), |Scores(recent)|))
  {
    var n := |recent|;
    var scores := Scores(recent);
    var errorRate := Share(n - Successes(recent), n);
    var avgResponseTime := Mean(TotalTime(recent), n);
    var avgQuality := Mean(Sum(scores), |scores|);
    var cacheHitRate := Share(CacheHits(recent), n);
    HealthMetrics(n, errorRate, avgResponseTime, avgQuality, cacheHitRate, TotalCost(recent))
  }

  /** `part / total` as a real. */
  function Share(part: nat, total: nat): (r: real)
    requires total > 0
    ensures r * total as real == part as real
    ensures part <= total ==> 0.0 <= r <= 1.0
  {
    Quotient(part as real, total as real);
    if part <= total then
      ShareBounded(part, total);
      part as real / total as real
    else
      part as real / total as real
  }

  /** `total / max(1, count)`. */
  function Mean(total: real, count: nat): (r: real)
    ensures count > 0 ==> r * count as real == total
    ensures count == 0 ==> r == total
  {
    Quotient(total, (if count > 1 then count else 1) as real);
    total / (if count > 1 then count else 1) as real
  }

  /**
   * The status checks of `get_system_health`, run in order, each later one
   * overwriting the status: the error rate, the response time and the
   * quality make it degraded, the cache hit rate and the cost make it a
   * warning.
   */
  function Assess(hm: HealthMetrics): (r: (Status, seq<Issue>))
    ensures r.0 == Healthy <==> r.1 == []
    ensures r.0 == Warning <==> hm.cacheHitRate < CACHE_HIT_THRESHOLD || hm.totalCostPerHour > COST_PER_HOUR_THRESHOLD
    ensures r.0 == Degraded <==>
      !(hm.cacheHitRate < CACHE_HIT_THRESHOLD || hm.totalCostPerHour > COST_PER_HOUR_THRESHOLD) &&
      (hm.errorRate > ERROR_RATE_THRESHOLD || hm.avgResponseTime > RESPONSE_TIME_THRESHOLD ||
       hm.avgQualityScore < QUALITY_THRESHOLD)
    ensures r.0 in {Healthy, Degraded, Warning}
    ensures HighErrorRate in r.1 <==> hm.errorRate > ERROR_RATE_THRESHOLD
    ensures SlowResponse in r.1 <==> hm.avgResponseTime > RESPONSE_TIME_THRESHOLD
    ensures LowQuality in r.1 <==> hm.avgQualityScore < QUALITY_THRESHOLD
    ensures LowCacheHitRate in r.1 <==> hm.cacheHitRate < CACHE_HIT_THRESHOLD
    ensures HighCost in r.1 <==> hm.totalCostPerHour > COST_PER_HOUR_THRESHOLD
  {
    var (s0, i0) := (Healthy, []);
    var (s1, i1) := if hm.errorRate > ERROR_RATE_THRESHOLD then (Degraded, i0 + [HighErrorRate]) else (s0, i0);
    var (s2, i2) := if hm.avgResponseTime > RESPONSE_TIME_THRESHOLD then (Degraded, i1 + [SlowResponse]) else (s1, i1);
    var (s3, i3) := if hm.avgQualityScore < QUALITY_THRESHOLD then (Degraded, i2 + [LowQuality]) else (s2, i2);
    var (s4, i4) := if hm.cacheHitRate < CACHE_HIT_THRESHOLD then (Warning, i3 + [LowCacheHitRate]) else (s3, i3);
    var (s5, i5) := if hm.totalCostPerHour > COST_PER_HOUR_THRESHOLD then (Warning, i4 + [HighCost]) else (s4, i4);
    (s5, i5)
  }

  /**
   * `get_system_health` at `now`: unknown with no history; stale, dated by
   * the last entry, when nothing is from the last hour; otherwise the
   * hour's figures and their assessment.
   */
  function SystemHealth(history: seq<RequestMetrics>, now: real): (h: Health)
    ensures h.status == Unknown <==> history == []
    ensures h.status == Stale <==> history != [] && Since(history, now - HOUR) == []
    ensures h.status == Stale ==> h.lastUpdated == history[|history| - 1].timestamp
    ensures h.metrics.Some? <==> Since(history, now - HOUR) != []
    ensures h.metrics.Some? ==>
      h.metrics.value == MetricsOf(Since(history, now - HOUR)) && (h.status, h.issues) == Assess(h.metrics.value)
  {
    if history == [] then Health(Unknown, [], None, now)
    else
      var recent := Since(history, now - HOUR);
      if recent == [] then Health(Stale, [], None, history[|history| - 1].timestamp)
      else
        var hm := MetricsOf(recent);
        var (status, issues) := Assess(hm);
        Health(status, issues, Some(hm), now)
  }

  /**
   * An hour of traffic with no quality scores averages a quality of 0, so
   * the health lists a low quality and is degraded unless a warning
   * condition overrides it.
   */
  lemma UnscoredHourReadsAsLowQuality(history: seq<RequestMetrics>, now: real)
    requires Since(history, now - HOUR) != []
    requires forall m :: m in history ==> m.qualityScore <= 0.0
    ensures LowQuality in SystemHealth(history, now).issues
    ensures SystemHealth(history, now).status in {Degraded, Warning}
  {
    NoScores(Since(history, now - HOUR));
  }

  lemma {:induction false} NoScores(ms: seq<RequestMetrics>)
    requires forall m :: m in ms ==> m.qualityScore <= 0.0
    ensures Scores(ms) == []
  {
    if ms != [] {
      NoScores(ms[1..]);
    }
  }

  // ---------------------------------------------------------------------
  // get_quality_metrics_dashboard
  // ---------------------------------------------------------------------

  datatype Distribution = Distribution(excellent: nat, good: nat, fair: nat, poor: nat)

  /** The quality grades of the dashboard's distribution. */
  datatype Grade = Excellent | Good | Fair | Poor

  /** The score range of each grade: from 0.85, from 0.75 below 0.85, from 0.65 below 0.75, below 0.65. */
  predicate InGrade(q: real, g: Grade)
  {
    match g
    case Excellent => q >= 0.85
    case Good => 0.75 <= q < 0.85
    case Fair => 0.65 <= q < 0.75
    case Poor => q < 0.65
  }

  /** How many of the scores fall in grade `g`. */
  function CountGrade(scores: seq<real>, g: Grade): (n: nat)
    ensures n <= |scores|
  {
    if scores == [] then 0 else (if InGrade(scores[0], g) then 1 else 0) + CountGrade(scores[1..], g)
  }

  /**
   * The score buckets, filled in one pass: each bucket holds exactly the
   * scores of its grade, and every score lands in one bucket.
   */
  function DistributionOf(scores: seq<real>): (d: Distribution)
    ensures d.excellent == CountGrade(scores, Excellent) && d.good == CountGrade(scores, Good)
    ensures d.fair == CountGrade(scores, Fair) && d.poor == CountGrade(scores, Poor)
    ensures d.excellent + d.good + d.fair + d.poor == |scores|
    ensures d.excellent == |scores| <==> forall i :: 0 <= i < |scores| ==> scores[i] >= 0.85
  {
    if scores == [] then Distribution(0, 0, 0, 0)
    else
      var d := DistributionOf(scores[1..]);
      var q := scores[0];
      assert forall i :: 1 <= i < |scores| ==> scores[i] == scores[1..][i - 1];
      if q >= 0.85 then d.(excellent := d.excellent + 1)
      else if 0.75 <= q < 0.85 then d.(good := d.good + 1)
      else if 0.65 <= q < 0.75 then d.(fair := d.fair + 1)
      else d.(poor := d.poor + 1)
  }

  datatype Dashboard =
    | NoMetrics
    | NoRecentMetrics
    | Dashboard(
        totalRequests: nat,
        successfulRequests: nat,
        distribution: Distribution,
        averageQuality: real,
        averageProcessingTime: real,
        totalCost: real,
        cacheHitRate: real)

  /**
   * `get_quality_metrics_dashboard` at `now`, over the last 24 hours: an
   * error with no history or nothing recent; otherwise the request and
   * success counts, the grades of exactly the scored requests, the mean
   * score (0 when none is scored), the mean time, the total cost and the
   * share of cache hits.
   */
  function QualityDashboard(history: seq<RequestMetrics>, now: real): (d: Dashboard)
    ensures d.NoMetrics? <==> history == []
    ensures d.NoRecentMetrics? <==> history != [] && Since(history, now - 24.0 * HOUR) == []
    ensures d.Dashboard? ==>
      var recent := Since(history, now - 24.0 * HOUR);
      && d.totalRequests == |recent| && d.successfulRequests == Successes(recent) <= d.totalRequests
      && d.distribution == Distribution(CountGrade(Scores(recent), Excellent), CountGrade(Scores(recent), Good),
                                        CountGrade(Scores(recent), Fair), CountGrade(Scores(recent), Poor))
      && (var dist := d.distribution; dist.excellent + dist.good + dist.fair + dist.poor == |Scores(recent)|)
      && d.averageQuality == (if Scores(recent) == [] then 0.0 else Mean(Sum(Scores(recent)), |Scores(recent)|))
      && d.averageProcessingTime == Mean(TotalTime(recent), |recent|)
      && d.cacheHitRate == Share(CacheHits(recent), |recent|)
      && 0.0 <= d.cacheHitRate <= 1.0
      && d.totalCost == TotalCost(recent)
  {
    if history == [] then NoMetrics
    else
      var recent := Since(history, now - 24.0 * HOUR);
      if recent == [] then NoRecentMetrics
      else
        var scores := Scores(recent);
        var n := |recent|;

        Dashboard(n, Successes(recent), DistributionOf(scores),
                  if scores == [] then 0.0 else Mean(Sum(scores), |scores|),
                  Mean(TotalTime(recent), n), TotalCost(recent), Share(CacheHits(recent), n))
  }

  // ---------------------------------------------------------------------
  // get_recent_alerts
  // ---------------------------------------------------------------------

  /** Newest first: timestamps never increase along the list. */
  predicate NewestFirst(s: seq<Alert>)
  {
    forall i, j :: 0 <= i < j < |s| ==> s[i].timestamp >= s[j].timestamp
  }

  /** `a` placed before the first alert that is not newer than it. */
  function InsertNewest(a: Alert, s: seq<Alert>): (r: seq<Alert>)
    ensures multiset(r) == multiset(s) + multiset{a}
    ensures forall x :: x in r <==> x == a || x in s
  {
    if s == [] || s[0].timestamp <= a.timestamp then [a] + s
    else
      assert s == [s[0]] + s[1..];
      [s[0]] + InsertNewest(a, s[1..])
  }

  /** Inserting into a list that is newest first keeps it newest first. */
  lemma {:induction false} InsertNewestSorted(a: Alert, s: seq<Alert>)
    requires NewestFirst(s)
    ensures NewestFirst(InsertNewest(a, s))
  {
    if s == [] || s[0].timestamp <= a.timestamp {
      HeadNewest(s);
      ConsNewest(a, s);
    } else {
      HeadNewest(s);
      InsertNewestSorted(a, s[1..]);
      ConsNewest(s[0], InsertNewest(a, s[1..]));
    }
  }

  /** In a list that is newest first, the head is at least as new as the rest. */
  lemma HeadNewest(s: seq<Alert>)
    requires NewestFirst(s)
    ensures s != [] ==> forall x :: x in s[1..] ==> x.timestamp <= s[0].timestamp
    ensures s != [] ==> NewestFirst(s[1..])
  {
    if s != [] {
      forall x | x in s[1..] ensures x.timestamp <= s[0].timestamp {
        var k :| 0 <= k < |s[1..]| && s[1..][k] == x;
        assert s[k + 1] == x;
      }
    }
  }

  /** An alert at least as new as every alert of a newest-first list can go in front of it. */
  lemma ConsNewest(h: Alert, s: seq<Alert>)
    requires NewestFirst(s)
    requires forall x :: x in s ==> x.timestamp <= h.timestamp
    ensures NewestFirst([h] + s)
  {
    var r := [h] + s;
    forall i, j | 0 <= i < j < |r| ensures r[i].timestamp >= r[j].timestamp {
      assert r[j] == s[j - 1];
      if i > 0 {
        assert r[i] == s[i - 1];
      }
    }
  }

  /** The list sorted newest first, as `sort(key=timestamp, reverse=True)` does. */
  function SortNewestFirst(s: seq<Alert>): (r: seq<Alert>)
    ensures NewestFirst(r)
    ensures multiset(r) == multiset(s)
  {
    if s == [] then []
    else
      assert s == [s[0]] + s[1..];
      InsertNewestSorted(s[0], SortNewestFirst(s[1..]));
      InsertNewest(s[0], SortNewestFirst(s[1..]))
  }

  /** The alerts stamped strictly after `cutoff`, in order. */
  function AlertsSince(alerts: seq<Alert>, cutoff: real): (r: seq<Alert>)
    ensures IsSubsequence(r, alerts)
    ensures forall a :: multiset(r)[a] == if a.timestamp > cutoff then multiset(alerts)[a] else 0
  {
    if alerts == [] then []
    else
      var rest := AlertsSince(alerts[1..], cutoff);
      assert multiset(alerts) == multiset{alerts[0]} + multiset(alerts[1..]) by { assert alerts == [alerts[0]] + alerts[1..]; }
      if alerts[0].timestamp > cutoff then
        assert ([alerts[0]] + rest)[1..] == rest;
        assert multiset([alerts[0]] + rest) == multiset{alerts[0]} + multiset(rest);
        [alerts[0]] + rest
      else
        SubsequenceSkip(rest, alerts);
        rest
  }

  /**
   * `get_recent_alerts(hours)` at `now`: exactly the alerts of the last
   * `hours` hours, each as often as it was stored, newest first.
   */
  function RecentAlerts(alerts: seq<Alert>, hours: int, now: real): (r: seq<Alert>)
    ensures NewestFirst(r)
    ensures multiset(r) == multiset(AlertsSince(alerts, now - hours as real * HOUR))
    ensures forall a :: a in r <==> a in alerts && a.timestamp > now - hours as real * HOUR
  {
    var r := SortNewestFirst(AlertsSince(alerts, now - hours as real * HOUR));
    assert forall a :: a in r <==> a in multiset(r);
    r
  }

  // ---------------------------------------------------------------------
  // The monitor
  // ---------------------------------------------------------------------

  class Monitor {
    var metricsHistory: seq<RequestMetrics>
    var alerts: seq<Alert>
    var monitoringEnabled: bool

    /** The history and the alert list stay within their bounds. */
    ghost predicate Valid()
      reads this
    {
      |metricsHistory| <= MAX_HISTORY && |alerts| <= MAX_ALERTS
    }

    /** `__init__`: no history, no alerts, monitoring on. */
    constructor ()
      ensures Valid() && metricsHistory == [] && alerts == [] && monitoringEnabled
    {
      metricsHistory := [];
      alerts := [];
      monitoringEnabled := true;
    }

    /**
     * `record_request_metrics` at `now`: the entry is appended, the history
     * cut to its last 1000 entries, and the entry's alerts recorded.
     * Monitoring being off does not stop it.
     */
    method RecordRequestMetrics(reported: Reported, now: real)
      requires Valid()
      modifies this
      ensures Valid() && monitoringEnabled == old(monitoringEnabled)
      ensures metricsHistory == KeepLast(old(metricsHistory) + [Recorded(reported, now)], MAX_HISTORY)
      ensures metricsHistory[|metricsHistory| - 1] == Recorded(reported, now)
      ensures alerts == KeepLast(old(alerts) + AlertsFor(Recorded(reported, now)), MAX_ALERTS)
    {
      var m := Recorded(reported, now);
      metricsHistory := metricsHistory + [m];
      if |metricsHistory| > MAX_HISTORY {
        metricsHistory := metricsHistory[|metricsHistory| - MAX_HISTORY..];
      }
      CheckAlerts(m);
    }

    /** `_check_alerts`: the entry's alerts are appended and the list cut to its last 100. */
    method CheckAlerts(m: RequestMetrics)
      modifies this
      ensures metricsHistory == old(metricsHistory) && monitoringEnabled == old(monitoringEnabled)
      ensures alerts == KeepLast(old(alerts) + AlertsFor(m), MAX_ALERTS)
      ensures |alerts| <= MAX_ALERTS
    {
      var triggered: seq<Alert> := [];
      if !m.success {
        triggered := triggered + [Alert(ErrorAlert, High, m.timestamp)];
      }
      assert triggered == AlertIf(m, ErrorAlert);
      if m.processingTime > RESPONSE_TIME_THRESHOLD {
        triggered := triggered + [Alert(PerformanceAlert, Medium, m.timestamp)];
      }
      assert triggered == AlertIf(m, ErrorAlert) + AlertIf(m, PerformanceAlert);
      if m.qualityScore > 0.0 && m.qualityScore < QUALITY_THRESHOLD {
        triggered := triggered + [Alert(QualityAlert, Medium, m.timestamp)];
      }
      assert triggered == AlertIf(m, ErrorAlert) + AlertIf(m, PerformanceAlert) + AlertIf(m, QualityAlert);
      if m.cost > HIGH_REQUEST_COST {
        triggered := triggered + [Alert(CostAlert, Low, m.timestamp)];
      }
      assert triggered == AlertsFor(m);
      alerts := alerts + triggered;
      if |alerts| > MAX_ALERTS {
        alerts := alerts[|alerts| - MAX_ALERTS..];
      }
    }

  }

  /** A failed request leaves its high-severity error alert among the stored alerts, whatever was stored before. */
  lemma FailureAlertStored(alerts: seq<Alert>, m: RequestMetrics)
    requires !m.success
    ensures Alert(ErrorAlert, High, m.timestamp) in KeepLast(alerts + AlertsFor(m), MAX_ALERTS)
  {
    AlertsForShape(m);
    var all := alerts + AlertsFor(m);
    var kept := KeepLast(all, MAX_ALERTS);
    assert all[|alerts|] == Alert(ErrorAlert, High, m.timestamp);
    assert kept[|kept| - (|all| - |alerts|)] == all[|alerts|];
  }
}
