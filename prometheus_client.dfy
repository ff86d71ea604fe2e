/**
  The metrics side of monitoring/prometheus_client.go: the line classifier
  of `parsePrometheusFormat` over the Prometheus text exposition format,
  `CalculateDiff` and `max`. The HTTP scrape is not modelled; `%f`
  scanning is a parameter `scan` (`None` where `fmt.Sscanf` fails, which
  leaves the value at 0).
*/
module PrometheusClient {
  import opened Wrappers
  import opened GoStrings

  /** The named fields of `PrometheusMetrics`. */
  datatype Target =
    | HTTPRequestsTotal
    | HTTPRequestDurationP50
    | HTTPRequestDurationP95
    | HTTPRequestDurationP99
    | HTTPErrorsTotal
    | HTTPActiveConnections
    | CPUUsagePercent
    | MemoryUsageMB
    | MemoryUsagePercent
    | GoroutinesCount
    | DBConnectionsActive
    | DBConnectionsIdle
    | DBQueriesTotal
    | DBQueryDurationP99

  /** The test of the `switch` case that assigns `t`, where `has(p)` is
      `strings.Contains(metricName, p)` (`MemoryUsagePercent` has no case). */
  predicate Matches(t: Target, has: string -> bool) {
    match t
    case HTTPRequestsTotal => has("http_requests_total")
    case HTTPRequestDurationP50 => has("http_request_duration_seconds") && has("quantile=\"0.5\"")
    case HTTPRequestDurationP95 => has("http_request_duration_seconds") && has("quantile=\"0.95\"")
    case HTTPRequestDurationP99 => has("http_request_duration_seconds") && has("quantile=\"0.99\"")
    case HTTPErrorsTotal => has("http_errors_total")
    case HTTPActiveConnections => has("http_connections_active") || has("fiber_connections_active")
    case CPUUsagePercent => has("process_cpu_seconds_total")
    case MemoryUsageMB => has("process_resident_memory_bytes")
    case MemoryUsagePercent => false
    case GoroutinesCount => has("go_goroutines")
    case DBConnectionsActive => has("db_connections_active")
    case DBConnectionsIdle => has("db_connections_idle")
    case DBQueriesTotal => has("db_queries_total")
    case DBQueryDurationP99 => has("db_query_duration") && has("quantile=\"0.99\"")
  }

  /** The order of the `switch` cases. */
  const CaseOrder: seq<Target> := [
    HTTPRequestsTotal, HTTPRequestDurationP50, HTTPRequestDurationP95, HTTPRequestDurationP99,
    HTTPErrorsTotal, HTTPActiveConnections, CPUUsagePercent, MemoryUsageMB, GoroutinesCount,
    DBConnectionsActive, DBConnectionsIdle, DBQueriesTotal, DBQueryDurationP99
  ]

  /** The first target of `CaseOrder`, from position `i` on, whose test
      passes. */
  function FirstMatch(has: string -> bool, i: nat): (r: Option<Target>)
    requires i <= |CaseOrder|
    ensures r.Some? ==> r.value in CaseOrder[i..] && Matches(r.value, has)
    ensures r.None? ==> forall k :: i <= k < |CaseOrder| ==> !Matches(CaseOrder[k], has)
    decreases |CaseOrder| - i
  {
    if i == |CaseOrder| then None
    else if Matches(CaseOrder[i], has) then Some(CaseOrder[i])
    else FirstMatch(has, i + 1)
  }

  /** The `switch` of `parsePrometheusFormat` on the substring tests of a
      metric name: `None` is its `default`. */
  function Classify(has: string -> bool): Option<Target> {
    if has("http_requests_total") then Some(HTTPRequestsTotal)
    else if has("http_request_duration_seconds") && has("quantile=\"0.5\"") then Some(HTTPRequestDurationP50)
    else if has("http_request_duration_seconds") && has("quantile=\"0.95\"") then Some(HTTPRequestDurationP95)
    else if has("http_request_duration_seconds") && has("quantile=\"0.99\"") then Some(HTTPRequestDurationP99)
    else if has("http_errors_total") then Some(HTTPErrorsTotal)
    else if has("http_connections_active") || has("fiber_connections_active") then Some(HTTPActiveConnections)
    else if has("process_cpu_seconds_total") then Some(CPUUsagePercent)
    else if has("process_resident_memory_bytes") then Some(MemoryUsageMB)
    else if has("go_goroutines") then Some(GoroutinesCount)
    else if has("db_connections_active") then Some(DBConnectionsActive)
    else if has("db_connections_idle") then Some(DBConnectionsIdle)
    else if has("db_queries_total") then Some(DBQueriesTotal)
    else if has("db_query_duration") && has("quantile=\"0.99\"") then Some(DBQueryDurationP99)
    else None
  }

  /** The `switch` on a metric name. */
  function ClassifyName(metricName: string): Option<Target> {
    Classify(p => Contains(metricName, p))
  }

  /** `FirstMatch` over the HTTP cases, the first six, as the `switch`
      tests them. */
  lemma HTTPCases(has: string -> bool)
    ensures FirstMatch(has, 0) ==
      if has("http_requests_total") then Some(HTTPRequestsTotal)
      else if has("http_request_duration_seconds") && has("quantile=\"0.5\"") then Some(HTTPRequestDurationP50)
      else if has("http_request_duration_seconds") && has("quantile=\"0.95\"") then Some(HTTPRequestDurationP95)
      else if has("http_request_duration_seconds") && has("quantile=\"0.99\"") then Some(HTTPRequestDurationP99)
      else if has("http_errors_total") then Some(HTTPErrorsTotal)
      else if has("http_connections_active") || has("fiber_connections_active") then Some(HTTPActiveConnections)
      else FirstMatch(has, 6)
  {
    assert CaseOrder[0] == HTTPRequestsTotal && CaseOrder[1] == HTTPRequestDurationP50;
    assert CaseOrder[2] == HTTPRequestDurationP95 && CaseOrder[3] == HTTPRequestDurationP99;
    assert CaseOrder[4] == HTTPErrorsTotal && CaseOrder[5] == HTTPActiveConnections;
  }

  /** `FirstMatch` over the process and runtime cases. */
  lemma ProcessCases(has: string -> bool)
    ensures FirstMatch(has, 6) ==
      if has("process_cpu_seconds_total") then Some(CPUUsagePercent)
      else if has("process_resident_memory_bytes") then Some(MemoryUsageMB)
      else if has("go_goroutines") then Some(GoroutinesCount)
      else FirstMatch(has, 9)
  {
    assert CaseOrder[6] == CPUUsagePercent && CaseOrder[7] == MemoryUsageMB;
    assert CaseOrder[8] == GoroutinesCount;
  }

  /** `FirstMatch` over the database cases, the last four. */
  lemma DBCases(has: string -> bool)
    ensures FirstMatch(has, 9) ==
      if has("db_connections_active") then Some(DBConnectionsActive)
      else if has("db_connections_idle") then Some(DBConnectionsIdle)
      else if has("db_queries_total") then Some(DBQueriesTotal)
      else if has("db_query_duration") && has("quantile=\"0.99\"") then Some(DBQueryDurationP99)
      else None
  {
    assert CaseOrder[9] == DBConnectionsActive && CaseOrder[10] == DBConnectionsIdle;
    assert CaseOrder[11] == DBQueriesTotal && CaseOrder[12] == DBQueryDurationP99;
  }

  /** Each line updates the target of the first case, in the fixed order,
      whose test passes. */
  lemma ClassifyIsFirstMatch(has: string -> bool)
    ensures Classify(has) == FirstMatch(has, 0)
  {
    HTTPCases(has);
    ProcessCases(has);
    DBCases(has);
  }

  /** The `default` case is taken exactly when no case test passes. */
  lemma DefaultWhenNoMatch(has: string -> bool)
    ensures Classify(has).None? <==> forall t :: !Matches(t, has)
  {
    ClassifyIsFirstMatch(has);
    if Classify(has).None? {
      forall t ensures !Matches(t, has) {
        if t != MemoryUsagePercent {
          assert t in CaseOrder;
          var k :| 0 <= k < |CaseOrder| && CaseOrder[k] == t;
        }
      }
    }
  }

  /** The value stored for a target: milliseconds for the quantiles,
      mebibytes for the resident memory, as read otherwise. */
  function Scale(t: Target, v: real): real {
    if t == HTTPRequestDurationP50 || t == HTTPRequestDurationP95
       || t == HTTPRequestDurationP99 || t == DBQueryDurationP99 then v * 1000.0
    else if t == MemoryUsageMB then v / 1024.0 / 1024.0
    else v
  }

  /** The parsed fields of a `PrometheusMetrics`; a target never assigned
      reads as 0, Go's zero value. */
  datatype MetricsState = MetricsState(values: map<Target, real>, custom: map<string, real>)

  function Get(s: MetricsState, t: Target): real {
    if t in s.values then s.values[t] else 0.0
  }

  /** The effect of one line. */
  datatype Update = SetField(target: Target, value: real) | SetCustom(name: string, value: real)

  /** One line of the exposition text: comments, blank lines and lines
      with fewer than two fields are skipped; otherwise the first field is
      the name and the last the value. */
  function ParseLine(rawLine: string, scan: string -> Option<real>): Option<Update> {
    var line := TrimSpace(rawLine);
    if line == "" || HasPrefix(line, "#") then None
    else
      var parts := Fields(line);
      if |parts| < 2 then None
      else
        var metricName := parts[0];
        var value := scan(parts[|parts| - 1]).GetOr(0.0);
        match ClassifyName(metricName)
        case Some(t) => Some(SetField(t, Scale(t, value)))
        case None => if !HasPrefix(metricName, "#") then Some(SetCustom(metricName, value)) else None
  }

  function ApplyLine(s: MetricsState, u: Option<Update>): MetricsState {
    match u
    case None => s
    case Some(SetField(t, v)) => s.(values := s.values[t := v])
    case Some(SetCustom(name, v)) => s.(custom := s.custom[name := v])
  }

  /** The metrics after parsing `lines` in order. */
  function ParseAll(s: MetricsState, lines: seq<string>, scan: string -> Option<real>): MetricsState
    decreases |lines|
  {
    if |lines| == 0 then s
    else ApplyLine(ParseAll(s, lines[..|lines| - 1], scan), ParseLine(lines[|lines| - 1], scan))
  }

  /** Which lines change nothing: exactly the blank ones, the comments and
      those with fewer than two fields. Every other line updates the target
      its first field selects with its scaled last field, or stores that
      field under the full name: the `#` guard of the `default` never fails. */
  lemma ParseLineCases(rawLine: string, scan: string -> Option<real>)
    ensures var line := TrimSpace(rawLine);
      ParseLine(rawLine, scan).None? <==> (line == "" || HasPrefix(line, "#") || |Fields(line)| < 2)
    ensures var line := TrimSpace(rawLine);
      ParseLine(rawLine, scan).Some? ==>
        var parts := Fields(line);
        var value := scan(parts[|parts| - 1]).GetOr(0.0);
        match ClassifyName(parts[0])
        case Some(t) => ParseLine(rawLine, scan) == Some(SetField(t, Scale(t, value)))
        case None => ParseLine(rawLine, scan) == Some(SetCustom(parts[0], value))
  {
    var line := TrimSpace(rawLine);
    if !(line == "" || HasPrefix(line, "#")) && |Fields(line)| >= 2 {
      TrimSpaceTrimmed(rawLine);
      NameIsNoComment(line);
    }
  }

  /** The first field of a line that does not start with `#` or white
      space does not start with `#` either. */
  lemma NameIsNoComment(line: string)
    requires line != "" && !IsSpace(line[0]) && !HasPrefix(line, "#")
    ensures |Fields(line)| > 0 && !HasPrefix(Fields(line)[0], "#")
  {
    FirstFieldIsPrefix(line);
    var name := Fields(line)[0];
    assert name[0] == line[0];
  }

  /** Resident memory is stored in mebibytes and the quantiles in
      milliseconds: the stored value scales back to the value read. */
  lemma ScaleUnits(v: real)
    ensures Scale(MemoryUsageMB, v) * 1048576.0 == v
    ensures Scale(HTTPRequestDurationP50, v) == 1000.0 * v && Scale(DBQueryDurationP99, v) == 1000.0 * v
    ensures forall t :: (t !in {HTTPRequestDurationP50, HTTPRequestDurationP95, HTTPRequestDurationP99,
                                DBQueryDurationP99, MemoryUsageMB}) ==> Scale(t, v) == v
  {
  }

  lemma {:induction false} ParseAllAppend(s: MetricsState, a: seq<string>, b: seq<string>, scan: string -> Option<real>)
    ensures ParseAll(s, a + b, scan) == ParseAll(ParseAll(s, a, scan), b, scan)
    decreases |b|
  {
    if |b| > 0 {
      ParseAllAppend(s, a, b[..|b| - 1], scan);
      assert (a + b)[..|a + b| - 1] == a + b[..|b| - 1];
      assert (a + b)[|a + b| - 1] == b[|b| - 1];
    } else {
      assert a + b == a;
    }
  }

  predicate Sets(u: Option<Update>, t: Target) {
    u.Some? && u.value.SetField? && u.value.target == t
  }

  /** A target no line assigns keeps its value. */
  lemma {:induction false} ParseAllUntouched(s: MetricsState, lines: seq<string>, scan: string -> Option<real>, t: Target)
    requires forall k :: 0 <= k < |lines| ==> !Sets(ParseLine(lines[k], scan), t)
    ensures Get(ParseAll(s, lines, scan), t) == Get(s, t)
    decreases |lines|
  {
    if |lines| > 0 {
      ParseAllUntouched(s, lines[..|lines| - 1], scan, t);
    }
  }

  /** A later line overwrites an earlier one: a target ends with the value
      of the last line that assigns it. */
  lemma LastWriteWins(s: MetricsState, before: seq<string>, line: string, after: seq<string>,
                      scan: string -> Option<real>, t: Target, v: real)
    requires ParseLine(line, scan) == Some(SetField(t, v))
    requires forall k :: 0 <= k < |after| ==> !Sets(ParseLine(after[k], scan), t)
    ensures Get(ParseAll(s, before + [line] + after, scan), t) == v
  {
    ParseAllAppend(s, before + [line], after, scan);
    ParseAllUntouched(ParseAll(s, before + [line], scan), after, scan, t);
    assert (before + [line])[..|before + [line]| - 1] == before;
  }

  /** A `PrometheusMetrics` snapshot. */
  class PrometheusMetrics {
    var timestamp: int
    var values: map<Target, real>
    var customMetrics: map<string, real>

    function State(): MetricsState
      reads this
    {
      MetricsState(values, customMetrics)
    }

    /** The snapshot `ScrapeMetrics` starts from: stamped, all fields zero,
        an empty custom map. */
    constructor (now: int)
      ensures timestamp == now && State() == MetricsState(map[], map[])
    {
      timestamp := now;
      values := map[];
      customMetrics := map[];
    }
  }

  /** `parsePrometheusFormat`: folds the lines of `body` into `metrics`,
      and always returns nil. */
  method ParsePrometheusFormat(body: string, metrics: PrometheusMetrics, scan: string -> Option<real>)
    returns (err: Option<string>)
    modifies metrics
    ensures err == None
    ensures metrics.State() == ParseAll(old(metrics.State()), Split(body, '\n'), scan)
    ensures metrics.timestamp == old(metrics.timestamp)
  {
    var lines := Split(body, '\n');
    var i := 0;
    while i < |lines|
      invariant 0 <= i <= |lines|
      invariant metrics.State() == ParseAll(old(metrics.State()), lines[..i], scan)
      invariant metrics.timestamp == old(metrics.timestamp)
    {
      assert lines[..i + 1][..i] == lines[..i];
      ParseLineInto(lines[i], metrics, scan);
      i := i + 1;
    }
    assert lines[..i] == lines;
    err := None;
  }

  /** The body of the loop of `parsePrometheusFormat`, on one line. */
  method ParseLineInto(rawLine: string, metrics: PrometheusMetrics, scan: string -> Option<real>)
    modifies metrics
    ensures metrics.State() == ApplyLine(old(metrics.State()), ParseLine(rawLine, scan))
    ensures metrics.timestamp == old(metrics.timestamp)
  {
    var line := TrimSpace(rawLine);
    if line == "" || HasPrefix(line, "#") {
      return;
    }
    var parts := Fields(line);
    if |parts| < 2 {
      return;
    }
    var metricName := parts[0];
    var value := scan(parts[|parts| - 1]).GetOr(0.0);
    var target := ClassifyName(metricName);
    if target.Some? {
      metrics.values := metrics.values[target.value := Scale(target.value, value)];
    } else if !HasPrefix(metricName, "#") {
      metrics.customMetrics := metrics.customMetrics[metricName := value];
    }
  }

  /** `MetricsDiff`, without the duration text. */
  datatype MetricsDiff = MetricsDiff(
    startTime: int,
    endTime: int,
    httpRequestsIncrease: real,
    httpRequestsPerSecond: real,
    httpErrorRatePercent: real,
    avgCPUUsagePercent: real,
    avgMemoryUsageMB: real,
    peakGoroutines: real,
    avgActiveConnections: real)

  /** `time.Duration.Seconds` of an integer nanosecond count. */
  function Seconds(d: int): real {
    d as real / 1_000_000_000.0
  }

  /** `max` on two floats. */
  function Max(a: real, b: real): (m: real)
    ensures m >= a && m >= b && (m == a || m == b)
  {
    if a > b then a else b
  }

  /** `CalculateDiff` of two snapshots taken at `startTime` and `endTime`. */
  function CalculateDiff(start: MetricsState, startTime: int, end: MetricsState, endTime: int): (d: MetricsDiff)
    ensures d.startTime == startTime && d.endTime == endTime
    ensures d.httpRequestsIncrease == Get(end, HTTPRequestsTotal) - Get(start, HTTPRequestsTotal)
    ensures endTime - startTime <= 0 ==> d.httpRequestsPerSecond == 0.0
    ensures endTime - startTime > 0 ==>
      d.httpRequestsPerSecond * Seconds(endTime - startTime) == d.httpRequestsIncrease
    ensures d.httpRequestsIncrease <= 0.0 ==> d.httpErrorRatePercent == 0.0
    ensures d.httpRequestsIncrease > 0.0 ==>
      d.httpErrorRatePercent * d.httpRequestsIncrease == (Get(end, HTTPErrorsTotal) - Get(start, HTTPErrorsTotal)) * 100.0
    ensures 2.0 * d.avgCPUUsagePercent == Get(start, CPUUsagePercent) + Get(end, CPUUsagePercent)
    ensures 2.0 * d.avgMemoryUsageMB == Get(start, MemoryUsageMB) + Get(end, MemoryUsageMB)
    ensures 2.0 * d.avgActiveConnections == Get(start, HTTPActiveConnections) + Get(end, HTTPActiveConnections)
    ensures d.peakGoroutines >= Get(start, GoroutinesCount) && d.peakGoroutines >= Get(end, GoroutinesCount)
    ensures d.peakGoroutines == Get(start, GoroutinesCount) || d.peakGoroutines == Get(end, GoroutinesCount)
  {
    var duration := endTime - startTime;
    var increase := Get(end, HTTPRequestsTotal) - Get(start, HTTPRequestsTotal);
    var perSecond := if Seconds(duration) > 0.0 then increase / Seconds(duration) else 0.0;
    var errorIncrease := Get(end, HTTPErrorsTotal) - Get(start, HTTPErrorsTotal);
    var errorRate := if increase > 0.0 then (errorIncrease / increase) * 100.0 else 0.0;
    MetricsDiff(startTime, endTime, increase, perSecond, errorRate,
                (Get(start, CPUUsagePercent) + Get(end, CPUUsagePercent)) / 2.0,
                (Get(start, MemoryUsageMB) + Get(end, MemoryUsageMB)) / 2.0,
                Max(Get(start, GoroutinesCount), Get(end, GoroutinesCount)),
                (Get(start, HTTPActiveConnections) + Get(end, HTTPActiveConnections)) / 2.0)
  }
}
