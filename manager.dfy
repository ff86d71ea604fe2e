/**
  monitoring/manager.go: the monitoring manager keeps the Prometheus and
  system snapshots taken during a run, and turns them into a report with a
  diff, a system summary and performance insights.

  Scraping Prometheus and collecting system metrics are the results a
  caller hands in (the HTTP scrape and the shell commands are not part of
  this model); the clock is a parameter; the ticker of the periodic
  collection is the sequence of results of its ticks.
*/
module Manager {
  import opened Wrappers
  import SystemMonitor
  import PrometheusClient

  type SystemSnapshot = SystemMonitor.Snapshot

  /** A `PrometheusMetrics` snapshot: when it was scraped and what it holds. */
  datatype PromSnapshot = PromSnapshot(timestamp: int, state: PrometheusClient.MetricsState)

  /** A scrape of Prometheus, or its error text. */
  type Scrape = Result<PromSnapshot, string>

  /** A collection of system metrics, or its error. */
  type Collection = Result<SystemSnapshot, SystemMonitor.MetricsError>

  // ---------------------------------------------------------------------
  // Snapshots

  /** A snapshot slice after one attempt: the snapshot is appended only
      when its source is enabled and the attempt succeeded. */
  function Appended<T, E>(xs: seq<T>, enabled: bool, r: Result<T, E>): (ys: seq<T>)
    ensures enabled && r.Ok? ==> ys == xs + [r.value]
    ensures !(enabled && r.Ok?) ==> ys == xs
  {
    if enabled && r.Ok? then xs + [r.value] else xs
  }

  /** The snapshots a sequence of attempts leaves, in order. */
  function Successes<T, E>(enabled: bool, rs: seq<Result<T, E>>): seq<T>
    decreases |rs|
  {
    if |rs| == 0 then []
    else Appended(Successes(enabled, rs[..|rs| - 1]), enabled, rs[|rs| - 1])
  }

  /** A snapshot is kept exactly when some attempt returned it, and none is
      kept from a disabled source. */
  lemma {:induction false} SuccessesContents<T, E>(enabled: bool, rs: seq<Result<T, E>>, x: T)
    ensures x in Successes(enabled, rs) <==> enabled && exists i :: 0 <= i < |rs| && rs[i] == Ok(x)
    ensures !enabled ==> Successes(enabled, rs) == []
    decreases |rs|
  {
    if |rs| > 0 {
      var init := rs[..|rs| - 1];
      SuccessesContents(enabled, init, x);
      if enabled && exists i :: 0 <= i < |rs| && rs[i] == Ok(x) {
        var i :| 0 <= i < |rs| && rs[i] == Ok(x);
        if i < |rs| - 1 {
          assert init[i] == Ok(x);
        }
      }
      if exists i :: 0 <= i < |init| && init[i] == Ok(x) {
        var i :| 0 <= i < |init| && init[i] == Ok(x);
        assert rs[i] == Ok(x);
      }
    }
  }

  /** One more attempt. */
  lemma SuccessesStep<T, E>(pre: seq<T>, enabled: bool, rs: seq<Result<T, E>>, i: int)
    requires 0 <= i < |rs|
    ensures pre + Successes(enabled, rs[..i + 1]) == Appended(pre + Successes(enabled, rs[..i]), enabled, rs[i])
  {
    assert rs[..i + 1][..i] == rs[..i];
    var xs := Successes(enabled, rs[..i]);
    if enabled && rs[i].Ok? {
      assert pre + (xs + [rs[i].value]) == (pre + xs) + [rs[i].value];
    }
  }

  /** As many snapshots are kept as attempts succeeded. */
  lemma {:induction false} SuccessesCount<T, E>(rs: seq<Result<T, E>>)
    ensures |Successes(true, rs)| == |OkPositions(rs)|
    decreases |rs|
  {
    if |rs| > 0 {
      SuccessesCount(rs[..|rs| - 1]);
    }
  }

  /** The positions of the successful attempts. */
  function OkPositions<T, E>(rs: seq<Result<T, E>>): seq<nat>
    decreases |rs|
  {
    if |rs| == 0 then []
    else OkPositions(rs[..|rs| - 1]) + (if rs[|rs| - 1].Ok? then [|rs| - 1] else [])
  }

  // ---------------------------------------------------------------------
  // Crashes

  /** A collection that panics (the uptime slice out of range) ends the
      whole process, since nothing on the manager's side recovers it; it
      can only happen when the system monitor exists. */
  predicate Crashes(systemEnabled: bool, c: Collection) {
    systemEnabled && c == Err(SystemMonitor.Panicked)
  }

  /** The first tick whose collection crashes, or the number of ticks when
      none does. */
  function FirstCrash(systemEnabled: bool, cs: seq<Collection>): (k: nat)
    ensures k <= |cs|
    ensures forall j :: 0 <= j < k ==> !Crashes(systemEnabled, cs[j])
    ensures k < |cs| ==> Crashes(systemEnabled, cs[k])
    decreases |cs|
  {
    if |cs| == 0 || Crashes(systemEnabled, cs[0]) then 0
    else 1 + FirstCrash(systemEnabled, cs[1..])
  }

  /** The ticks that run: all of them, or up to and including the first
      one that crashes. */
  function TicksRun(systemEnabled: bool, cs: seq<Collection>): (n: nat)
    ensures n <= |cs|
    ensures n == |cs| <==> FirstCrash(systemEnabled, cs) >= |cs| - 1
  {
    var k := FirstCrash(systemEnabled, cs);
    if k < |cs| then k + 1 else |cs|
  }

  // ---------------------------------------------------------------------
  // The system summary

  /** `SystemSummary`. */
  datatype Summary = Summary(
    avgCPUUsagePercent: real,
    peakCPUUsagePercent: real,
    avgMemoryUsageMB: real,
    peakMemoryUsageMB: real,
    avgMemoryUsagePercent: real,
    avgTCPConnections: real,
    peakTCPConnections: int,
    avgLoadAverage1Min: real)

  function CPU(s: SystemSnapshot): real { s.cpuUsagePercent }
  function UsedMemory(s: SystemSnapshot): real { s.usedMemoryMB }
  function MemoryPercent(s: SystemSnapshot): real { s.memoryUsagePercent }
  function Connections(s: SystemSnapshot): real { s.tcpEstablished as real }
  function Load1(s: SystemSnapshot): real { s.loadAverage1Min }

  /** The sum of one figure over the snapshots. */
  function SumOf(xs: seq<SystemSnapshot>, f: SystemSnapshot -> real): real
    decreases |xs|
  {
    if |xs| == 0 then 0.0 else SumOf(xs[..|xs| - 1], f) + f(xs[|xs| - 1])
  }

  /** The peak of one figure as the summary keeps it: it starts at zero and
      is raised by every larger value. */
  function PeakOf(xs: seq<SystemSnapshot>, f: SystemSnapshot -> real): real
    decreases |xs|
  {
    if |xs| == 0 then 0.0
    else
      var p := PeakOf(xs[..|xs| - 1], f);
      if f(xs[|xs| - 1]) > p then f(xs[|xs| - 1]) else p
  }

  /** The peak connection count, an integer maximum starting at zero. */
  function PeakConnections(xs: seq<SystemSnapshot>): int
    decreases |xs|
  {
    if |xs| == 0 then 0
    else
      var p := PeakConnections(xs[..|xs| - 1]);
      if xs[|xs| - 1].tcpEstablished > p then xs[|xs| - 1].tcpEstablished else p
  }

  /** The peak is the largest of zero and the values: it bounds every value
      and is zero or one of them. */
  lemma {:induction false} PeakOfIsMax(xs: seq<SystemSnapshot>, f: SystemSnapshot -> real)
    ensures PeakOf(xs, f) >= 0.0
    ensures forall i :: 0 <= i < |xs| ==> f(xs[i]) <= PeakOf(xs, f)
    ensures PeakOf(xs, f) == 0.0 || exists i :: 0 <= i < |xs| && PeakOf(xs, f) == f(xs[i])
    decreases |xs|
  {
    if |xs| > 0 {
      var init := xs[..|xs| - 1];
      PeakOfIsMax(init, f);
      assert forall i :: 0 <= i < |init| ==> init[i] == xs[i];
    }
  }

  /** The same for the integer connection peak. */
  lemma {:induction false} PeakConnectionsIsMax(xs: seq<SystemSnapshot>)
    ensures PeakConnections(xs) >= 0
    ensures forall i :: 0 <= i < |xs| ==> xs[i].tcpEstablished <= PeakConnections(xs)
    ensures PeakConnections(xs) == 0 || exists i :: 0 <= i < |xs| && PeakConnections(xs) == xs[i].tcpEstablished
    decreases |xs|
  {
    if |xs| > 0 {
      var init := xs[..|xs| - 1];
      PeakConnectionsIsMax(init);
      assert forall i :: 0 <= i < |init| ==> init[i] == xs[i];
    }
  }

  /** No sum exceeds count times the peak, so no average exceeds its peak. */
  lemma {:induction false} SumAtMostPeak(xs: seq<SystemSnapshot>, f: SystemSnapshot -> real)
    ensures SumOf(xs, f) <= |xs| as real * PeakOf(xs, f)
    decreases |xs|
  {
    if |xs| > 0 {
      var init := xs[..|xs| - 1];
      SumAtMostPeak(init, f);
      PeakOfIsMax(init, f);
      assert PeakOf(init, f) <= PeakOf(xs, f);
      assert |init| as real * PeakOf(init, f) <= |init| as real * PeakOf(xs, f);
    }
  }

  /** `calculateSystemSummary`: nothing for no snapshots; otherwise each
      average is its sum over the count, and the peaks as above. */
  function SummaryOf(xs: seq<SystemSnapshot>): Option<Summary> {
    if |xs| == 0 then None
    else
      var n := |xs| as real;
      Some(Summary(SumOf(xs, CPU) / n, PeakOf(xs, CPU), SumOf(xs, UsedMemory) / n, PeakOf(xs, UsedMemory),
                   SumOf(xs, MemoryPercent) / n, SumOf(xs, Connections) / n, PeakConnections(xs),
                   SumOf(xs, Load1) / n))
  }

  /** The averages of a summary never exceed their peaks, and the peaks are
      never negative. */
  lemma AveragesBelowPeaks(xs: seq<SystemSnapshot>)
    requires |xs| > 0
    ensures var s := SummaryOf(xs).value;
      && 0.0 <= s.peakCPUUsagePercent && s.avgCPUUsagePercent <= s.peakCPUUsagePercent
      && 0.0 <= s.peakMemoryUsageMB && s.avgMemoryUsageMB <= s.peakMemoryUsageMB
      && 0 <= s.peakTCPConnections
  {
    var n := |xs| as real;
    SumAtMostPeak(xs, CPU);
    SumAtMostPeak(xs, UsedMemory);
    PeakOfIsMax(xs, CPU);
    PeakOfIsMax(xs, UsedMemory);
    PeakConnectionsIsMax(xs);
    DivideBelow(SumOf(xs, CPU), n, PeakOf(xs, CPU));
    DivideBelow(SumOf(xs, UsedMemory), n, PeakOf(xs, UsedMemory));
  }

  lemma DivideBelow(sum: real, n: real, peak: real)
    requires n > 0.0 && sum <= n * peak
    ensures sum / n <= peak
  {
    assert sum / n * n == sum;
  }

  // ---------------------------------------------------------------------
  // Insights

  /** One performance insight; its message is the fixed text of its kind
      with the figure that raised it. */
  datatype Insight =
    | HighErrorRate(rate: real)
    | HighCPU(avg: real)
    | HighMemory(avgMB: real)
    | CPUPeak(peak: real)
    | MemoryPressure(avgPercent: real)
    | ManyConnections(peakCount: int)

  /** The place of each kind in the report. */
  function Rank(i: Insight): nat {
    match i
    case HighErrorRate(_) => 0
    case HighCPU(_) => 1
    case HighMemory(_) => 2
    case CPUPeak(_) => 3
    case MemoryPressure(_) => 4
    case ManyConnections(_) => 5
  }

  function When(c: bool, i: Insight): seq<Insight> {
    if c then [i] else []
  }

  /** The Prometheus insights of a diff. */
  function DiffInsights(d: PrometheusClient.MetricsDiff): seq<Insight> {
    When(d.httpErrorRatePercent > 5.0, HighErrorRate(d.httpErrorRatePercent))
    + When(d.avgCPUUsagePercent > 80.0, HighCPU(d.avgCPUUsagePercent))
    + When(d.avgMemoryUsageMB > 1024.0, HighMemory(d.avgMemoryUsageMB))
  }

  /** The system insights of a summary. */
  function SummaryInsights(s: Summary): seq<Insight> {
    When(s.peakCPUUsagePercent > 90.0, CPUPeak(s.peakCPUUsagePercent))
    + When(s.avgMemoryUsagePercent > 85.0, MemoryPressure(s.avgMemoryUsagePercent))
    + When(s.peakTCPConnections > 1000, ManyConnections(s.peakTCPConnections))
  }

  /** The insights of a report: the Prometheus ones, then the system ones. */
  function Insights(d: Option<PrometheusClient.MetricsDiff>, s: Option<Summary>): seq<Insight> {
    (if d.Some? then DiffInsights(d.value) else []) + (if s.Some? then SummaryInsights(s.value) else [])
  }

  /** Each insight is reported exactly when its figure is strictly above
      its threshold, and carries that figure. */
  lemma InsightRules(d: Option<PrometheusClient.MetricsDiff>, s: Option<Summary>, x: real, n: int)
    ensures HighErrorRate(x) in Insights(d, s) <==> d.Some? && x == d.value.httpErrorRatePercent && x > 5.0
    ensures HighCPU(x) in Insights(d, s) <==> d.Some? && x == d.value.avgCPUUsagePercent && x > 80.0
    ensures HighMemory(x) in Insights(d, s) <==> d.Some? && x == d.value.avgMemoryUsageMB && x > 1024.0
    ensures CPUPeak(x) in Insights(d, s) <==> s.Some? && x == s.value.peakCPUUsagePercent && x > 90.0
    ensures MemoryPressure(x) in Insights(d, s) <==> s.Some? && x == s.value.avgMemoryUsagePercent && x > 85.0
    ensures ManyConnections(n) in Insights(d, s) <==> s.Some? && n == s.value.peakTCPConnections && n > 1000
  {
    var a := if d.Some? then DiffInsights(d.value) else [];
    var b := if s.Some? then SummaryInsights(s.value) else [];
    if d.Some? {
      DiffInsightRules(d.value, x);
      DiffInsightsRanked(d.value);
    }
    if s.Some? {
      SummaryInsightRules(s.value, x, n);
      SummaryInsightsRanked(s.value);
    }
    assert Insights(d, s) == a + b;
  }

  lemma DiffInsightRules(v: PrometheusClient.MetricsDiff, x: real)
    ensures HighErrorRate(x) in DiffInsights(v) <==> x == v.httpErrorRatePercent && x > 5.0
    ensures HighCPU(x) in DiffInsights(v) <==> x == v.avgCPUUsagePercent && x > 80.0
    ensures HighMemory(x) in DiffInsights(v) <==> x == v.avgMemoryUsageMB && x > 1024.0
  {
  }

  lemma SummaryInsightRules(v: Summary, x: real, n: int)
    ensures CPUPeak(x) in SummaryInsights(v) <==> x == v.peakCPUUsagePercent && x > 90.0
    ensures MemoryPressure(x) in SummaryInsights(v) <==> x == v.avgMemoryUsagePercent && x > 85.0
    ensures ManyConnections(n) in SummaryInsights(v) <==> n == v.peakTCPConnections && n > 1000
  {
  }

  /** Strictly increasing places: each kind at most once, in the fixed order. */
  predicate InOrder(xs: seq<Insight>) {
    forall i, j :: 0 <= i < j < |xs| ==> Rank(xs[i]) < Rank(xs[j])
  }

  lemma InOrderJoin(a: seq<Insight>, b: seq<Insight>, k: nat)
    requires InOrder(a) && InOrder(b)
    requires forall x :: x in a ==> Rank(x) < k
    requires forall y :: y in b ==> Rank(y) >= k
    ensures InOrder(a + b)
  {
    forall i, j | 0 <= i < j < |a + b|
      ensures Rank((a + b)[i]) < Rank((a + b)[j])
    {
      if j < |a| {
        assert (a + b)[i] == a[i] && (a + b)[j] == a[j];
      } else if i >= |a| {
        assert (a + b)[i] == b[i - |a|] && (a + b)[j] == b[j - |a|];
      } else {
        assert (a + b)[i] in a && (a + b)[j] in b;
      }
    }
  }

  /** Insights never repeat a kind and follow the fixed order: error rate,
      average CPU, average memory, peak CPU, memory percentage, connections. */
  lemma InsightsInOrder(d: Option<PrometheusClient.MetricsDiff>, s: Option<Summary>)
    ensures InOrder(Insights(d, s))
  {
    var a := if d.Some? then DiffInsights(d.value) else [];
    var b := if s.Some? then SummaryInsights(s.value) else [];
    if d.Some? {
      DiffInsightsRanked(d.value);
    }
    if s.Some? {
      SummaryInsightsRanked(s.value);
    }
    InOrderJoin(a, b, 3);
  }

  lemma DiffInsightsRanked(v: PrometheusClient.MetricsDiff)
    ensures InOrder(DiffInsights(v)) && forall x :: x in DiffInsights(v) ==> Rank(x) < 3
  {
    var e := When(v.httpErrorRatePercent > 5.0, HighErrorRate(v.httpErrorRatePercent));
    var c := When(v.avgCPUUsagePercent > 80.0, HighCPU(v.avgCPUUsagePercent));
    var m := When(v.avgMemoryUsageMB > 1024.0, HighMemory(v.avgMemoryUsageMB));
    InOrderJoin(e, c, 1);
    InOrderJoin(e + c, m, 2);
  }

  lemma SummaryInsightsRanked(v: Summary)
    ensures InOrder(SummaryInsights(v)) && forall x :: x in SummaryInsights(v) ==> Rank(x) >= 3
  {
    var p := When(v.peakCPUUsagePercent > 90.0, CPUPeak(v.peakCPUUsagePercent));
    var m := When(v.avgMemoryUsagePercent > 85.0, MemoryPressure(v.avgMemoryUsagePercent));
    var c := When(v.peakTCPConnections > 1000, ManyConnections(v.peakTCPConnections));
    InOrderJoin(p, m, 4);
    InOrderJoin(p + m, c, 5);
  }

  /** No insight at all exactly when no threshold is exceeded. */
  lemma NoInsights(d: Option<PrometheusClient.MetricsDiff>, s: Option<Summary>)
    ensures Insights(d, s) == [] <==>
      && !(d.Some? && (d.value.httpErrorRatePercent > 5.0 || d.value.avgCPUUsagePercent > 80.0
                       || d.value.avgMemoryUsageMB > 1024.0))
      && !(s.Some? && (s.value.peakCPUUsagePercent > 90.0 || s.value.avgMemoryUsagePercent > 85.0
                       || s.value.peakTCPConnections > 1000))
  {
  }

  // ---------------------------------------------------------------------
  // The report

  /** `MonitoringReport`; `duration` is the run's length in nanoseconds
      (its text form is not modelled). */
  datatype Report = Report(
    startTime: int,
    endTime: int,
    duration: int,
    prometheusAvailable: bool,
    prometheusDiff: Option<PrometheusClient.MetricsDiff>,
    prometheusSnapshots: seq<PromSnapshot>,
    systemAvailable: bool,
    systemSummary: Option<Summary>,
    systemSnapshots: seq<SystemSnapshot>,
    insights: seq<Insight>)

  /** The diff of the first and the last Prometheus snapshot. */
  function DiffOf(ps: seq<PromSnapshot>): PrometheusClient.MetricsDiff
    requires |ps| > 0
  {
    PrometheusClient.CalculateDiff(ps[0].state, ps[0].timestamp, ps[|ps| - 1].state, ps[|ps| - 1].timestamp)
  }

  /** `generateReport` on the snapshots and times the manager holds. */
  function ReportOf(ps: seq<PromSnapshot>, ss: seq<SystemSnapshot>, start: int, end: int): Report {
    Report(start, end, end - start,
           |ps| >= 2, DiffSection(ps), if |ps| >= 2 then ps else [],
           |ss| >= 2, SummarySection(ss), if |ss| >= 2 then ss else [],
           Insights(DiffSection(ps), SummarySection(ss)))
  }

  /** The diff a report carries: none below two snapshots. */
  function DiffSection(ps: seq<PromSnapshot>): Option<PrometheusClient.MetricsDiff> {
    if |ps| >= 2 then Some(DiffOf(ps)) else None
  }

  /** The summary a report carries: none below two snapshots. */
  function SummarySection(ss: seq<SystemSnapshot>): Option<Summary> {
    if |ss| >= 2 then SummaryOf(ss) else None
  }

  /** The Prometheus section appears only with two snapshots or more, and
      its diff runs from the first snapshot to the last. */
  lemma PrometheusSection(ps: seq<PromSnapshot>, ss: seq<SystemSnapshot>, start: int, end: int)
    ensures var r := ReportOf(ps, ss, start, end);
      && (r.prometheusAvailable <==> |ps| >= 2)
      && (r.prometheusDiff.Some? <==> |ps| >= 2)
      && (|ps| >= 2 ==>
            && r.prometheusSnapshots == ps
            && r.prometheusDiff.value.startTime == ps[0].timestamp
            && r.prometheusDiff.value.endTime == ps[|ps| - 1].timestamp)
      && (|ps| < 2 ==> r.prometheusSnapshots == [])
      && r.duration == end - start
  {
    if |ps| >= 2 {
      var d := DiffOf(ps);
      assert d.startTime == ps[0].timestamp && d.endTime == ps[|ps| - 1].timestamp;
    }
  }

  /** The system section appears only with two snapshots or more, and then
      summarises every one of them. */
  lemma SystemSection(ps: seq<PromSnapshot>, ss: seq<SystemSnapshot>, start: int, end: int)
    ensures var r := ReportOf(ps, ss, start, end);
      && (r.systemAvailable <==> |ss| >= 2)
      && (r.systemSummary.Some? <==> |ss| >= 2)
      && (|ss| >= 2 ==> r.systemSnapshots == ss && r.systemSummary == SummaryOf(ss))
      && (|ss| < 2 ==> r.systemSnapshots == [])
  {
  }

  /** With fewer than two snapshots of each kind the report has no insight. */
  lemma QuietReport(ps: seq<PromSnapshot>, ss: seq<SystemSnapshot>, start: int, end: int)
    requires |ps| < 2 && |ss| < 2
    ensures ReportOf(ps, ss, start, end).insights == []
  {
  }

  // ---------------------------------------------------------------------
  // The manager

  /** `MonitoringManager`: which sources are enabled (whether the client
      and the system monitor exist), the snapshots taken, and the times the
      run started and stopped. */
  class MonitoringManager {
    const prometheusEnabled: bool
    const systemEnabled: bool
    const outputDir: string
    var prometheusSnapshots: seq<PromSnapshot>
    var systemSnapshots: seq<SystemSnapshot>
    var startTime: int
    var endTime: int

    /** `NewMonitoringManager`: no snapshot yet (creating the output
        directory is not modelled). */
    constructor (enablePrometheus: bool, enableSystemMonitor: bool, dir: string)
      ensures prometheusEnabled == enablePrometheus && systemEnabled == enableSystemMonitor
      ensures outputDir == dir
      ensures prometheusSnapshots == [] && systemSnapshots == []
    {
      prometheusEnabled := enablePrometheus;
      systemEnabled := enableSystemMonitor;
      outputDir := dir;
      prometheusSnapshots := [];
      systemSnapshots := [];
      startTime := 0;
      endTime := 0;
    }

    /** One round of snapshots: each source that exists is asked once, the
        Prometheus client first, and its snapshot kept only when the attempt
        succeeded; a panicking collection is reported as a crash. */
    method TakeSnapshots(scrape: Scrape, collection: Collection) returns (crashed: bool)
      modifies this`prometheusSnapshots, this`systemSnapshots
      ensures crashed <==> Crashes(systemEnabled, collection)
      ensures prometheusSnapshots == Appended(old(prometheusSnapshots), prometheusEnabled, scrape)
      ensures systemSnapshots == Appended(old(systemSnapshots), systemEnabled, collection)
    {
      crashed := false;
      if prometheusEnabled {
        if scrape.Ok? {
          prometheusSnapshots := prometheusSnapshots + [scrape.value];
        }
      }
      if systemEnabled {
        if collection.Ok? {
          systemSnapshots := systemSnapshots + [collection.value];
        } else if collection.error == SystemMonitor.Panicked {
          crashed := true;
        }
      }
    }

    /** `StartMonitoring`: stamps the start and takes the first snapshots;
        it returns no error, unless the first collection crashes, in which
        case the call never returns to its caller. */
    method StartMonitoring(now: int, scrape: Scrape, collection: Collection) returns (err: Option<string>, crashed: bool)
      modifies this`startTime, this`prometheusSnapshots, this`systemSnapshots
      ensures crashed <==> Crashes(systemEnabled, collection)
      ensures err == None && startTime == now
      ensures prometheusSnapshots == Appended(old(prometheusSnapshots), prometheusEnabled, scrape)
      ensures systemSnapshots == Appended(old(systemSnapshots), systemEnabled, collection)
    {
      startTime := now;
      crashed := TakeSnapshots(scrape, collection);
      err := None;
    }

    /** `periodicCollection`: one round per tick until the context ends or
        a collection crashes; the slices keep, in order, exactly the
        successful attempts of the ticks that ran, the crashing tick's
        scrape included since it comes first. */
    method PeriodicCollection(scrapes: seq<Scrape>, collections: seq<Collection>) returns (crashed: bool)
      requires |scrapes| == |collections|
      modifies this`prometheusSnapshots, this`systemSnapshots
      ensures crashed <==> FirstCrash(systemEnabled, collections) < |collections|
      ensures var n := TicksRun(systemEnabled, collections);
        prometheusSnapshots == old(prometheusSnapshots) + Successes(prometheusEnabled, scrapes[..n])
      ensures var n := TicksRun(systemEnabled, collections);
        systemSnapshots == old(systemSnapshots) + Successes(systemEnabled, collections[..n])
    {
      var i := 0;
      crashed := false;
      while i < |scrapes| && !crashed
        invariant 0 <= i <= |scrapes|
        invariant !crashed ==> i <= FirstCrash(systemEnabled, collections)
        invariant crashed ==> i == FirstCrash(systemEnabled, collections) + 1
        invariant prometheusSnapshots == old(prometheusSnapshots) + Successes(prometheusEnabled, scrapes[..i])
        invariant systemSnapshots == old(systemSnapshots) + Successes(systemEnabled, collections[..i])
      {
        SuccessesStep(old(prometheusSnapshots), prometheusEnabled, scrapes, i);
        SuccessesStep(old(systemSnapshots), systemEnabled, collections, i);
        crashed := TakeSnapshots(scrapes[i], collections[i]);
        i := i + 1;
      }
      assert i == TicksRun(systemEnabled, collections);
    }

    /** `calculateSystemSummary`: one pass accumulating sums and peaks,
        then each sum divided by the count. */
    method CalculateSystemSummary() returns (summary: Option<Summary>)
      ensures summary == SummaryOf(systemSnapshots)
    {
      var xs := systemSnapshots;
      if |xs| == 0 {
        return None;
      }
      var s := Summary(0.0, 0.0, 0.0, 0.0, 0.0, 0.0, 0, 0.0);
      var count := |xs| as real;
      for i := 0 to |xs|
        invariant s.avgCPUUsagePercent == SumOf(xs[..i], CPU)
        invariant s.avgMemoryUsageMB == SumOf(xs[..i], UsedMemory)
        invariant s.avgMemoryUsagePercent == SumOf(xs[..i], MemoryPercent)
        invariant s.avgTCPConnections == SumOf(xs[..i], Connections)
        invariant s.avgLoadAverage1Min == SumOf(xs[..i], Load1)
        invariant s.peakCPUUsagePercent == PeakOf(xs[..i], CPU)
        invariant s.peakMemoryUsageMB == PeakOf(xs[..i], UsedMemory)
        invariant s.peakTCPConnections == PeakConnections(xs[..i])
      {
        assert xs[..i + 1][..i] == xs[..i];
        var snapshot := xs[i];
        s := s.(avgCPUUsagePercent := s.avgCPUUsagePercent + snapshot.cpuUsagePercent,
                avgMemoryUsageMB := s.avgMemoryUsageMB + snapshot.usedMemoryMB,
                avgMemoryUsagePercent := s.avgMemoryUsagePercent + snapshot.memoryUsagePercent,
                avgTCPConnections := s.avgTCPConnections + snapshot.tcpEstablished as real,
                avgLoadAverage1Min := s.avgLoadAverage1Min + snapshot.loadAverage1Min);
        if snapshot.cpuUsagePercent > s.peakCPUUsagePercent {
          s := s.(peakCPUUsagePercent := snapshot.cpuUsagePercent);
        }
        if snapshot.usedMemoryMB > s.peakMemoryUsageMB {
          s := s.(peakMemoryUsageMB := snapshot.usedMemoryMB);
        }
        if snapshot.tcpEstablished > s.peakTCPConnections {
          s := s.(peakTCPConnections := snapshot.tcpEstablished);
        }
      }
      assert xs[..|xs|] == xs;
      s := s.(avgCPUUsagePercent := s.avgCPUUsagePercent / count,
              avgMemoryUsageMB := s.avgMemoryUsageMB / count,
              avgMemoryUsagePercent := s.avgMemoryUsagePercent / count,
              avgTCPConnections := s.avgTCPConnections / count,
              avgLoadAverage1Min := s.avgLoadAverage1Min / count);
      return Some(s);
    }

    /** `generateReport`: the sections that have two snapshots or more, and
        their insights appended one by one. */
    method GenerateReport() returns (report: Report)
      ensures report == ReportOf(prometheusSnapshots, systemSnapshots, startTime, endTime)
    {
      var diff, proms, insights := PrometheusPart([]);
      var summary, systems, allInsights := SystemPart(insights);
      assert allInsights == Insights(diff, summary);
      report := Report(startTime, endTime, endTime - startTime,
                       |prometheusSnapshots| >= 2, diff, proms,
                       |systemSnapshots| >= 2, summary, systems, allInsights);
    }

    /** The Prometheus part of `generateReport`. */
    method PrometheusPart(before: seq<Insight>)
      returns (diff: Option<PrometheusClient.MetricsDiff>, proms: seq<PromSnapshot>, insights: seq<Insight>)
      ensures diff == DiffSection(prometheusSnapshots)
      ensures proms == if |prometheusSnapshots| >= 2 then prometheusSnapshots else []
      ensures insights == before + if diff.Some? then DiffInsights(diff.value) else []
    {
      insights := before;
      diff := None;
      proms := [];
      if |prometheusSnapshots| >= 2 {
        var first := prometheusSnapshots[0];
        var last := prometheusSnapshots[|prometheusSnapshots| - 1];
        var d := PrometheusClient.CalculateDiff(first.state, first.timestamp, last.state, last.timestamp);
        diff := Some(d);
        proms := prometheusSnapshots;
        if d.httpErrorRatePercent > 5.0 {
          insights := insights + [HighErrorRate(d.httpErrorRatePercent)];
        }
        if d.avgCPUUsagePercent > 80.0 {
          insights := insights + [HighCPU(d.avgCPUUsagePercent)];
        }
        if d.avgMemoryUsageMB > 1024.0 {
          insights := insights + [HighMemory(d.avgMemoryUsageMB)];
        }
      }
    }

    /** The system part of `generateReport`. */
    method SystemPart(before: seq<Insight>)
      returns (summary: Option<Summary>, systems: seq<SystemSnapshot>, insights: seq<Insight>)
      ensures summary == SummarySection(systemSnapshots)
      ensures systems == if |systemSnapshots| >= 2 then systemSnapshots else []
      ensures insights == before + if summary.Some? then SummaryInsights(summary.value) else []
    {
      insights := before;
      summary := None;
      systems := [];
      if |systemSnapshots| >= 2 {
        summary := CalculateSystemSummary();
        systems := systemSnapshots;
        var s := summary.value;
        if s.peakCPUUsagePercent > 90.0 {
          insights := insights + [CPUPeak(s.peakCPUUsagePercent)];
        }
        if s.avgMemoryUsagePercent > 85.0 {
          insights := insights + [MemoryPressure(s.avgMemoryUsagePercent)];
        }
        if s.peakTCPConnections > 1000 {
          insights := insights + [ManyConnections(s.peakTCPConnections)];
        }
      }
    }

    /** `StopMonitoring`: stamps the end, takes the last snapshots and
        builds the report; when there is an output directory and saving the
        report fails, that error is returned with the report.  When the
        last collection crashes the call never returns, which the model
        reports as `crashed`, and no save is attempted. */
    method StopMonitoring(now: int, scrape: Scrape, collection: Collection, saveError: Option<string>)
      returns (report: Report, err: Option<string>, crashed: bool)
      modifies this`endTime, this`prometheusSnapshots, this`systemSnapshots
      ensures crashed <==> Crashes(systemEnabled, collection)
      ensures endTime == now
      ensures prometheusSnapshots == Appended(old(prometheusSnapshots), prometheusEnabled, scrape)
      ensures systemSnapshots == Appended(old(systemSnapshots), systemEnabled, collection)
      ensures report == ReportOf(prometheusSnapshots, systemSnapshots, startTime, now)
      ensures err == if !crashed && outputDir != "" && saveError.Some? then Some("failed to save report: " + saveError.value) else None
    {
      endTime := now;
      crashed := TakeSnapshots(scrape, collection);
      report := GenerateReport();
      err := None;
      if !crashed && outputDir != "" {
        if saveError.Some? {
          err := Some("failed to save report: " + saveError.value);
        }
      }
    }
  }
}
