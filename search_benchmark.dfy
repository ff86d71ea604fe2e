/**
  benchmark/search_benchmark.go: the per-strategy benchmark statistics, the
  nearest-rank percentile over a sorted copy of the sample, the collection of
  results by strategy name and the choice of the best strategies.

  A search strategy is represented by what running it produced: whether its
  database setup succeeded, how long setup took and, for each benchmark
  iteration, whether the query failed, how long it took and how many mails
  it returned. Durations are nanosecond counts, as `time.Duration` is.
*/
module SearchBenchmark {
  import opened Wrappers
  import opened Durations

  predicate Sorted(s: seq<int>) {
    forall p, q :: 0 <= p < q < |s| ==> s[p] <= s[q]
  }

  /** Inserts `x` into a sorted sequence. */
  function Insert(x: int, s: seq<int>): (r: seq<int>)
    requires Sorted(s)
    ensures Sorted(r) && multiset(r) == multiset(s) + multiset{x}
    ensures |r| > 0 && (r[0] == x || (|s| > 0 && r[0] == s[0]))
  {
    if |s| == 0 then [x]
    else if x <= s[0] then [x] + s
    else
      var t := Insert(x, s[1..]);
      assert s == [s[0]] + s[1..];
      assert s[0] <= t[0];
      [s[0]] + t
  }

  /** The ascending arrangement of a sample. */
  function SortSeq(s: seq<int>): (r: seq<int>)
    ensures Sorted(r) && multiset(r) == multiset(s)
  {
    if |s| == 0 then []
    else
      assert s == [s[0]] + s[1..];
      Insert(s[0], SortSeq(s[1..]))
  }

  /** The first value of a sorted sequence is its least. */
  lemma SortedHeadIsLeast(a: seq<int>, x: int)
    requires Sorted(a) && x in multiset(a)
    ensures |a| > 0 && a[0] <= x
  {
    var k :| 0 <= k < |a| && a[k] == x;
  }

  lemma SortedTail(a: seq<int>)
    requires Sorted(a) && |a| > 0
    ensures Sorted(a[1..]) && multiset(a[1..]) == multiset(a) - multiset{a[0]}
  {
    assert a == [a[0]] + a[1..];
  }

  /** Two ascending arrangements of one sample start alike, and what
      follows is again an arrangement of one sample. */
  lemma SortedHeads(a: seq<int>, b: seq<int>)
    requires Sorted(a) && Sorted(b) && multiset(a) == multiset(b) && |a| > 0
    ensures |b| > 0 && a[0] == b[0]
    ensures Sorted(a[1..]) && Sorted(b[1..]) && multiset(a[1..]) == multiset(b[1..])
  {
    assert a[0] in multiset(a);
    assert b[0] in multiset(b) by {
      assert |b| == |multiset(b)| > 0;
    }
    SortedHeadIsLeast(a, b[0]);
    SortedHeadIsLeast(b, a[0]);
    SortedTail(a);
    SortedTail(b);
  }

  /** A sample has only one ascending arrangement. */
  lemma {:induction false} SortedUnique(a: seq<int>, b: seq<int>)
    requires Sorted(a) && Sorted(b) && multiset(a) == multiset(b)
    ensures a == b
  {
    if |a| == 0 {
      assert |b| == |multiset(b)| == 0;
    } else {
      SortedHeads(a, b);
      SortedUnique(a[1..], b[1..]);
      assert a == [a[0]] + a[1..] && b == [b[0]] + b[1..];
    }
  }

  /** The nearest-rank index: `len * p / 100` with Go's division, clamped to
      the last position. */
  function PercentileIndex(n: nat, p: int): (k: int)
    requires n > 0 && n * p > -100
    ensures 0 <= k < n
  {
    var k := GoDiv(n * p, 100);
    if k >= n then n - 1 else k
  }

  /** `calculatePercentile`, as a function of the sample. A sample and
      percentile with `len * p <= -100` would index the slice at a negative
      position, so the source cannot be called with them. */
  function Percentile(s: seq<int>, p: int): (r: int)
    requires |s| == 0 || |s| * p > -100
    ensures |s| == 0 ==> r == 0
  {
    if |s| == 0 then 0 else SortSeq(s)[PercentileIndex(|s|, p)]
  }

  /** A percentile of a non-empty sample is one of its values. */
  lemma PercentileInSample(s: seq<int>, p: int)
    requires |s| > 0 && |s| * p > -100
    ensures Percentile(s, p) in s
  {
    var t := SortSeq(s);
    assert t[PercentileIndex(|s|, p)] in multiset(t);
  }

  /** The 100th percentile is the largest value. */
  lemma PercentileHundredIsMax(s: seq<int>)
    requires |s| > 0
    ensures Percentile(s, 100) in s
    ensures forall x :: x in s ==> x <= Percentile(s, 100)
  {
    PercentileInSample(s, 100);
    var t := SortSeq(s);
    assert PercentileIndex(|s|, 100) == |s| - 1;
    forall x | x in s ensures x <= Percentile(s, 100) {
      assert x in multiset(t);
      var k :| 0 <= k < |t| && t[k] == x;
    }
  }

  lemma MulMonotone(n: nat, p: int, q: int)
    requires p <= q
    ensures n * p <= n * q
  {
  }

  /** A higher percentile never reads an earlier position. */
  lemma PercentileIndexMonotone(n: nat, p: int, q: int)
    requires n > 0 && n * p > -100 && p <= q
    ensures n * q > -100 && PercentileIndex(n, p) <= PercentileIndex(n, q)
  {
    MulMonotone(n, p, q);
  }

  /** A higher percentile is never a smaller value. */
  lemma PercentileMonotone(s: seq<int>, p: int, q: int)
    requires |s| > 0 && |s| * p > -100 && p <= q
    ensures |s| * q > -100 && Percentile(s, p) <= Percentile(s, q)
  {
    PercentileIndexMonotone(|s|, p, q);
    var t := SortSeq(s);
    assert t[PercentileIndex(|s|, p)] <= t[PercentileIndex(|s|, q)];
  }

  /** A one-element sample gives that element at every percentile. */
  lemma PercentileSingleton(x: int, p: int)
    requires p > -100
    ensures Percentile([x], p) == x
  {
    assert SortSeq([x]) == [x];
  }

  /** One pass of the inner loop of the exchange sort: the smallest value of
      `a[i..]` ends at `a[i]`; values only move within `a[i..]`. */
  method ExchangePass(a: array<int>, i: nat, ghost lo: int)
    requires i < a.Length
    requires forall m :: i <= m < a.Length ==> lo <= a[m]
    modifies a
    ensures forall m :: i < m < a.Length ==> a[i] <= a[m]
    ensures forall m :: i <= m < a.Length ==> lo <= a[m]
    ensures a[..i] == old(a[..i])
    ensures multiset(a[..]) == multiset(old(a[..]))
  {
    var j := i + 1;
    while j < a.Length
      invariant i + 1 <= j <= a.Length
      invariant forall m :: i < m < j ==> a[i] <= a[m]
      invariant forall m :: i <= m < a.Length ==> lo <= a[m]
      invariant a[..i] == old(a[..i])
      invariant multiset(a[..]) == multiset(old(a[..]))
    {
      if a[i] > a[j] {
        a[i], a[j] := a[j], a[i];
      }
      j := j + 1;
    }
  }

  /** The nested-loop exchange sort of `calculatePercentile`. */
  method ExchangeSort(a: array<int>)
    modifies a
    ensures Sorted(a[..]) && multiset(a[..]) == multiset(old(a[..]))
  {
    var i := 0;
    while i < a.Length
      invariant 0 <= i <= a.Length
      invariant Sorted(a[..i])
      invariant 0 < i ==> forall m :: i <= m < a.Length ==> a[i - 1] <= a[m]
      invariant multiset(a[..]) == multiset(old(a[..]))
    {
      ghost var lo := if i == 0 then MinFrom(a[0], a[..]) else a[i - 1];
      MinFromIsMin(a[0], a[..]);
      ExchangePass(a, i, lo);
      i := i + 1;
    }
    assert a[..i] == a[..];
  }

  /** `calculatePercentile`: sorts a fresh copy of the sample and reads the
      nearest-rank position; the caller's sample is a value and stays as it was. */
  method CalculatePercentile(durations: seq<int>, percentile: int) returns (r: int)
    requires |durations| == 0 || |durations| * percentile > -100
    ensures r == Percentile(durations, percentile)
  {
    if |durations| == 0 {
      return 0;
    }
    var sorted := new int[|durations|](k requires 0 <= k < |durations| => durations[k]);
    assert sorted[..] == durations;
    ExchangeSort(sorted);
    SortedUnique(sorted[..], SortSeq(durations));
    var index := GoDiv(|durations| * percentile, 100);
    if index >= sorted.Length {
      index := sorted.Length - 1;
    }
    r := sorted[index];
  }

  /** The outcome of one benchmark query. */
  datatype QueryOutcome =
    | QueryFailed(duration: nat)
    | QuerySucceeded(duration: nat, mails: nat)

  /** A search strategy, as seen through one benchmark run. */
  datatype StrategyRun = StrategyRun(
    name: string,
    description: string,
    setupError: Option<string>,
    setupDuration: nat,
    queries: seq<QueryOutcome>)

  /** `SearchBenchmarkResult`. */
  datatype BenchmarkResult = BenchmarkResult(
    strategyName: string,
    description: string,
    setupDuration: int,
    avgDuration: int,
    minDuration: int,
    maxDuration: int,
    p50Duration: int,
    p95Duration: int,
    p99Duration: int,
    totalQueries: int,
    successQueries: int,
    failedQueries: int,
    totalResults: int,
    avgResults: real)

  /** The error `benchmarkStrategy` returns when setting up fails: the
      setup error wrapped with a "setup failed: " prefix. */
  function SetupFailed(cause: string): (e: string)
    ensures |e| == |SetupFailedPrefix| + |cause| && e[..|SetupFailedPrefix|] == SetupFailedPrefix
    ensures e[|SetupFailedPrefix|..] == cause
  {
    SetupFailedPrefix + cause
  }

  const SetupFailedPrefix: string := "setup failed: "

  /** The durations of the successful queries, in query order. */
  function SuccessDurations(qs: seq<QueryOutcome>): (ds: seq<int>)
    ensures |ds| <= |qs| && forall k :: 0 <= k < |ds| ==> ds[k] >= 0
  {
    if |qs| == 0 then []
    else
      var prev := SuccessDurations(qs[..|qs| - 1]);
      match qs[|qs| - 1]
      case QuerySucceeded(d, _) => prev + [d]
      case QueryFailed(_) => prev
  }

  function FailedCount(qs: seq<QueryOutcome>): nat {
    if |qs| == 0 then 0
    else FailedCount(qs[..|qs| - 1]) + (if qs[|qs| - 1].QueryFailed? then 1 else 0)
  }

  /** The number of mails the successful queries returned. */
  function ResultCount(qs: seq<QueryOutcome>): nat {
    if |qs| == 0 then 0
    else
      ResultCount(qs[..|qs| - 1]) + (match qs[|qs| - 1] case QuerySucceeded(_, n) => n case QueryFailed(_) => 0)
  }

  /** What `benchmarkStrategy` returns for a strategy run. */
  function StrategyResult(s: StrategyRun): Result<BenchmarkResult, string> {
    if s.setupError.Some? then Err(SetupFailed(s.setupError.value))
    else
      var ds := SuccessDurations(s.queries);
      var n := |ds|;
      var total := ResultCount(s.queries);
      Ok(BenchmarkResult(
        s.name, s.description, s.setupDuration,
        if n > 0 then GoDiv(Sum(ds), n) else 0,
        MinFrom(Hour, ds), MaxFrom(0, ds),
        Percentile(ds, 50), Percentile(ds, 95), Percentile(ds, 99),
        |s.queries|, n, FailedCount(s.queries),
        total, if n > 0 then total as real / n as real else 0.0))
  }

  /** Every query is counted once, as a success or as a failure. */
  lemma {:induction false} QueriesPartition(qs: seq<QueryOutcome>)
    ensures |SuccessDurations(qs)| + FailedCount(qs) == |qs|
  {
    if |qs| > 0 {
      QueriesPartition(qs[..|qs| - 1]);
    }
  }

  /** Failed queries add nothing to the sample or the mail count. */
  lemma FailureAddsNothing(qs: seq<QueryOutcome>, d: nat)
    ensures SuccessDurations(qs + [QueryFailed(d)]) == SuccessDurations(qs)
    ensures ResultCount(qs + [QueryFailed(d)]) == ResultCount(qs)
    ensures FailedCount(qs + [QueryFailed(d)]) == FailedCount(qs) + 1
  {
    assert (qs + [QueryFailed(d)])[..|qs|] == qs;
  }

  /** A successful benchmark result: the counts add up, the statistics come
      from the successful queries only, and they are ordered
      min <= p50 <= p95 <= p99 <= max with the average between min and max. */
  lemma StrategyResultFacts(s: StrategyRun)
    requires s.setupError.None?
    ensures StrategyResult(s).Ok?
    ensures var r := StrategyResult(s).value;
      && r.strategyName == s.name
      && r.totalQueries == |s.queries| == r.successQueries + r.failedQueries
      && r.successQueries == |SuccessDurations(s.queries)|
      && r.minDuration <= Hour && r.maxDuration >= 0
      && (r.successQueries == 0 ==>
            r.avgDuration == 0 && r.avgResults == 0.0 && r.minDuration == Hour && r.maxDuration == 0
            && r.p50Duration == 0 && r.p95Duration == 0 && r.p99Duration == 0)
      && (r.successQueries > 0 ==>
            && r.minDuration <= r.p50Duration <= r.p95Duration <= r.p99Duration <= r.maxDuration
            && r.minDuration <= r.avgDuration <= r.maxDuration)
  {
    QueriesPartition(s.queries);
    var ds := SuccessDurations(s.queries);
    MinMaxBounds(Hour, ds);
    MinMaxBounds(0, ds);
    if |ds| > 0 {
      var mn, mx := MinFrom(Hour, ds), MaxFrom(0, ds);
      PercentileMonotone(ds, 50, 95);
      PercentileMonotone(ds, 95, 99);
      PercentileInSample(ds, 50);
      PercentileInSample(ds, 99);
      SumBounds(ds, mn, mx);
      SumBounds(ds, 0, mx);
      QuotientBounds(Sum(ds), |ds|, mn, mx);
    }
  }

  /** How one more query changes the tallies. */
  lemma TallyStep(qs: seq<QueryOutcome>, i: int)
    requires 0 <= i < |qs|
    ensures SuccessDurations(qs[..i + 1]) ==
      SuccessDurations(qs[..i]) + (if qs[i].QuerySucceeded? then [qs[i].duration as int] else [])
    ensures FailedCount(qs[..i + 1]) == FailedCount(qs[..i]) + (if qs[i].QueryFailed? then 1 else 0)
    ensures ResultCount(qs[..i + 1]) == ResultCount(qs[..i]) + (if qs[i].QuerySucceeded? then qs[i].mails else 0)
  {
    assert qs[..i + 1][..i] == qs[..i];
  }

  /** The iteration loop of `benchmarkStrategy`: counts the queries and keeps
      the durations, the mail count and the extreme durations of the
      successful ones. */
  method TallyQueries(qs: seq<QueryOutcome>)
    returns (totalQueries: int, successQueries: int, failedQueries: int, totalResults: int,
             minDuration: int, maxDuration: int, durations: seq<int>)
    ensures totalQueries == |qs|
    ensures durations == SuccessDurations(qs) && successQueries == |durations|
    ensures failedQueries == FailedCount(qs) && totalResults == ResultCount(qs)
    ensures minDuration == MinFrom(Hour, durations) && maxDuration == MaxFrom(0, durations)
  {
    totalQueries, successQueries, failedQueries, totalResults := 0, 0, 0, 0;
    minDuration, maxDuration := Hour, 0;
    durations := [];
    var i := 0;
    while i < |qs|
      invariant 0 <= i <= |qs|
      invariant totalQueries == i
      invariant durations == SuccessDurations(qs[..i]) && successQueries == |durations|
      invariant failedQueries == FailedCount(qs[..i])
      invariant totalResults == ResultCount(qs[..i])
      invariant IsMinFrom(Hour, durations, minDuration) && IsMaxFrom(0, durations, maxDuration)
    {
      TallyStep(qs, i);
      totalQueries := totalQueries + 1;
      var q := qs[i];
      if q.QueryFailed? {
        failedQueries := failedQueries + 1;
      } else {
        successQueries := successQueries + 1;
        totalResults := totalResults + q.mails;
        durations := durations + [q.duration];
        if q.duration < minDuration {
          minDuration := q.duration;
        }
        if q.duration > maxDuration {
          maxDuration := q.duration;
        }
      }
      i := i + 1;
    }
    assert qs[..i] == qs;
    MinFromUnique(Hour, durations, minDuration);
    MaxFromUnique(0, durations, maxDuration);
  }

  /** The summing loop of `benchmarkStrategy`. */
  method TotalDuration(durations: seq<int>) returns (totalDuration: int)
    ensures totalDuration == Sum(durations)
  {
    totalDuration := 0;
    var k := 0;
    while k < |durations|
      invariant 0 <= k <= |durations|
      invariant totalDuration == Sum(durations[..k])
    {
      assert durations[..k + 1][..k] == durations[..k];
      totalDuration := totalDuration + durations[k];
      k := k + 1;
    }
    assert durations[..k] == durations;
  }

  /** `benchmarkStrategy`: a failed setup is an error; otherwise the queries
      are run and the statistics derived from the successful ones. */
  method BenchmarkStrategy(s: StrategyRun) returns (r: Result<BenchmarkResult, string>)
    ensures r == StrategyResult(s)
  {
    if s.setupError.Some? {
      return Err(SetupFailed(s.setupError.value));
    }
    var totalQueries, successQueries, failedQueries, totalResults, minDuration, maxDuration, durations
      := TallyQueries(s.queries);

    var avgDuration := 0;
    var avgResults := 0.0;
    if successQueries > 0 {
      var totalDuration := TotalDuration(durations);
      avgDuration := GoDiv(totalDuration, successQueries);
      avgResults := totalResults as real / successQueries as real;
    }

    var p50, p95, p99 := 0, 0, 0;
    if |durations| > 0 {
      p50 := CalculatePercentile(durations, 50);
      p95 := CalculatePercentile(durations, 95);
      p99 := CalculatePercentile(durations, 99);
    }

    r := Ok(BenchmarkResult(
      s.name, s.description, s.setupDuration, avgDuration, minDuration, maxDuration,
      p50, p95, p99, totalQueries, successQueries, failedQueries, totalResults, avgResults));
  }

  /** Each strategy's name beside what benchmarking it gives. */
  function Outcomes(ss: seq<StrategyRun>): (os: seq<(string, Result<BenchmarkResult, string>)>)
    ensures |os| == |ss| && forall i :: 0 <= i < |ss| ==> os[i] == (ss[i].name, StrategyResult(ss[i]))
  {
    seq(|ss|, i requires 0 <= i < |ss| => (ss[i].name, StrategyResult(ss[i])))
  }

  /** The map `Run` builds from the outcomes, in order: every successful
      result under its name, a later one replacing an earlier one. */
  function Collect(os: seq<(string, Result<BenchmarkResult, string>)>): map<string, BenchmarkResult> {
    if |os| == 0 then map[]
    else
      var prev := Collect(os[..|os| - 1]);
      var (name, r) := os[|os| - 1];
      if r.Ok? then prev[name := r.value] else prev
  }

  /** `os[i]` is the last successful outcome named `name`. */
  predicate LastOk(os: seq<(string, Result<BenchmarkResult, string>)>, name: string, i: int) {
    && 0 <= i < |os| && os[i].0 == name && os[i].1.Ok?
    && forall j :: i < j < |os| && os[j].0 == name ==> !os[j].1.Ok?
  }

  /** The collected map holds exactly the names with a successful outcome. */
  lemma {:induction false} CollectKeys(os: seq<(string, Result<BenchmarkResult, string>)>, name: string)
    ensures name in Collect(os) <==> exists i :: 0 <= i < |os| && os[i].0 == name && os[i].1.Ok?
  {
    if |os| > 0 {
      var init := os[..|os| - 1];
      CollectKeys(init, name);
      assert forall i :: 0 <= i < |init| ==> init[i] == os[i];
    }
  }

  /** Under each name the collected map holds the last successful outcome
      of that name. */
  lemma {:induction false} CollectValues(os: seq<(string, Result<BenchmarkResult, string>)>, name: string)
    requires name in Collect(os)
    ensures exists i :: LastOk(os, name, i) && Ok(Collect(os)[name]) == os[i].1
  {
    var init := os[..|os| - 1];
    var last := os[|os| - 1];
    if last.0 == name && last.1.Ok? {
      assert LastOk(os, name, |os| - 1);
    } else {
      assert name in Collect(init) && Collect(os)[name] == Collect(init)[name];
      CollectValues(init, name);
      var i :| LastOk(init, name, i) && Ok(Collect(init)[name]) == init[i].1;
      forall j | i < j < |os| && os[j].0 == name ensures !os[j].1.Ok? {
        if j < |init| {
          assert os[j] == init[j];
        }
      }
      assert init[i] == os[i];
      assert LastOk(os, name, i);
    }
  }

  /** Benchmarking fails exactly for a strategy whose setup failed, with
      the setup error behind a "setup failed: " prefix, and names its
      result after the strategy. */
  lemma StrategyResultOk(s: StrategyRun)
    ensures StrategyResult(s).Ok? <==> s.setupError.None?
    ensures StrategyResult(s).Ok? ==> StrategyResult(s).value.strategyName == s.name
    ensures StrategyResult(s).Err? ==> StrategyResult(s).error == SetupFailed(s.setupError.value)
    ensures StrategyResult(s).Err? ==>
      && StrategyResult(s).error[..|SetupFailedPrefix|] == SetupFailedPrefix
      && StrategyResult(s).error[|SetupFailedPrefix|..] == s.setupError.value
  {
  }

  /** `Run`'s map holds exactly the strategies whose setup succeeded, each
      under its name, with the result of the last such strategy of that name. */
  lemma RunResultsContents(ss: seq<StrategyRun>, name: string)
    ensures name in Collect(Outcomes(ss)) <==> exists i :: 0 <= i < |ss| && ss[i].name == name && ss[i].setupError.None?
    ensures name in Collect(Outcomes(ss)) ==> exists i ::
      && 0 <= i < |ss| && ss[i].name == name && ss[i].setupError.None?
      && (forall j :: i < j < |ss| && ss[j].name == name ==> ss[j].setupError.Some?)
      && Ok(Collect(Outcomes(ss))[name]) == StrategyResult(ss[i])
  {
    var os := Outcomes(ss);
    forall i | 0 <= i < |ss| ensures os[i].1.Ok? <==> ss[i].setupError.None? {
      StrategyResultOk(ss[i]);
    }
    CollectKeys(os, name);
    if name in Collect(os) {
      CollectValues(os, name);
      var i :| LastOk(os, name, i) && Ok(Collect(os)[name]) == os[i].1;
      assert ss[i].name == name && ss[i].setupError.None?;
    }
  }

  /** `Run`: benchmarks every strategy in order and keeps those that set up. */
  method Run(strategies: seq<StrategyRun>) returns (results: map<string, BenchmarkResult>)
    ensures results == Collect(Outcomes(strategies))
  {
    ghost var os := Outcomes(strategies);
    results := map[];
    var i := 0;
    while i < |strategies|
      invariant 0 <= i <= |strategies|
      invariant results == Collect(os[..i])
    {
      assert os[..i + 1][..i] == os[..i];
      var strategy := strategies[i];
      var result := BenchmarkStrategy(strategy);
      if result.Ok? {
        results := results[strategy.name := result.value];
      }
      i := i + 1;
    }
    assert os[..i] == os;
  }

  /** The best performers `GenerateComparisonReport` names. */
  datatype Ranking = Ranking(
    fastestAvg: string, minAvg: int,
    fastestP99: string, minP99: int,
    mostReliable: string, maxSuccess: real)

  /** The counters of a result returned by `benchmarkStrategy`. */
  predicate WellFormed(r: BenchmarkResult) {
    0 <= r.successQueries <= r.totalQueries
  }

  /** Only strategies with a successful query take part in the ranking. */
  predicate Competes(r: BenchmarkResult) {
    r.successQueries > 0
  }

  function SuccessRate(r: BenchmarkResult): real
    requires WellFormed(r) && Competes(r)
  {
    r.successQueries as real / r.totalQueries as real
  }

  /** The two latency figures the ranking compares. */
  datatype Latency = Average | Tail

  function LatencyOf(r: BenchmarkResult, c: Latency): int {
    match c
    case Average => r.avgDuration
    case Tail => r.p99Duration
  }

  /** After the first `i` entries: `at` is the first competing entry with the
      least latency `c`, provided it is below an hour, and `name` and `value`
      are its name and latency; with no such entry `at` is -1 and the name
      and value keep their initial "" and one hour. */
  predicate FastestSoFar(entries: seq<(string, BenchmarkResult)>, c: Latency, i: int,
                         name: string, value: int, at: int) {
    && 0 <= i <= |entries|
    && (at == -1 ==> name == "" && value == Hour)
    && (at != -1 ==>
          && 0 <= at < i && Competes(entries[at].1)
          && name == entries[at].0 && value == LatencyOf(entries[at].1, c) < Hour
          && forall k :: 0 <= k < at && Competes(entries[k].1) ==> LatencyOf(entries[k].1, c) > value)
    && forall k :: 0 <= k < i && Competes(entries[k].1) ==> LatencyOf(entries[k].1, c) >= value
  }

  /** One more entry either takes the lead with a strictly smaller latency
      or leaves the leader in place. */
  lemma FastestStep(entries: seq<(string, BenchmarkResult)>, c: Latency, i: int,
                    name: string, value: int, at: int)
    requires FastestSoFar(entries, c, i, name, value, at) && i < |entries|
    ensures var (n, r) := entries[i];
      if Competes(r) && LatencyOf(r, c) < value then FastestSoFar(entries, c, i + 1, n, LatencyOf(r, c), i)
      else FastestSoFar(entries, c, i + 1, name, value, at)
  {
  }

  /** After the first `i` entries: `at` is the first competing entry with the
      greatest success rate, provided it is above 0, and `name` and `rate`
      are its name and rate; with no such entry `at` is -1, the name is ""
      and the rate 0. */
  predicate MostReliableSoFar(entries: seq<(string, BenchmarkResult)>, i: int,
                              name: string, rate: real, at: int)
    requires forall k :: 0 <= k < |entries| ==> WellFormed(entries[k].1)
  {
    && 0 <= i <= |entries|
    && (at == -1 ==> name == "" && rate == 0.0)
    && (at != -1 ==>
          && 0 <= at < i && Competes(entries[at].1)
          && name == entries[at].0 && rate == SuccessRate(entries[at].1) > 0.0
          && forall k :: 0 <= k < at && Competes(entries[k].1) ==> SuccessRate(entries[k].1) < rate)
    && forall k :: 0 <= k < i && Competes(entries[k].1) ==> SuccessRate(entries[k].1) <= rate
  }

  lemma MostReliableStep(entries: seq<(string, BenchmarkResult)>, i: int, name: string, rate: real, at: int)
    requires forall k :: 0 <= k < |entries| ==> WellFormed(entries[k].1)
    requires MostReliableSoFar(entries, i, name, rate, at) && i < |entries|
    ensures var (n, r) := entries[i];
      if Competes(r) && SuccessRate(r) > rate then MostReliableSoFar(entries, i + 1, n, SuccessRate(r), i)
      else MostReliableSoFar(entries, i + 1, name, rate, at)
  {
  }

  /** `name` and `value` are the winner of latency `c` over all entries. */
  predicate FastestOf(entries: seq<(string, BenchmarkResult)>, c: Latency, name: string, value: int) {
    exists at :: -1 <= at < |entries| && FastestSoFar(entries, c, |entries|, name, value, at)
  }

  /** `name` and `rate` are the most reliable strategy over all entries. */
  predicate MostReliableOf(entries: seq<(string, BenchmarkResult)>, name: string, rate: real)
    requires forall k :: 0 <= k < |entries| ==> WellFormed(entries[k].1)
  {
    exists at :: -1 <= at < |entries| && MostReliableSoFar(entries, |entries|, name, rate, at)
  }

  /** The fastest strategy is determined by the entries: two winners agree. */
  lemma FastestUnique(entries: seq<(string, BenchmarkResult)>, c: Latency,
                      n1: string, v1: int, at1: int, n2: string, v2: int, at2: int)
    requires FastestSoFar(entries, c, |entries|, n1, v1, at1)
    requires FastestSoFar(entries, c, |entries|, n2, v2, at2)
    ensures at1 == at2 && n1 == n2 && v1 == v2
  {
  }

  /** The most reliable strategy is determined by the entries as well. */
  lemma MostReliableUnique(entries: seq<(string, BenchmarkResult)>,
                           n1: string, r1: real, at1: int, n2: string, r2: real, at2: int)
    requires forall k :: 0 <= k < |entries| ==> WellFormed(entries[k].1)
    requires MostReliableSoFar(entries, |entries|, n1, r1, at1)
    requires MostReliableSoFar(entries, |entries|, n2, r2, at2)
    ensures at1 == at2 && n1 == n2 && r1 == r2
  {
  }

  /** The ranking loop of `GenerateComparisonReport`, over the results in
      the order the map is visited. Each category is won by the first
      competing strategy with the strictly best value; an average or p99 of
      an hour or more never wins, and a success rate of 0 never wins. */
  method RankStrategies(entries: seq<(string, BenchmarkResult)>) returns (rk: Ranking)
    requires forall k :: 0 <= k < |entries| ==> WellFormed(entries[k].1)
    ensures FastestOf(entries, Average, rk.fastestAvg, rk.minAvg)
    ensures FastestOf(entries, Tail, rk.fastestP99, rk.minP99)
    ensures MostReliableOf(entries, rk.mostReliable, rk.maxSuccess)
  {
    var fastestAvg, fastestP99, mostReliable := "", "", "";
    var minAvg, minP99 := Hour, Hour;
    var maxSuccess := 0.0;
    ghost var avgAt, p99At, relAt := -1, -1, -1;
    var i := 0;
    while i < |entries|
      invariant FastestSoFar(entries, Average, i, fastestAvg, minAvg, avgAt)
      invariant FastestSoFar(entries, Tail, i, fastestP99, minP99, p99At)
      invariant MostReliableSoFar(entries, i, mostReliable, maxSuccess, relAt)
    {
      FastestStep(entries, Average, i, fastestAvg, minAvg, avgAt);
      FastestStep(entries, Tail, i, fastestP99, minP99, p99At);
      MostReliableStep(entries, i, mostReliable, maxSuccess, relAt);
      var (name, result) := entries[i];
      if result.successQueries > 0 {
        var successRate := result.successQueries as real / result.totalQueries as real;
        if result.avgDuration < minAvg {
          minAvg := result.avgDuration;
          fastestAvg := name;
          avgAt := i;
        }
        if result.p99Duration < minP99 {
          minP99 := result.p99Duration;
          fastestP99 := name;
          p99At := i;
        }
        if successRate > maxSuccess {
          maxSuccess := successRate;
          mostReliable := name;
          relAt := i;
        }
      }
      i := i + 1;
    }
    rk := Ranking(fastestAvg, minAvg, fastestP99, minP99, mostReliable, maxSuccess);
  }
}
