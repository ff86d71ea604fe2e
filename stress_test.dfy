/**
  benchmark/stress-test.go: choosing an operation by weight, dispatching
  it, and the statistics the workers record. The workers run concurrently
  in the source; here the operations they complete are recorded one after
  another, in the order given.
*/
module StressTest {
  import opened Wrappers
  import opened Durations
  import RequestGenerator

  /** The three operations a worker runs. */
  datatype Operation = CreateMail | ListMails | SearchMails

  /** The name an operation goes by, and its key in `OperationStats`. */
  function Name(op: Operation): string {
    match op
    case CreateMail => "create"
    case ListMails => "list"
    case SearchMails => "search"
  }

  /** The operation names `Run` keeps statistics for. */
  const KnownOperations: set<string> := {"create", "list", "search"}

  /** Every operation has a known name, and no two share one. */
  lemma NamesDistinct(a: Operation, b: Operation)
    ensures Name(a) in KnownOperations
    ensures Name(a) == Name(b) <==> a == b
  {
    assert "create"[0] == 'c' && "list"[0] == 'l' && "search"[0] == 's';
  }

  /** `config.Operations`: the relative weights of the three operations. */
  datatype Weights = Weights(createMail: int, listMail: int, search: int)

  /** The weights of the default configuration. */
  const DefaultWeights: Weights := Weights(30, 50, 20)

  function TotalWeight(w: Weights): int {
    w.createMail + w.listMail + w.search
  }

  /** `selectOperation`, given the draw `r` of `rand.Intn(total)`, which
      panics unless `total > 0`. */
  function SelectOperation(w: Weights, r: int): Operation
    requires TotalWeight(w) > 0 && 0 <= r < TotalWeight(w)
  {
    if r < w.createMail then CreateMail
    else if r < w.createMail + w.listMail then ListMails
    else SearchMails
  }

  /** Which draws select which operation. */
  lemma SelectOperationCases(w: Weights, r: int)
    requires TotalWeight(w) > 0 && 0 <= r < TotalWeight(w)
    ensures SelectOperation(w, r) == CreateMail <==> r < w.createMail
    ensures SelectOperation(w, r) == ListMails <==> w.createMail <= r < w.createMail + w.listMail
    ensures SelectOperation(w, r) == SearchMails <==> w.createMail <= r && w.createMail + w.listMail <= r
  {
  }

  /** An operation whose weight is zero (or negative) is never selected. */
  lemma UnweightedNeverSelected(w: Weights, r: int)
    requires TotalWeight(w) > 0 && 0 <= r < TotalWeight(w)
    ensures w.createMail <= 0 ==> SelectOperation(w, r) != CreateMail
    ensures w.listMail <= 0 ==> SelectOperation(w, r) != ListMails
    ensures w.search <= 0 ==> SelectOperation(w, r) != SearchMails
  {
  }

  /** The draws in `[lo, hi)`. */
  function Draws(lo: int, hi: int): (d: set<int>)
    ensures forall r :: r in d <==> lo <= r < hi
    decreases hi - lo
  {
    if hi <= lo then {} else Draws(lo, hi - 1) + {hi - 1}
  }

  lemma {:induction false} DrawsSize(lo: int, hi: int)
    requires lo <= hi
    ensures |Draws(lo, hi)| == hi - lo
    decreases hi - lo
  {
    if lo < hi {
      DrawsSize(lo, hi - 1);
      assert hi - 1 !in Draws(lo, hi - 1);
    }
  }

  /** The draws that select `op`. */
  function SelectingDraws(w: Weights, op: Operation): set<int>
    requires TotalWeight(w) > 0
  {
    set r | 0 <= r < TotalWeight(w) && SelectOperation(w, r) == op
  }

  /** The draws that select `op` are those of one interval. */
  lemma SelectingInterval(w: Weights, op: Operation, lo: int, hi: int)
    requires TotalWeight(w) > 0 && 0 <= lo <= hi <= TotalWeight(w)
    requires forall r :: 0 <= r < TotalWeight(w) ==> (SelectOperation(w, r) == op <==> lo <= r < hi)
    ensures |SelectingDraws(w, op)| == hi - lo
  {
    assert SelectingDraws(w, op) == Draws(lo, hi);
    DrawsSize(lo, hi);
  }

  /** With non-negative weights each operation is selected by exactly as
      many of the `total` equally likely draws as its weight. */
  lemma SelectionFollowsWeights(w: Weights)
    requires w.createMail >= 0 && w.listMail >= 0 && w.search >= 0 && TotalWeight(w) > 0
    ensures |SelectingDraws(w, CreateMail)| == w.createMail
    ensures |SelectingDraws(w, ListMails)| == w.listMail
    ensures |SelectingDraws(w, SearchMails)| == w.search
  {
    var c, l := w.createMail, w.listMail;
    SelectingInterval(w, CreateMail, 0, c);
    SelectingInterval(w, ListMails, c, c + l);
    SelectingInterval(w, SearchMails, c + l, TotalWeight(w));
  }

  /** `executeOperation`: the error the named operation returns, given the
      errors the three operations would return. */
  function ExecuteOperation(op: string, createErr: Option<string>, listErr: Option<string>,
                            searchErr: Option<string>): (err: Option<string>)
  {
    if op == "create" then createErr
    else if op == "list" then listErr
    else if op == "search" then searchErr
    else Some("unknown operation: " + op)
  }

  /** Dispatch adds an error only for a name it does not know, and every
      selected operation is one it knows. */
  lemma ExecuteOperationErrors(op: string, w: Weights, r: int)
    requires TotalWeight(w) > 0 && 0 <= r < TotalWeight(w)
    ensures ExecuteOperation(op, None, None, None).Some? <==> op !in KnownOperations
    ensures ExecuteOperation(Name(SelectOperation(w, r)), None, None, None) == None
  {
  }

  /** The sender and recipients `createMail` picks: the draws index the user
      list, the sender's draw first, then one draw per recipient. */
  method PickCreateMail(userIDs: seq<string>, senderIdx: nat, recipientIdxs: seq<nat>)
    returns (senderID: string, recipients: seq<string>)
    requires senderIdx < |userIDs| && 1 <= |recipientIdxs| <= 3
    requires forall k :: 0 <= k < |recipientIdxs| ==> recipientIdxs[k] < |userIDs|
    ensures senderID == userIDs[senderIdx]
    ensures recipients == RequestGenerator.Drawn(userIDs, recipientIdxs)
    ensures 1 <= |recipients| <= 3 && forall k :: 0 <= k < |recipients| ==> recipients[k] in userIDs
  {
    senderID := userIDs[senderIdx];
    recipients := [];
    var i := 0;
    while i < |recipientIdxs|
      invariant 0 <= i <= |recipientIdxs|
      invariant recipients == RequestGenerator.Drawn(userIDs, recipientIdxs[..i])
    {
      recipients := recipients + [userIDs[recipientIdxs[i]]];
      i := i + 1;
    }
    assert recipientIdxs[..i] == recipientIdxs;
  }

  /** Unlike the request generator, `createMail` may pick the sender as a
      recipient, and the same recipient twice: drawing the sender's index
      for both recipients gives the sender, twice. */
  lemma CreateMailMayRepeat(userIDs: seq<string>, i: nat)
    requires i < |userIDs|
    ensures RequestGenerator.Drawn(userIDs, [i, i]) == [userIDs[i], userIDs[i]]
  {
    var d := RequestGenerator.Drawn(userIDs, [i, i]);
    assert d[0] == userIDs[i] && d[1] == userIDs[i];
  }

  /** One operation a worker completed. */
  datatype Recorded = Recorded(op: Operation, duration: nat, failed: bool)

  /** `OperationStats`; `avgDuration` holds the running total until `Run`
      divides it by the count. */
  datatype OperationStats = OperationStats(count: int, avgDuration: int, minDuration: int, maxDuration: int, errors: int)

  /** The statistics `Run` starts each operation with. */
  const InitialStats: OperationStats := OperationStats(0, 0, Hour, 0, 0)

  /** What `updateOperationStats` does to the chosen operation's entry. */
  function RecordStats(s: OperationStats, duration: int, isError: bool): (t: OperationStats) {
    OperationStats(
      s.count + 1,
      s.avgDuration + duration,
      if duration < s.minDuration then duration else s.minDuration,
      if duration > s.maxDuration then duration else s.maxDuration,
      if isError then s.errors + 1 else s.errors)
  }

  /** The durations of every recorded operation, in order. */
  function Durs(h: seq<Recorded>): (ds: seq<int>)
    ensures |ds| == |h| && forall k :: 0 <= k < |h| ==> ds[k] == h[k].duration
  {
    seq(|h|, k requires 0 <= k < |h| => h[k].duration as int)
  }

  /** The durations of the recorded operations named `op`, in order. */
  function OpDurations(h: seq<Recorded>, op: Operation): (ds: seq<int>)
    ensures forall k :: 0 <= k < |ds| ==> ds[k] >= 0
  {
    if |h| == 0 then []
    else OpDurations(h[..|h| - 1], op) + (if h[|h| - 1].op == op then [h[|h| - 1].duration as int] else [])
  }

  function FailedOps(h: seq<Recorded>): nat {
    if |h| == 0 then 0 else FailedOps(h[..|h| - 1]) + (if h[|h| - 1].failed then 1 else 0)
  }

  function OpErrors(h: seq<Recorded>, op: Operation): nat {
    if |h| == 0 then 0
    else OpErrors(h[..|h| - 1], op) + (if h[|h| - 1].op == op && h[|h| - 1].failed then 1 else 0)
  }

  /** The entry for `op` after recording `h`: how many, their total, the
      extremes (from one hour and from 0) and how many failed. */
  function StatsFor(h: seq<Recorded>, op: Operation): OperationStats {
    var ds := OpDurations(h, op);
    OperationStats(|ds|, Sum(ds), MinFrom(Hour, ds), MaxFrom(0, ds), OpErrors(h, op))
  }

  function StatsOf(h: seq<Recorded>): map<Operation, OperationStats> {
    map[CreateMail := StatsFor(h, CreateMail), ListMails := StatsFor(h, ListMails),
        SearchMails := StatsFor(h, SearchMails)]
  }

  /** Recording one more operation changes only its own entry, as
      `updateOperationStats` does. */
  lemma StatsForStep(h: seq<Recorded>, o: Recorded, op: Operation)
    ensures StatsFor(h + [o], op) == if op == o.op then RecordStats(StatsFor(h, op), o.duration, o.failed) else StatsFor(h, op)
  {
    if op == o.op {
      StatsForOwnStep(h, o);
    } else {
      StatsForOtherStep(h, o, op);
    }
  }

  lemma StatsForOtherStep(h: seq<Recorded>, o: Recorded, op: Operation)
    requires op != o.op
    ensures StatsFor(h + [o], op) == StatsFor(h, op)
  {
    OpStep(h, o, op);
    assert OpDurations(h + [o], op) == OpDurations(h, op);
  }

  lemma StatsForOwnStep(h: seq<Recorded>, o: Recorded)
    ensures StatsFor(h + [o], o.op) == RecordStats(StatsFor(h, o.op), o.duration, o.failed)
  {
    OpStep(h, o, o.op);
    var ds := OpDurations(h, o.op);
    MinFromSnoc(Hour, ds, o.duration);
    MaxFromSnoc(0, ds, o.duration);
    SumSnoc(ds, o.duration);
  }

  lemma OpStep(h: seq<Recorded>, o: Recorded, op: Operation)
    ensures OpDurations(h + [o], op) == OpDurations(h, op) + (if o.op == op then [o.duration as int] else [])
    ensures OpErrors(h + [o], op) == OpErrors(h, op) + (if o.op == op && o.failed then 1 else 0)
  {
    assert (h + [o])[..|h|] == h;
  }

  /** Every recorded operation is counted under exactly one of the three
      names, so the counts add up to the number of operations, and the
      errors to the number of failures. */
  lemma {:induction false} CountsAddUp(h: seq<Recorded>)
    ensures |OpDurations(h, CreateMail)| + |OpDurations(h, ListMails)| + |OpDurations(h, SearchMails)| == |h|
    ensures OpErrors(h, CreateMail) + OpErrors(h, ListMails) + OpErrors(h, SearchMails) == FailedOps(h)
  {
    if |h| > 0 {
      CountsAddUp(h[..|h| - 1]);
    }
  }

  /** A recorded duration is one of its operation's durations. */
  lemma {:induction false} InOpDurations(h: seq<Recorded>, k: int)
    requires 0 <= k < |h|
    ensures h[k].duration as int in OpDurations(h, h[k].op)
  {
    if k < |h| - 1 {
      InOpDurations(h[..|h| - 1], k);
    }
  }

  /** Every recorded duration lies between the overall and the per-operation
      minimum and maximum. */
  lemma RecordedWithinExtremes(h: seq<Recorded>, k: int)
    requires 0 <= k < |h|
    ensures MinFrom(Hour, Durs(h)) <= h[k].duration <= MaxFrom(0, Durs(h))
    ensures StatsFor(h, h[k].op).minDuration <= h[k].duration <= StatsFor(h, h[k].op).maxDuration
  {
    assert Durs(h)[k] == h[k].duration;
    InOpDurations(h, k);
    MinMaxBounds(Hour, Durs(h));
    MinMaxBounds(0, Durs(h));
    var os := OpDurations(h, h[k].op);
    var j :| 0 <= j < |os| && os[j] == h[k].duration;
    MinMaxBounds(Hour, os);
    MinMaxBounds(0, os);
  }

  /** The part of `StressTestResult` the workers update, with `Run`'s
      `totalDuration` accumulator as `durationSum`. */
  datatype Counters = Counters(
    totalRequests: int,
    successRequests: int,
    failedRequests: int,
    durationSum: int,
    minResponseTime: int,
    maxResponseTime: int,
    operationStats: map<Operation, OperationStats>)

  /** The counters `Run` starts from. */
  const InitialCounters: Counters :=
    Counters(0, 0, 0, 0, Hour, 0, map[CreateMail := InitialStats, ListMails := InitialStats, SearchMails := InitialStats])

  /** The statistics name all three operations, as `Run` sets them up. */
  predicate Complete(m: map<Operation, OperationStats>) {
    CreateMail in m && ListMails in m && SearchMails in m
  }

  lemma CompleteHas(m: map<Operation, OperationStats>, op: Operation)
    requires Complete(m)
    ensures op in m
  {
    match op {
      case CreateMail =>
      case ListMails =>
      case SearchMails =>
    }
  }

  /** One pass of the worker loop body once the operation has run. */
  function Step(c: Counters, o: Recorded): Counters
    requires Complete(c.operationStats)
  {
    CompleteHas(c.operationStats, o.op);
    Counters(
      c.totalRequests + 1,
      if o.failed then c.successRequests else c.successRequests + 1,
      if o.failed then c.failedRequests + 1 else c.failedRequests,
      c.durationSum + o.duration,
      if o.duration < c.minResponseTime then o.duration else c.minResponseTime,
      if o.duration > c.maxResponseTime then o.duration else c.maxResponseTime,
      c.operationStats[o.op := RecordStats(c.operationStats[o.op], o.duration, o.failed)])
  }

  /** The counters after the workers have recorded `h`, in order. */
  function Replay(h: seq<Recorded>): (c: Counters)
    ensures Complete(c.operationStats)
  {
    if |h| == 0 then InitialCounters
    else Step(Replay(h[..|h| - 1]), h[|h| - 1])
  }

  lemma ReplaySnoc(h: seq<Recorded>, o: Recorded)
    ensures Replay(h + [o]) == Step(Replay(h), o)
  {
    assert (h + [o])[..|h|] == h;
  }

  /** Replaying the recorded operations gives the overall counters the
      source promises: every operation counted once, as a success or a
      failure, and the sum and extremes of all durations. */
  lemma {:induction false} ReplayTotals(h: seq<Recorded>)
    ensures var c := Replay(h);
      && c.totalRequests == |h| && c.failedRequests == FailedOps(h)
      && c.successRequests == |h| - FailedOps(h) && c.durationSum == Sum(Durs(h))
      && c.minResponseTime == MinFrom(Hour, Durs(h)) && c.maxResponseTime == MaxFrom(0, Durs(h))
  {
    if |h| > 0 {
      var init, o := h[..|h| - 1], h[|h| - 1];
      assert h == init + [o];
      ReplayTotals(init);
      HistoryStep(init, o);
    }
  }

  /** Recording one more operation updates only its own entry of the
      statistics, as `updateOperationStats` does. */
  lemma StatsOfStep(h: seq<Recorded>, o: Recorded)
    ensures StatsOf(h + [o]) == StatsOf(h)[o.op := RecordStats(StatsFor(h, o.op), o.duration, o.failed)]
  {
    StatsForOwnStep(h, o);
    match o.op {
      case CreateMail =>
        StatsForOtherStep(h, o, ListMails);
        StatsForOtherStep(h, o, SearchMails);
      case ListMails =>
        StatsForOtherStep(h, o, CreateMail);
        StatsForOtherStep(h, o, SearchMails);
      case SearchMails =>
        StatsForOtherStep(h, o, CreateMail);
        StatsForOtherStep(h, o, ListMails);
    }
  }

  /** Replaying the recorded operations gives, per operation, its count,
      running total, extremes and failures. */
  lemma {:induction false} ReplayStats(h: seq<Recorded>)
    ensures Replay(h).operationStats == StatsOf(h)
  {
    if |h| == 0 {
      assert OpDurations(h, CreateMail) == [] && OpDurations(h, ListMails) == [] && OpDurations(h, SearchMails) == [];
    } else {
      var init, o := h[..|h| - 1], h[|h| - 1];
      assert h == init + [o];
      ReplayStats(init);
      ReplaySnoc(init, o);
      StatsOfStep(init, o);
    }
  }

  /** `StressTestResult`, with the `totalDuration` accumulator that `Run`
      shares with its workers. */
  class StressTestResult {
    var totalRequests: int
    var successRequests: int
    var failedRequests: int
    var totalDuration: int
    var avgResponseTime: int
    var minResponseTime: int
    var maxResponseTime: int
    var requestsPerSecond: real
    var errorRate: real
    var operationStats: map<Operation, OperationStats>
    /** The sum of all recorded durations (`Run`'s `totalDuration` variable). */
    var durationSum: int

    /** The fields the workers update, as one value. */
    function Snapshot(): Counters
      reads this
    {
      Counters(totalRequests, successRequests, failedRequests, durationSum,
               minResponseTime, maxResponseTime, operationStats)
    }

    /** The result `Run` starts from. */
    constructor ()
      ensures Snapshot() == InitialCounters
      ensures totalDuration == 0 && avgResponseTime == 0
      ensures requestsPerSecond == 0.0 && errorRate == 0.0
    {
      totalRequests, successRequests, failedRequests := 0, 0, 0;
      totalDuration, avgResponseTime := 0, 0;
      minResponseTime, maxResponseTime := Hour, 0;
      requestsPerSecond, errorRate := 0.0, 0.0;
      operationStats := map[CreateMail := InitialStats, ListMails := InitialStats, SearchMails := InitialStats];
      durationSum := 0;
    }

    /** `updateOperationStats`: only the chosen operation's entry changes.
        The operation must have an entry; the source would dereference nil. */
    method UpdateOperationStats(operation: Operation, duration: int, isError: bool)
      requires operation in operationStats
      modifies this`operationStats
      ensures operationStats == old(operationStats)[operation := RecordStats(old(operationStats[operation]), duration, isError)]
    {
      var stats := operationStats[operation];
      stats := stats.(count := stats.count + 1);
      stats := stats.(avgDuration := stats.avgDuration + duration);
      if isError {
        stats := stats.(errors := stats.errors + 1);
      }
      if duration < stats.minDuration {
        stats := stats.(minDuration := duration);
      }
      if duration > stats.maxDuration {
        stats := stats.(maxDuration := duration);
      }
      operationStats := operationStats[operation := stats];
    }

    /** The worker loop's request counters for one more operation. */
    method CountRequest(failed: bool)
      modifies this`totalRequests, this`successRequests, this`failedRequests
      ensures totalRequests == old(totalRequests) + 1
      ensures successRequests == if failed then old(successRequests) else old(successRequests) + 1
      ensures failedRequests == if failed then old(failedRequests) + 1 else old(failedRequests)
    {
      totalRequests := totalRequests + 1;
      if failed {
        failedRequests := failedRequests + 1;
      } else {
        successRequests := successRequests + 1;
      }
    }

    /** The worker loop's overall duration statistics for one more operation. */
    method RecordDuration(duration: int)
      modifies this`durationSum, this`minResponseTime, this`maxResponseTime
      ensures durationSum == old(durationSum) + duration
      ensures minResponseTime == if duration < old(minResponseTime) then duration else old(minResponseTime)
      ensures maxResponseTime == if duration > old(maxResponseTime) then duration else old(maxResponseTime)
    {
      durationSum := durationSum + duration;
      if duration < minResponseTime {
        minResponseTime := duration;
      }
      if duration > maxResponseTime {
        maxResponseTime := duration;
      }
    }

    /** The body of the worker loop after the operation has run: count it,
        record its duration overall and for its operation. */
    method Record(operation: Operation, duration: nat, failed: bool)
      requires Complete(operationStats)
      modifies this
      ensures Snapshot() == Step(old(Snapshot()), Recorded(operation, duration, failed))
      ensures totalDuration == old(totalDuration) && avgResponseTime == old(avgResponseTime)
      ensures requestsPerSecond == old(requestsPerSecond) && errorRate == old(errorRate)
    {
      RecordDuration(duration);
      CountRequest(failed);
      UpdateOperationStats(operation, duration, failed);
    }

    /** The final statistics of `Run`. `elapsed` is the measured run time;
        the rate is only defined for a positive one. */
    method Finalize(elapsed: int)
      requires totalRequests > 0 ==> elapsed > 0
      modifies this
      ensures Snapshot() == old(Snapshot()).(operationStats := Averages(old(operationStats)))
      ensures totalDuration == elapsed
      ensures totalRequests == 0 ==>
        avgResponseTime == old(avgResponseTime) && requestsPerSecond == old(requestsPerSecond) && errorRate == old(errorRate)
      ensures totalRequests > 0 ==>
        && avgResponseTime == GoDiv(durationSum, totalRequests)
        && requestsPerSecond == totalRequests as real / (elapsed as real / Second as real)
        && errorRate == failedRequests as real / totalRequests as real * 100.0
    {
      totalDuration := elapsed;
      if totalRequests > 0 {
        avgResponseTime := GoDiv(durationSum, totalRequests);
        requestsPerSecond := totalRequests as real / (elapsed as real / Second as real);
        errorRate := failedRequests as real / totalRequests as real * 100.0;
      }
      AverageOperationStats();
    }

    /** The loop of `Run` that turns each operation's running total into
        its mean. */
    method AverageOperationStats()
      modifies this`operationStats
      ensures operationStats == Averages(old(operationStats))
    {
      var stats := operationStats;
      var pending := stats.Keys;
      while pending != {}
        invariant pending <= stats.Keys == operationStats.Keys
        invariant forall op :: op in stats ==>
          stats[op] == if op in pending then operationStats[op] else Averaged(operationStats[op])
        decreases |pending|
      {
        var op :| op in pending;
        var entry := stats[op];
        if entry.count > 0 {
          entry := entry.(avgDuration := GoDiv(entry.avgDuration, entry.count));
        }
        stats := stats[op := entry];
        pending := pending - {op};
      }
      operationStats := stats;
    }
  }

  /** Every entry of the statistics with its mean in place of its total. */
  function Averages(m: map<Operation, OperationStats>): (r: map<Operation, OperationStats>)
    ensures r.Keys == m.Keys && forall op :: op in m ==> r[op] == Averaged(m[op])
  {
    map op | op in m :: Averaged(m[op])
  }

  /** How one more recorded operation changes the overall counters. */
  lemma HistoryStep(h: seq<Recorded>, o: Recorded)
    ensures Durs(h + [o]) == Durs(h) + [o.duration as int]
    ensures FailedOps(h + [o]) == FailedOps(h) + (if o.failed then 1 else 0)
    ensures Sum(Durs(h + [o])) == Sum(Durs(h)) + o.duration
    ensures MinFrom(Hour, Durs(h + [o])) == if o.duration < MinFrom(Hour, Durs(h)) then o.duration else MinFrom(Hour, Durs(h))
    ensures MaxFrom(0, Durs(h + [o])) == if o.duration > MaxFrom(0, Durs(h)) then o.duration else MaxFrom(0, Durs(h))
  {
    assert (h + [o])[..|h|] == h;
    assert Durs(h + [o]) == Durs(h) + [o.duration as int];
    SumSnoc(Durs(h), o.duration);
    MinFromSnoc(Hour, Durs(h), o.duration);
    MaxFromSnoc(0, Durs(h), o.duration);
  }

  /** `Run`'s last step on one entry: the running total becomes the mean,
      for an operation that ran at least once. */
  function Averaged(s: OperationStats): (t: OperationStats) {
    if s.count > 0 then s.(avgDuration := GoDiv(s.avgDuration, s.count)) else s
  }

  /** The mean response time lies between the extremes, overall and per
      operation. */
  lemma AveragesWithinExtremes(h: seq<Recorded>, op: Operation)
    ensures |h| > 0 ==> MinFrom(Hour, Durs(h)) <= Sum(Durs(h)) / |h| <= MaxFrom(0, Durs(h))
    ensures StatsFor(h, op).count > 0 ==>
      StatsFor(h, op).minDuration <= Averaged(StatsFor(h, op)).avgDuration <= StatsFor(h, op).maxDuration
  {
    var ds := Durs(h);
    if |h| > 0 {
      MinMaxBounds(Hour, ds);
      MinMaxBounds(0, ds);
      MeanBounds(ds, MinFrom(Hour, ds), MaxFrom(0, ds));
    }
    var os := OpDurations(h, op);
    if |os| > 0 {
      MinMaxBounds(Hour, os);
      MinMaxBounds(0, os);
      MeanBounds(os, MinFrom(Hour, os), MaxFrom(0, os));
      SumBounds(os, 0, MaxFrom(0, os));
    }
  }

  /** `Run`, with the workers' operations recorded one after another.
      `elapsed` is the run's measured duration. */
  method Run(outcomes: seq<Recorded>, elapsed: int) returns (result: StressTestResult)
    requires |outcomes| > 0 ==> elapsed > 0
    ensures fresh(result)
    ensures result.totalRequests == |outcomes| == result.successRequests + result.failedRequests
    ensures result.failedRequests == FailedOps(outcomes)
    ensures result.totalDuration == elapsed
    ensures result.minResponseTime == MinFrom(Hour, Durs(outcomes))
    ensures result.maxResponseTime == MaxFrom(0, Durs(outcomes))
    ensures |outcomes| == 0 ==> result.avgResponseTime == 0 && result.requestsPerSecond == 0.0 && result.errorRate == 0.0
    ensures |outcomes| > 0 ==>
      && result.avgResponseTime == Sum(Durs(outcomes)) / |outcomes|
      && result.requestsPerSecond == |outcomes| as real / (elapsed as real / Second as real)
      && result.errorRate == FailedOps(outcomes) as real / |outcomes| as real * 100.0
    ensures result.operationStats == Averages(StatsOf(outcomes))
  {
    result := new StressTestResult();
    RecordAll(result, outcomes);
    ReplayTotals(outcomes);
    ReplayStats(outcomes);
    MinMaxBounds(0, Durs(outcomes));
    SumBounds(Durs(outcomes), 0, MaxFrom(0, Durs(outcomes)));
    result.Finalize(elapsed);
  }

  /** The workers' loop bodies, one completed operation after another. */
  method RecordAll(result: StressTestResult, outcomes: seq<Recorded>)
    requires result.Snapshot() == InitialCounters
    modifies result
    ensures result.Snapshot() == Replay(outcomes)
    ensures result.totalDuration == old(result.totalDuration) && result.avgResponseTime == old(result.avgResponseTime)
    ensures result.requestsPerSecond == old(result.requestsPerSecond) && result.errorRate == old(result.errorRate)
  {
    var i := 0;
    while i < |outcomes|
      invariant 0 <= i <= |outcomes|
      invariant result.Snapshot() == Replay(outcomes[..i])
      invariant result.totalDuration == old(result.totalDuration) && result.avgResponseTime == old(result.avgResponseTime)
      invariant result.requestsPerSecond == old(result.requestsPerSecond) && result.errorRate == old(result.errorRate)
    {
      assert outcomes[..i + 1] == outcomes[..i] + [outcomes[i]];
      ReplaySnoc(outcomes[..i], outcomes[i]);
      result.Record(outcomes[i].op, outcomes[i].duration, outcomes[i].failed);
      i := i + 1;
    }
    assert outcomes[..i] == outcomes;
  }
}
