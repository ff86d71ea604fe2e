# mail_stress_test, modelled in Dafny

`mail_stress_test` is a Go tool that load-tests a mail service backed by
MongoDB. It seeds users, mails and threads, runs a weighted mix of create,
list and search operations from concurrent workers and benchmarks four
search strategies. It also watches the backend while that happens: it
scrapes its Prometheus endpoint and reads `docker stats`, `free -m`,
`vm_stat`, `uptime` and `netstat` output. At the end it writes a
monitoring report with insights. An example Fiber backend with
Prometheus middleware is part of the repository.

This project models the sequential logic of that tool and proves what
that logic promises. Randomness, clocks, database outcomes and
command output all become parameters.

One module per file, following the Go packages:

| file | module | models |
|---|---|---|
| wrappers.dfy | Wrappers | `Option` / `Result` |
| go_strings.dfy | GoStrings | the parts of Go's `strings` and `strconv` the core uses (`TrimSpace`, `Split`, `Fields`, `Index`, `Contains`, `ToUpper`, `Atoi`, `Itoa`) |
| durations.dfy | Durations | `time.Duration` constants, Go's truncating integer division, running min / max / sum |
| models.dfy | Models | models/mail.go, and the 24-hex-digit ObjectID text |
| vocabulary.dfy | Vocabulary | the subject list and content templates, which both generator files declare identically |
| search_benchmark.dfy | SearchBenchmark | benchmark/search_benchmark.go |
| stress_test.dfy | StressTest | benchmark/stress-test.go |
| request_generator.dfy | RequestGenerator | generator/request_generator.go |
| mail_store.dfy | MailStore | the `mails` and `threads` collections as an in-memory store with per-write outcomes |
| data_generator.dfy | DataGenerator | generator/data_generator.go |
| db_handler.dfy | DbHandler | handler/db_handler.go |
| prometheus_client.dfy | PrometheusClient | monitoring/prometheus_client.go |
| system_monitor.dfy | SystemMonitor | monitoring/system_monitor.go |
| manager.dfy | Manager | monitoring/manager.go |
| fiber_backend.dfy | FiberBackend | examples/fiber-backend-with-monitoring/main.go |

Modelling choices:

- Durations and timestamps are `int` nanosecond counts, as in Go's `time.Duration` and `time.Time`.
- Integer `/` on a possibly negative operand is Go's truncating division (`Durations.GoDiv`).
- Floating-point values are `real`. Nothing is claimed about rounding.
- Float scanning (`strconv.ParseFloat`, `fmt.Sscanf("%f")`) and the `%f%s` value/unit scan are parameters of type `string -> Option<real>`.
- `strconv.Atoi` is modelled exactly: an optional sign, decimal digits, and the int64 range.
- Every random draw is an explicit argument: an index, a coin, a count.
- Each database write has an explicit outcome argument, as do the `FindOne` lookup of a replied-to mail, the shell runner and the HTTP scrape.
- The stress-test workers are modelled as one sequential recorder over the operations they complete.
- The two `DataGenerator` types of the `generator` package are separate modules, one per file.
- Go map iteration in the ranking loop becomes a sequence in a given order.
- Methods that change state are proved against specification functions (`Replay`, `Perform`, `ParseAll`, `Collect`, `SummaryOf`, `ReportOf`, ...). Lemmas state what the source promises about those functions.

## Model

| member | source | states |
|---|---|---|
| SearchBenchmark.SortSeq | benchmark/search_benchmark.go:166-175 | the reference sort: its result is ascending and a permutation of its input |
| SearchBenchmark.SortedUnique | benchmark/search_benchmark.go:166-175 | two ascending permutations of the same multiset are equal, so any correct sort yields the `SortSeq` order |
| SearchBenchmark.ExchangePass | benchmark/search_benchmark.go:170-174 | one pass of the inner loop puts the least remaining element at `i`, keeps the prefix, and permutes the array |
| SearchBenchmark.ExchangeSort | benchmark/search_benchmark.go:169-175 | the swap sort leaves the array ascending and a permutation of what it held |
| SearchBenchmark.CalculatePercentile | benchmark/search_benchmark.go:160-183 | the result is the nearest-rank percentile of a sorted copy of the sample, and 0 for an empty sample; the input sequence is a value and is not changed |
| SearchBenchmark.PercentileIndex | benchmark/search_benchmark.go:177-180 | `len*p/100` clamped to `len-1` is a valid index whenever `len*p > -100` |
| SearchBenchmark.Percentile | benchmark/search_benchmark.go:160-163 | an empty sample gives 0 |
| SearchBenchmark.PercentileInSample | benchmark/search_benchmark.go:177-182 | on a non-empty sample the percentile is an element of the sample |
| SearchBenchmark.PercentileHundredIsMax | benchmark/search_benchmark.go:177-182 | p = 100 yields the sample's maximum |
| SearchBenchmark.PercentileMonotone | benchmark/search_benchmark.go:150-154 | a larger percentile never yields a smaller value, so p50 ≤ p95 ≤ p99 |
| SearchBenchmark.PercentileSingleton | benchmark/search_benchmark.go:177-182 | a one-element sample gives that element for every p > -100 |
| SearchBenchmark.QueriesPartition | benchmark/search_benchmark.go:119-128 | successes plus failures equal the number of queries |
| SearchBenchmark.FailureAddsNothing | benchmark/search_benchmark.go:121-124 | a failed query adds nothing to durations or results, and one to the failures |
| SearchBenchmark.TallyStep | benchmark/search_benchmark.go:112-137 | how one more query changes the durations, failures and results |
| SearchBenchmark.TallyQueries | benchmark/search_benchmark.go:112-137 | the loop counts every query, collects exactly the successful durations, and keeps min = min(1 hour, successes) and max = max(0, successes) |
| SearchBenchmark.TotalDuration | benchmark/search_benchmark.go:141-144 | the summing loop returns the sum of the durations |
| SearchBenchmark.BenchmarkStrategy | benchmark/search_benchmark.go:91-157 | the result is the wrapped setup error, or the strategy's result record |
| SearchBenchmark.StrategyResultOk | benchmark/search_benchmark.go:100-102 | a result exists iff setup succeeded, and it carries the strategy's name; otherwise the error is "setup failed: " followed by the setup error, which can be read back from it |
| SearchBenchmark.StrategyResultFacts | benchmark/search_benchmark.go:92-154 | Total = Success + Failed; Success is the sample size; with no successes the average, result average and percentiles stay 0 with min 1 hour and max 0; otherwise min ≤ p50 ≤ p95 ≤ p99 ≤ max and min ≤ avg ≤ max |
| SearchBenchmark.CollectKeys | benchmark/search_benchmark.go:67-73 | a name is in the result map iff some outcome under that name succeeded |
| SearchBenchmark.CollectValues | benchmark/search_benchmark.go:73 | a name maps to the last successful outcome under that name |
| SearchBenchmark.RunResultsContents | benchmark/search_benchmark.go:63-73 | `Run`'s map holds exactly the strategies whose setup succeeded, keyed by name, each with its own result |
| SearchBenchmark.Run | benchmark/search_benchmark.go:56-88 | the loop builds exactly that map |
| SearchBenchmark.FastestStep | benchmark/search_benchmark.go:198-205 | one more entry takes the lead only with a strictly smaller latency |
| SearchBenchmark.MostReliableStep | benchmark/search_benchmark.go:196-209 | one more entry takes the lead only with a strictly larger success rate |
| SearchBenchmark.FastestUnique | benchmark/search_benchmark.go:196-205 | the fastest strategy and its latency are determined by the entries: any two winners agree |
| SearchBenchmark.MostReliableUnique | benchmark/search_benchmark.go:196-209 | the most reliable strategy and its rate are determined by the entries |
| SearchBenchmark.RankStrategies | benchmark/search_benchmark.go:189-211 | only strategies with successes compete; each winner is the first with the strictly best value; an average or p99 of an hour or more never wins; the most reliable stays "" unless some rate is above 0 |
| StressTest.NamesDistinct | benchmark/stress-test.go:146-151 | the three operation names are distinct and known |
| StressTest.SelectOperationCases | benchmark/stress-test.go:141-152 | for r in [0, total): "create" iff r < c; "list" iff c ≤ r < c + l; otherwise "search" |
| StressTest.UnweightedNeverSelected | benchmark/stress-test.go:141-152 | an operation whose weight is zero or less is never selected |
| StressTest.SelectionFollowsWeights | benchmark/stress-test.go:141-152 | with non-negative weights exactly `weight` of the `total` draws select each operation |
| StressTest.ExecuteOperationErrors | benchmark/stress-test.go:154-165 | dispatch errors iff the name is not one of the three, and a selected operation never hits that error |
| StressTest.PickCreateMail | benchmark/stress-test.go:167-177 | the sender and 1–3 recipients are drawn from the user list, one draw each |
| StressTest.CreateMailMayRepeat | benchmark/stress-test.go:168-174 | recipients are drawn with replacement, so for any user list, drawing the sender's index twice gives the sender as both recipients |
| StressTest.OpStep | benchmark/stress-test.go:231-240 | recording an operation extends only its own durations and errors |
| StressTest.StatsForStep | benchmark/stress-test.go:231-246 | only the chosen operation's stats change: count + 1, running sum + duration, errors + 1 iff failed, min/max updated |
| StressTest.CountsAddUp | benchmark/stress-test.go:119-128 | the per-operation counts sum to the total, and the per-operation errors sum to the failures |
| StressTest.RecordedWithinExtremes | benchmark/stress-test.go:130-136 | every recorded duration d lies between min and max, overall and for its operation |
| StressTest.ReplayTotals | benchmark/stress-test.go:119-136 | after a history: Total = its length, Failed = the failures, Success = the rest, sum, min from 1 hour and max from 0 |
| StressTest.ReplayStats | benchmark/stress-test.go:231-246 | after a history the stats map equals the per-operation statistics of that history |
| StressTest.AveragesWithinExtremes | benchmark/stress-test.go:90-102 | the overall and per-operation averages lie between the matching min and max |
| StressTest.StressTestResult.constructor | benchmark/stress-test.go:59-66 | every counter starts at 0, min at 1 hour, and each operation's stats at min 1 hour |
| StressTest.StressTestResult.UpdateOperationStats | benchmark/stress-test.go:231-246 | only the chosen operation's entry changes, by that step |
| StressTest.StressTestResult.CountRequest | benchmark/stress-test.go:119-128 | Total + 1, and exactly one of Success and Failed + 1 |
| StressTest.StressTestResult.RecordDuration | benchmark/stress-test.go:119-136 | sum + duration, and min/max updated under strict comparisons |
| StressTest.StressTestResult.Record | benchmark/stress-test.go:113-136 | one worker iteration moves the counters by one `Step` and leaves the final fields alone |
| StressTest.StressTestResult.Finalize | benchmark/stress-test.go:89-102 | with no requests the average, rate and error rate stay 0; otherwise avg = sum div Total, rate = Total / seconds, error rate = Failed / Total × 100; each operation is averaged |
| StressTest.StressTestResult.AverageOperationStats | benchmark/stress-test.go:98-102 | each operation's running sum becomes sum div Count, only when Count > 0 |
| StressTest.RecordAll | benchmark/stress-test.go:107-139 | recording the operations one after another reaches `Replay` of them |
| StressTest.Run | benchmark/stress-test.go:55-105 | the final result: totals, failures, min, max, averages, rates and per-operation averages of the recorded history |
| RequestGenerator.RecipientsFacts | generator/request_generator.go:41-48 | at most one recipient per draw, each a user other than the sender |
| RequestGenerator.GenerateCreateMailRequest | generator/request_generator.go:37-80 | From is a user; To holds the 0–3 draws that are not From; Cc or Bcc is a single non-sender id only when its coin is below 0.3 or 0.1; the sender is in none of them; Subject is from the list; Content is a template filled with that Subject, so it contains it; ReplyTo is the argument |
| RequestGenerator.GenerateListMailsRequest | generator/request_generator.go:83-91 | a user, with 20 ≤ Limit ≤ 99 and 0 ≤ Offset ≤ 99 |
| RequestGenerator.GenerateSearchMailsRequest | generator/request_generator.go:94-103 | a user, a search term from the subject list, and Limit 50 |
| RequestGenerator.GetRandomUserID | generator/request_generator.go:106-108 | the result is one of the user ids |
| Vocabulary.Fill | generator/request_generator.go:69 | `Sprintf` of a one-`%s` template: the subject appears right after the template's prefix |
| Vocabulary.FillContainsSubject | generator/request_generator.go:68-69 | the filled content contains the subject |
| DataGenerator.GenerateMailFacts | generator/data_generator.go:39-48 | the id, owner and thread are the arguments; Subject is from the list; Content contains some subject but possibly a different one; CreatedAt is a whole number of hours in [0, 8760) before now |
| DataGenerator.SeedPlanShape | generator/data_generator.go:50-99 | the sender copy comes first, then one copy per recipient, duplicates kept; every copy shares the thread, subject, content and time; thread entries are Type 1 for the sender and Type 0 for recipients |
| DataGenerator.SeedThreadErrorsDropped | generator/data_generator.go:76-98 | when every insert succeeds, thread-update errors are ignored: no error, and every copy is inserted |
| DataGenerator.CreateMailWithThread | generator/data_generator.go:50-102 | the method performs the planned writes, where a failing insert stops everything and a failing thread update does not |
| DataGenerator.WriteRecipientCopies | generator/data_generator.go:79-99 | the recipient loop performs the rest of the plan |
| DataGenerator.RoundRecipientsFacts | generator/data_generator.go:138-144 | with distinct user ids, the recipients are users other than the sender, excluded by index |
| DataGenerator.PickRecipients | generator/data_generator.go:138-144 | the loop keeps exactly the draws whose index differs from the sender's |
| DataGenerator.SeedAppends | generator/data_generator.go:134-155 | seeding only appends mails, and keeps every thread's count equal to its number of entries |
| DataGenerator.SeedData | generator/data_generator.go:128-158 | exactly numUsers ids; mailsPerUser rounds in total; a round writes only with a recipient; the first error ends seeding |
| MailStore.Upsert | generator/data_generator.go:104-125 | the (user, thread) key gains one pushed entry and one more in total_mails, created if absent, and no other thread changes |
| MailStore.UpsertConsistent | handler/db_handler.go:192-214 | an upsert keeps total_mails = number of entries in every thread |
| MailStore.Store.InsertOne | handler/db_handler.go:67 | a successful insert appends the mail; a failed one changes nothing |
| MailStore.Store.UpdateThread | handler/db_handler.go:192-214 | a successful update upserts the thread; a failed one changes nothing |
| MailStore.PerformFacts | handler/db_handler.go:66-126 | the outcome is the first aborting error; the state applies exactly the writes before it, which remain |
| MailStore.PerformAppends | handler/db_handler.go:27-130 | writes only append mails and keep threads consistent |
| MailStore.InsertsDespiteDroppedErrors | generator/data_generator.go:60-99 | when inserts succeed and thread errors do not abort, every planned copy is inserted |
| MailStore.FindMail | handler/db_handler.go:40-44 | a found mail has the id; none found means no mail has it |
| Models.ObjectIDFromHex | handler/db_handler.go:36-39 | an id it accepts is a well-formed lower-case ObjectID |
| Models.ObjectIDFromHexAccepts | handler/db_handler.go:36-39 | accepts exactly the texts of 24 hex digits, and the id is their lower-case form |
| Models.ObjectIDFromHexErrors | handler/db_handler.go:36-39 | a text that is not 24 bytes long gives `ErrInvalidHex`; one of 24 bytes that is refused gives the `InvalidByteError` of its first byte that is no hex digit |
| Models.FirstNonHexByteIsFirst | handler/db_handler.go:36 | none iff every byte is a hex digit, otherwise the first byte that is not |
| Models.Utf8Hex | handler/db_handler.go:36 | the bytes are all hex digits iff the characters are, and then there is one byte per character |
| Models.AsciiIdErrors | handler/db_handler.go:36-39 | for ASCII text, a length other than 24 gives `ErrInvalidHex` and 24 the decoding error of the first non-hex character |
| Models.InvalidByteZ | handler/db_handler.go:36-39 | the error for the byte `z` reads "encoding/hex: invalid byte: U+007A 'z'" |
| Models.ObjectIDRoundTrip | handler/db_handler.go:36 | an id's own hex text reads back as itself |
| Models.ObjectIDOrNil | handler/db_handler.go:84 | with the error ignored, the result is always a well-formed ObjectID |
| Models.ObjectIDOrNilDropsError | handler/db_handler.go:84 | it is the id `ObjectIDFromHex` gives, or the nil ObjectID where that fails |
| DbHandler.ThreadForCases | handler/db_handler.go:31-48 | an empty ReplyTo gives the fresh thread id; a ReplyTo that is not 24 bytes long gives `ErrInvalidHex`, one of 24 bytes with a non-hex character the decoding error of its first non-hex byte; a failed `FindOne`/`Decode` gives its error; an unknown id gives "no documents"; otherwise the original mail's thread id is used |
| DbHandler.AddresseesFacts | handler/db_handler.go:90-98 | the recipients are To ++ Cc ++ Bcc without the sender, every other entry kept as often as it occurs |
| DbHandler.CreatePlanShape | handler/db_handler.go:51-127 | the sender copy first, then each recipient copy with UserID = recipient, Type 0 and the sender copy's thread and time; every copy is followed by one thread upsert of its own type under its owner |
| DbHandler.SenderInsertFails | handler/db_handler.go:66-69 | if the sender insert fails, nothing is written and its error is returned |
| DbHandler.CreateMailSucceeds | handler/db_handler.go:27-130 | when every write succeeds: no error, all copies inserted in order, threads consistent |
| DbHandler.CreateMail | handler/db_handler.go:27-130 | a thread-id error (malformed id, failed lookup, no such mail) returns with nothing written; otherwise the writes of the plan, stopping at the first error |
| DbHandler.WriteRecipients | handler/db_handler.go:95-127 | the recipient loop performs the rest of the plan |
| DbHandler.Page | handler/db_handler.go:139-144 | a limit bounds the page; no options leave the documents as found |
| DbHandler.OwnedBy | handler/db_handler.go:136 | the filter `{"userId": ...}` selects every copy the user owns and nothing else |
| DbHandler.ListMailsOwned | handler/db_handler.go:133-158 | over the user's copies, `ListMails` returns only copies the user owns, and with no limit or offset all of them |
| DbHandler.ListMailsGating | handler/db_handler.go:139-144 | the limit applies only if > 0 and the offset only if > 0: the k-th result is the (offset + k)-th match, and there are min(limit, matches left) of them |
| DbHandler.SearchMailsGating | handler/db_handler.go:161-189 | no skip ever; the limit applies only if > 0; over documents the user filter selects, only the user's copies are returned |
| PrometheusClient.FirstMatch | monitoring/prometheus_client.go:133-171 | the first case in the fixed order whose substring test matches, or none when no case matches |
| PrometheusClient.ClassifyIsFirstMatch | monitoring/prometheus_client.go:133-171 | the switch picks exactly that first matching case |
| PrometheusClient.DefaultWhenNoMatch | monitoring/prometheus_client.go:166-170 | the default branch is taken iff no case matches |
| PrometheusClient.ParseLineCases | monitoring/prometheus_client.go:114-171 | a trimmed line that is empty, a comment, or has fewer than two fields changes nothing; otherwise the first field is the name and the last the value (0 if unparseable), which goes to the matched target, scaled, or to CustomMetrics under the full name |
| PrometheusClient.NameIsNoComment | monitoring/prometheus_client.go:118-168 | a name reaching the default branch never starts with "#" |
| PrometheusClient.ScaleUnits | monitoring/prometheus_client.go:137-164 | quantiles are scaled ×1000, resident memory ÷1024÷1024, everything else unchanged |
| PrometheusClient.ParseAllAppend | monitoring/prometheus_client.go:114-172 | parsing lines one after another composes |
| PrometheusClient.ParseAllUntouched | monitoring/prometheus_client.go:133-171 | lines that do not set a target leave it as it was |
| PrometheusClient.LastWriteWins | monitoring/prometheus_client.go:133-171 | a later line overwrites an earlier one |
| PrometheusClient.PrometheusMetrics.constructor | monitoring/prometheus_client.go:97-100 | the timestamp, all fields 0 and an empty custom map |
| PrometheusClient.ParsePrometheusFormat | monitoring/prometheus_client.go:111-175 | always returns nil; the metrics become `ParseAll` of the lines split at "\n" |
| PrometheusClient.ParseLineInto | monitoring/prometheus_client.go:115-171 | one iteration applies that line's update |
| PrometheusClient.Max | monitoring/prometheus_client.go:241-246 | the larger of the two |
| PrometheusClient.CalculateDiff | monitoring/prometheus_client.go:178-207 | increase = end − start; the rate only for a positive duration and the error rate only for a positive increase, 0 otherwise; the averages; peak goroutines = max |
| SystemMonitor.SpellsUnitIsUpper | monitoring/system_monitor.go:357 | matching a unit spelling means matching it after `ToUpper` |
| SystemMonitor.UnitScaling | monitoring/system_monitor.go:350-367 | G/GB/GIB → ×1024, K/KB/KIB → ÷1024, anything else is unchanged, case-insensitively |
| SystemMonitor.MemoryPercentRule | monitoring/system_monitor.go:242-247 | the memory fields are written, the percent only when total > 0, and nothing else |
| SystemMonitor.DockerNeedsOneSlash | monitoring/system_monitor.go:229-250 | the Docker parser succeeds iff the output has exactly one "/", and then used and total are the two sides and free = total − used |
| SystemMonitor.ParseDockerMemory | monitoring/system_monitor.go:229-250 | the method writes exactly that, or reports the format error |
| SystemMonitor.FirstMemLine | monitoring/system_monitor.go:255-256 | the first "Mem:" line, or none |
| SystemMonitor.FirstMemLineDecides | monitoring/system_monitor.go:255-271 | the parser stops at the first "Mem:" line |
| SystemMonitor.LinuxWritesFromFirstMemLine | monitoring/system_monitor.go:256-270 | only the first "Mem:" line counts, and it writes only with at least 7 fields |
| SystemMonitor.ParseLinuxMemory | monitoring/system_monitor.go:252-274 | always nil; memory taken from that line, else unchanged |
| SystemMonitor.SetPages | monitoring/system_monitor.go:286-294 | one page counter set, the others unchanged |
| SystemMonitor.PagesStep | monitoring/system_monitor.go:286-294 | a line changes at most the counter its label names |
| SystemMonitor.PagesOfAppend | monitoring/system_monitor.go:285-295 | scanning lines one after another composes |
| SystemMonitor.PagesUntouched | monitoring/system_monitor.go:285-295 | a counter no line names keeps its value |
| SystemMonitor.LastPageLineWins | monitoring/system_monitor.go:285-295 | the last scanned line for a counter decides it |
| SystemMonitor.MacOSTotals | monitoring/system_monitor.go:281-299 | with 4096-byte pages: used = active + inactive + wired, free = free pages, total = used + free |
| SystemMonitor.ParseMacOSMemory | monitoring/system_monitor.go:276-309 | always nil; writes those totals |
| SystemMonitor.LoadAverageCases | monitoring/system_monitor.go:173-182 | no "load average:" leaves the loads; a label at the very end panics (the slice at idx+14 exceeds the length); otherwise the loads are scanned from idx+14 |
| SystemMonitor.ScanUsualLoads | monitoring/system_monitor.go:175-181 | "x, y, z" sets the 1, 5 and 15 minute loads from x, y and z, each kept when it does not scan |
| SystemMonitor.CollectLoadAverage | monitoring/system_monitor.go:158-185 | the method's state and status follow `CollectLoad` |
| SystemMonitor.CPUTextStrips | monitoring/system_monitor.go:138-140 | CPU text is trimmed, then one "%", then one "us" is stripped |
| SystemMonitor.CPUCommand | monitoring/system_monitor.go:113-131 | the command is refused with "unsupported OS" exactly when local and neither darwin nor linux |
| SystemMonitor.CollectCPUMetrics | monitoring/system_monitor.go:110-155 | command or parse failure is an error; otherwise CPU is set and load average collected |
| SystemMonitor.MemoryCommand | monitoring/system_monitor.go:191-208 | refused exactly when local, not Docker, and neither darwin nor linux |
| SystemMonitor.CollectMemoryMetrics | monitoring/system_monitor.go:188-227 | Docker, Linux/remote or macOS parser, by that precedence |
| SystemMonitor.ConnectionCommand | monitoring/system_monitor.go:322-331 | refused exactly when local and neither darwin nor linux |
| SystemMonitor.ConnectionCountRead | monitoring/system_monitor.go:333-346 | a count printed by the command sets both TCPEstablished and TCPConnections |
| SystemMonitor.CollectConnectionMetrics | monitoring/system_monitor.go:319-347 | the method follows `CollectConnections` |
| SystemMonitor.CollectFatality | monitoring/system_monitor.go:85-106 | a CPU or memory failure fails collection, a panic propagates, and a connection failure does not fail it |
| SystemMonitor.CollectedRecord | monitoring/system_monitor.go:77-106 | a collected record carries the time and core count, zero network and time-wait, TCPConnections = TCPEstablished, the count read when the command succeeds and its output parses, and 0 when the command is refused, fails or prints no number |
| SystemMonitor.SystemMetrics.constructor | monitoring/system_monitor.go:78-81 | timestamp and cores set, everything else 0 |
| SystemMonitor.CollectMetrics | monitoring/system_monitor.go:77-107 | nil and the error, or the record `Collect` describes |
| Manager.SuccessesContents | monitoring/manager.go:143-172 | the snapshots are exactly the successful results, none when disabled |
| Manager.SuccessesCount | monitoring/manager.go:143-172 | one snapshot per success |
| Manager.FirstCrash | monitoring/manager.go:159-160 | the first tick whose collection panics, every earlier one does not, or the number of ticks when none does |
| Manager.MonitoringManager.TakeSnapshots | monitoring/manager.go:142-172 | the Prometheus snapshot then the system snapshot appended on success; a crash reported iff the system monitor exists and its collection panics |
| Manager.MonitoringManager.constructor | monitoring/manager.go:76-96 | empty snapshot lists and the configuration flags |
| Manager.MonitoringManager.StartMonitoring | monitoring/manager.go:99-130 | start time set; the initial snapshots appended as above; a crash reported iff the system monitor exists and its collection panics; otherwise nil |
| Manager.MonitoringManager.PeriodicCollection | monitoring/manager.go:133-174 | the ticks run up to and including the first whose collection panics, which is reported as a crash, or all of them; they append exactly their successful results, in order |
| Manager.MonitoringManager.StopMonitoring | monitoring/manager.go:177-213 | end time set, last snapshots appended, a crash reported iff the last collection panics, the report generated, and the save error wrapped only when there was no crash and an output directory is set |
| Manager.PeakOfIsMax | monitoring/manager.go:288-293 | a peak that starts at 0 is max(0, values) |
| Manager.PeakConnectionsIsMax | monitoring/manager.go:294-296 | the integer peak of TCPEstablished, from 0 |
| Manager.AveragesBelowPeaks | monitoring/manager.go:281-303 | the averages never exceed the matching peaks, and the peaks are ≥ 0 |
| Manager.MonitoringManager.CalculateSystemSummary | monitoring/manager.go:273-306 | nil for no snapshots; otherwise sums divided by count and peaks from 0 (`SummaryOf`) |
| Manager.InsightRules | monitoring/manager.go:234-266 | each insight appears iff its section is present and its value strictly exceeds its threshold: 5, 80, 1024, 90, 85, 1000 |
| Manager.InsightsInOrder | monitoring/manager.go:234-266 | the insights occur in the fixed order, each at most once |
| Manager.NoInsights | monitoring/manager.go:217-219 | the list is empty (not nil) iff no threshold is exceeded |
| Manager.PrometheusSection | monitoring/manager.go:226-231 | the Prometheus section appears iff there are ≥ 2 snapshots, with the diff of the first and the last |
| Manager.SystemSection | monitoring/manager.go:249-252 | the system section appears iff there are ≥ 2 snapshots, with their summary |
| Manager.QuietReport | monitoring/manager.go:225-267 | with both sections absent there are no insights |
| Manager.MonitoringManager.GenerateReport | monitoring/manager.go:216-270 | the report equals `ReportOf` the snapshots and times |
| FiberBackend.CreateStatuses | examples/fiber-backend-with-monitoring/main.go:211-258 | 400 iff the body does not parse or UserId, From, Subject or To is empty; 500 iff a complete request's insert fails; 201 otherwise |
| FiberBackend.CreatedDocument | examples/fiber-backend-with-monitoring/main.go:223-241 | the stored document copies the request, an empty Type becomes "sent", and CreatedAt = UpdatedAt = now |
| FiberBackend.QueryIntReads | examples/fiber-backend-with-monitoring/main.go:266-267 | a decimal query value reads as itself, an absent one as the default |
| FiberBackend.Wrap64 | examples/fiber-backend-with-monitoring/main.go:268 | Go int arithmetic: the result is in int64 and congruent to the exact value modulo 2^64, so exact when in range |
| FiberBackend.Wrap64Unique | examples/fiber-backend-with-monitoring/main.go:268 | the int64 value congruent modulo 2^64 is unique, so `Wrap64` is two's-complement wrap-around |
| FiberBackend.SkipArithmetic | examples/fiber-backend-with-monitoring/main.go:268 | skip = (page−1)·limit for ordinary values, unclamped: page 1 skips 0, page ≤ 0 with a positive limit is negative |
| FiberBackend.ListBehaviour | examples/fiber-backend-with-monitoring/main.go:260-302 | 400 iff userId is empty; page 1 and limit 20 by default; 500 when the find or decode fails; total = number of returned documents |
| FiberBackend.SearchBehaviour | examples/fiber-backend-with-monitoring/main.go:304-356 | 400 iff userId or query is empty; the same paging; the query echoed; total = number returned |
| FiberBackend.RuneLabel | examples/fiber-backend-with-monitoring/main.go:189-195 | the label as written is one character: the status itself when it is a code point, otherwise from its low 32 bits or U+FFFD |
| FiberBackend.RuneLabelIsNotDecimal | examples/fiber-backend-with-monitoring/main.go:189-195 | for every status ≥ 10 that label is not the decimal status (200 gives "È") |
| FiberBackend.StatusLabelReadsBack | examples/fiber-backend-with-monitoring/main.go:189-195 | the corrected decimal label reads back as its status |
| FiberBackend.MiddlewareCounts | examples/fiber-backend-with-monitoring/main.go:188-196 | "/metrics" is never counted; any other request is counted and timed once, and counted as an error iff its status ≥ 400 |
| GoStrings.JoinSplit | monitoring/prometheus_client.go:112 | `strings.Split` loses nothing: joining its parts gives back the text |
| GoStrings.SplitCount | monitoring/system_monitor.go:231-232 | Split gives one more part than the separator occurs |
| GoStrings.AtoiItoa | monitoring/system_monitor.go:338 | `Atoi` reads back every int64 `Itoa` writes |
| GoStrings.IndexIsFirst | monitoring/system_monitor.go:174 | `Index` is the first occurrence, or -1 |
| GoStrings.TrimSpacePadded | monitoring/prometheus_client.go:115 | `TrimSpace` removes exactly the surrounding white space |
| Durations.GoDiv | benchmark/stress-test.go:91 | Go's integer division truncates toward zero: the remainder has the sign of the dividend and is smaller than the divisor |
| Durations.GoDivUnique | benchmark/stress-test.go:91 | that remainder rule determines the quotient |
| Durations.MinFromIsMin | benchmark/stress-test.go:130-132 | the running minimum from a start value is the least of the start and the elements, and is one of them |
| Durations.MaxFromIsMax | benchmark/stress-test.go:133-135 | the running maximum from a start value is the greatest of the start and the elements, and is one of them |
| Durations.MeanBounds | benchmark/search_benchmark.go:140-146 | the truncated mean of non-negative durations lies between any lower and upper bound of them |
| GoStrings.Atoi | monitoring/system_monitor.go:338 | a parsed value is always in the int64 range |
| GoStrings.ToUpper | monitoring/system_monitor.go:357 | maps each character with `UpperChar`, keeping the length: a–z, ı and ſ become upper case, which decides every comparison with the ASCII unit words |
| GoStrings.TrimSuffix | monitoring/system_monitor.go:139-140 | with the suffix present, the result plus the suffix gives back the text; otherwise the text is unchanged |
| GoStrings.Split | monitoring/system_monitor.go:231 | Split always returns at least one part |
| GoStrings.SplitPartsFree | monitoring/system_monitor.go:231 | no part contains the separator |
| GoStrings.Fields | monitoring/prometheus_client.go:123 | every field is non-empty and free of white space |
| GoStrings.FieldsAllSpace | monitoring/prometheus_client.go:123 | a line has no field iff it is all white space |
| GoStrings.FieldsSkipSpace | monitoring/prometheus_client.go:123 | leading white space does not change the fields |
| GoStrings.FieldsCons | monitoring/prometheus_client.go:123 | a field followed by white space or the end is the first field, then the fields of the rest |
| GoStrings.FieldsPadded | monitoring/system_monitor.go:257 | one word padded with white space on both sides is the single field |
| GoStrings.FieldsNameValue | monitoring/prometheus_client.go:123 | "name value" with any white space between splits into exactly [name, value] |
| Collections.WithoutContents | handler/db_handler.go:90-98 | removing the sender removes every occurrence of it and keeps every other id as often as it occurs |
| MailStore.PerformAllSucceed | handler/db_handler.go:27-130 | when every write succeeds, the writes are all applied in order and no error is returned |
| DbHandler.PlanTypes | handler/db_handler.go:51-113 | among the inserted copies exactly the first is Type 1 (sent) |
| Manager.DiffInsightRules | monitoring/manager.go:234-246 | the error-rate, CPU and memory insights appear iff their values exceed 5, 80 and 1024 |
| Manager.SummaryInsightRules | monitoring/manager.go:254-266 | the CPU-peak, memory-pressure and connection insights appear iff their values exceed 90, 85 and 1000 |
| Durations.MinMaxBounds | benchmark/search_benchmark.go:131-136 | a running min/max from a start value bounds the start and every element |

## Left out

- Concurrency: goroutines, `sync.WaitGroup`, atomics, the ticker and `ctx.Done()`. The stress-test workers are one sequential recorder. The unsynchronised min/max updates are a data race that the model does not capture.
- The wall-clock loop and `time.Sleep`: durations, elapsed times and timestamps are arguments.
- `math/rand`: every draw is an argument constrained to the range `rand.Intn` would produce.
- The inputs for which `rand.Intn` panics are excluded by preconditions, not modelled: `StressTest.SelectOperation` requires a positive total weight (`rand.Intn(0)`); `DataGenerator.SeedData` requires `numUsers >= 0` and users whenever `mailsPerUser > 0`; `RequestGenerator.GenerateCreateMailRequest`, `RequestGenerator.GenerateListMailsRequest`, `RequestGenerator.GenerateSearchMailsRequest`, `RequestGenerator.GetRandomUserID` and `StressTest.PickCreateMail` require a non-empty user list (their index draws are bounded by it).
- `primitive.ObjectIDFromHex` of the MongoDB driver and Go's `encoding/hex` are library code outside the repository; `Models.ObjectIDFromHex` follows their behaviour: the byte length first, then the bytes in order, with the error text of `hex.InvalidByteError`.
- The ticker period `time.Second / RequestRate` is not modelled; it needs RequestRate > 0.
- MongoDB: the driver calls, sorting by createdAt and the regex search are not modelled. Instead there is a store whose writes and replied-to lookup take given outcomes. The user filter is `DbHandler.OwnedBy`.
- DbHandler.ListMailsGating: the error returns of `Find` and `cursor.All` in `ListMails` and `SearchMails` are not modelled. Only the options and the page they select are. The same holds for `DbHandler.SearchMailsGating`.
- Search strategies: search/*.go and handler/mail_handler.go are not part of this model. Each strategy is a name, a setup outcome and query outcomes.
- HTTP: `ScrapeMetrics`, `MonitorDuringTest`, handler/api_handler.go, generator/api_client.go, and Fiber routing and body parsing. A body that fails to parse is `None`.
- Fiber's `QueryInt` is not part of this model. It is taken as `Atoi` with the default on failure.
- Shell commands: the output of `exec.CommandContext` is the result of a `run` parameter; the model covers only its parsing.
- Floating point: float rounding and `ParseFloat` range errors. Percentages, rates and averages are `real` with no rounding claims.
- Printing and rendering: `fmt.Printf` statements, `PrintSummary`, realtime logging, report formatting, insight message text and `Duration.String`. The report keeps the duration as an int.
- File I/O: `ExportToJSON`, `ExportMetrics`, `saveReport`, and `os.MkdirAll` in `NewMonitoringManager`. A save error is an argument of `StopMonitoring`.
- `collectNetworkMetrics` is a stub returning nil, so network fields stay 0.
- The process fields of `SystemMetrics` are never written and are not modelled.
- cmd/main.go and config/config.go are not part of this model. Neither is the three-argument `NewStressTest` call there, which does not match the two-argument declaration.
- `prepareUsers` and `GetUserIDs`: the user ids are an argument.
- The bodies of `listMails` and `searchMails` in the stress test are database reads. Their outcome is the recorded failed flag.
- The example backend's `healthHandler`, the active-connection gauge, the histogram buckets, and the create handler's DB query counter and timer.
- In the backend, a JSON body without `to` is not told apart from an empty list.
- `Manager.MonitoringManager.PeriodicCollection`: the ticks are a given sequence of outcomes. Cancellation and timing are not modelled.
- A panic in `CollectMetrics` ends the Go process, so `StartMonitoring`, `periodicCollection` and `StopMonitoring` never return from it; the model returns `crashed` instead, and what else it returns then (the report of `StopMonitoring`) is never seen by a caller.
- `GoStrings.Split`, `GoStrings.Fields` and `GoStrings.TrimSpace` cover Unicode white space as Go's `unicode.IsSpace` defines it, on code points, not bytes.
- GoStrings.ToUpper: only a–z, ı (U+0131) and ſ (U+017F) are upper-cased. Every other non-ASCII letter keeps its case, unlike Go's `strings.ToUpper`. Only comparisons with the ASCII unit words depend on it, and those come out as in Go.
- `FiberBackend.SkipArithmetic`: exactness is stated only for |page|, |limit| ≤ 2^31. Outside that range the skip wraps around as `Wrap64` describes.

## Findings

| source | as written | input that shows it | evidently intended | confidence | as-written member | corrected member |
|---|---|---|---|---|---|---|
| examples/fiber-backend-with-monitoring/main.go:189-195 | the status label of `http_requests_total` and `http_errors_total` is `string(rune(status))`, the single character whose code point is the status | status 200 is labelled "È" (U+00C8) and 404 "Ɣ" (U+0194), not "200" and "404" | the decimal status, `strconv.Itoa(status)` | not executed | FiberBackend.RuneLabel (counterexample: FiberBackend.RuneLabelIsNotDecimal) | FiberBackend.StatusLabel (proved: FiberBackend.StatusLabelReadsBack), used by FiberBackend.Middleware |
