# Load-test result aggregator

A Dafny model of the result aggregator of the file-server load tester,
`go_load_test/load_test/test_result_aggregator.go`. Worker goroutines send
classified test results to the aggregator, which does two things:

- It merges each result into lifetime counters (requests, successes, per-kind
  counts, failures, 5xx responses, throttles, an open-interval count) and two
  append-only error lists.
- A background sampler ticks once per interval. It pushes each counter's
  growth since the last tick onto a short history, and it publishes the
  truncated mean of each history as the "current" figure.

The model has five modules:

- `Stats`:
  - `average` as a loop proved against the truncating mean `Mean`, with Go's
    `/` rounding toward zero written out as `GoDiv`.
  - The bounds of the mean.
  - The most-recent-first selection of `PrintErrors`, as a loop proved against
    `RecentFirst`.
- `Outcomes`:
  - A classified result (`TestResult`: a kind and independent flags).
  - The fields `Merge` changes (`Totals`).
  - The net effect of one merge (`Merged`) and of a run of merges
    (`MergeAll`).
  - The request-accounting invariant `Accounted`.
- `Windows`:
  - The sampler's own state (`Window`: seven histories and six registers).
  - One tick as a value-level function (`Pushed`, `Dropped`, `Ticked`).
  - The published figures (`RatesOf`).
  - The sliding-window facts about a tick.
- `Aggregator`: the imperative form of the Go code.
  - `TestResults` is a class with the Go struct's fields. Its `Merge` updates
    them step by step and is proved against `Merged`.
  - `IntervalSampler` holds the sampler goroutine's locals as fields. Its
    `Tick` is proved against `Ticked` and `RatesOf`.
- `Runs`: any interleaving of arrivals and elapsed intervals from a fresh
  aggregate, and the invariants every reachable state satisfies.

What the code does, and the model with it:

- A history keeps at most four entries, despite the `lastFive…` names: the
  code drops the oldest entry when `len > 4` after an append (line 186).
- `average` has no guard for an empty slice, so `Average` requires a non-empty
  input. The sampler calls it only right after an append.
- The current figures are the integer quotient, truncated toward zero.
- The error lists are never capped. Only the listing selects the newest five.

## Model

| member | source | states |
|---|---|---|
| Stats.Average | go_load_test/load_test/test_result_aggregator.go:221-228 | for a non-empty slice, the summing loop returns the sum divided by the length, truncated toward zero (`Mean`) |
| Stats.MeanWithin | go_load_test/load_test/test_result_aggregator.go:221-228 | the truncated mean is at least the smallest entry and at most the largest, whatever the signs |
| Stats.MeanNonNegative | go_load_test/load_test/test_result_aggregator.go:221-228 | a history without negative entries has a non-negative mean |
| Stats.SumWithin | go_load_test/load_test/test_result_aggregator.go:222-225 | the loop's sum lies between length × minimum and length × maximum |
| Stats.RecentFirst | go_load_test/load_test/test_result_aggregator.go:131-139 | the listing shows min(len, 5) entries, and entry i is `list[len-1-i]`: newest first |
| Stats.MostRecent | go_load_test/load_test/test_result_aggregator.go:131-133 | the index loop collects exactly `RecentFirst(list)` |
| Outcomes.Merged | go_load_test/load_test/test_result_aggregator.go:39-90 | one merge adds as many interval counts as requests; the requests it adds are its gets + puts + deletes + 4 × consistency checks; both error lists keep their entries |
| Outcomes.MergeCounts | go_load_test/load_test/test_result_aggregator.go:40-56 | requests and interval count rise by exactly 1, or 4 for CONSISTENCY; successes rise by that weight iff the result succeeded; failures, 5xx and throttles rise by 1 iff their flag is set and otherwise stay |
| Outcomes.MergeCountsOneKind | go_load_test/load_test/test_result_aggregator.go:74-89 | exactly one per-kind counter rises, by one: GET, PUT or CREATE, DELETE, CONSISTENCY; none falls |
| Outcomes.MergeAppendsErrors | go_load_test/load_test/test_result_aggregator.go:58-68 | both error lists keep every entry; the HTTP list grows by at most one, only for an error with a response; the other list grows by at most two; a failed consistency check's message ends up last |
| Outcomes.MergeKeepsAccounted | go_load_test/load_test/test_result_aggregator.go:39-90 | a merge keeps successes ≤ requests, counters non-negative, and requests = gets + puts + deletes + 4 × consistency checks |
| Outcomes.MergeAll | go_load_test/load_test/test_result_aggregator.go:39-90 | after merging a sequence, each counter has grown by the sum of the results' contributions, and each error list has kept its entries and grown by at most one (HTTP) or two (other) per result |
| Outcomes.MergeAllKeepsAccounted | go_load_test/load_test/test_result_aggregator.go:39-90 | any sequence of merges keeps the request accounting, and no lifetime counter goes down |
| Outcomes.MergeCountersCommute | go_load_test/load_test/test_result_aggregator.go:39-90 | the counters after two merges do not depend on their order |
| Windows.Ticked | go_load_test/load_test/test_result_aggregator.go:172-194 | from aligned histories, a tick leaves them aligned and non-empty, with min(len + 1, 4) entries each |
| Windows.TickSlides | go_load_test/load_test/test_result_aggregator.go:172-194 | a tick appends each delta (the interval count for the overall history) and keeps the newest min(len + 1, 4) entries; histories stay aligned and become non-empty; the registers equal the counters |
| Windows.TickedLast | go_load_test/load_test/test_result_aggregator.go:172-178 | after a tick, the newest entry of each history is that counter's growth since the previous tick |
| Windows.RatesWithinHistory | go_load_test/load_test/test_result_aggregator.go:198-204 | each published figure lies between the smallest and the largest entry of its history |
| Windows.SinceLastTick | go_load_test/load_test/test_result_aggregator.go:172-184 | right after a tick, the next tick's newest entries count exactly the contributions of the results merged in between |
| Aggregator.TestResults.constructor | go_load_test/load_test/test_result_aggregator.go:151-155 | a fresh aggregate has every counter zero and both error lists empty |
| Aggregator.TestResults.Merge | go_load_test/load_test/test_result_aggregator.go:39-90 | changes only the merged counters and error lists, and leaves them equal to `Merged` of the old ones; the current figures are outside its frame |
| Aggregator.TestResults.CountOutcome | go_load_test/load_test/test_result_aggregator.go:40-56 | one more request; success, failure, 5xx and throttle counters rise by one exactly when their flag is set |
| Aggregator.TestResults.RecordErrors | go_load_test/load_test/test_result_aggregator.go:58-68 | the error messages of the result are appended at the end of the two lists |
| Aggregator.TestResults.CountKind | go_load_test/load_test/test_result_aggregator.go:74-89 | the interval count and the per-kind counter rise; a consistency check adds three more requests, interval counts and, on success, successes |
| Aggregator.TestResults.RecentErrors | go_load_test/load_test/test_result_aggregator.go:124-140 | the entries listed are the newest five of each list (fewer if shorter), newest first |
| Aggregator.IntervalSampler.constructor | go_load_test/load_test/test_result_aggregator.go:162-165 | the sampler starts with empty histories and zero registers |
| Aggregator.IntervalSampler.Tick | go_load_test/load_test/test_result_aggregator.go:171-206 | the sampler's state becomes `Ticked` of the old state and the old counters, and stays aligned; the aggregate's current figures become the means of the histories; its interval count becomes zero; nothing else in it changes |
| Aggregator.IntervalSampler.Advance | go_load_test/load_test/test_result_aggregator.go:172-194 | push then conditional drop is `Ticked`, and it leaves the histories aligned and non-empty |
| Aggregator.IntervalSampler.Publish | go_load_test/load_test/test_result_aggregator.go:196-206 | the current figures become `RatesOf` the histories and the interval count becomes zero; no other field of the aggregate changes |
| Aggregator.IntervalSampler.PushDeltas | go_load_test/load_test/test_result_aggregator.go:172-184 | the sampler's state becomes `Pushed` of the old state and the counters |
| Aggregator.IntervalSampler.AppendDeltas | go_load_test/load_test/test_result_aggregator.go:172-178 | each history gets its counter's growth since the registers were taken appended at the end |
| Aggregator.IntervalSampler.TakeRegisters | go_load_test/load_test/test_result_aggregator.go:179-184 | the six registers take the current counters |
| Aggregator.IntervalSampler.DropOldest | go_load_test/load_test/test_result_aggregator.go:186-194 | every history loses exactly its oldest entry |
| Aggregator.IntervalSampler.StoreAverages | go_load_test/load_test/test_result_aggregator.go:198-204 | each current figure becomes the truncated mean of its history |
| Runs.Step | go_load_test/load_test/test_result_aggregator.go:171-214 | an arrival merges and a tick advances the window and publishes its means; either keeps the histories aligned |
| Runs.StepKeepsReachable | go_load_test/load_test/test_result_aggregator.go:171-214 | one arrival or tick keeps every invariant of `Reachable`, counting the ticks |
| Runs.TickKeepsReachable | go_load_test/load_test/test_result_aggregator.go:171-206 | a tick keeps the accounting, grows the histories to min(ticks + 1, 4) entries without negative deltas, and publishes their means |
| Runs.RunKeepsReachable | go_load_test/load_test/test_result_aggregator.go:171-214 | any sequence of events keeps `Reachable` |
| Runs.StepGrows | go_load_test/load_test/test_result_aggregator.go:171-214 | one arrival or tick lowers no lifetime counter and drops no error entry |
| Runs.RunGrows | go_load_test/load_test/test_result_aggregator.go:39-214 | over any mix of arrivals and ticks, no lifetime counter goes down and both error lists only grow |
| Runs.EveryRunReachable | go_load_test/load_test/test_result_aggregator.go:39-214 | from a fresh aggregate: successes never exceed requests; requests = gets + puts + deletes + 4 × consistency checks; all seven histories have min(ticks, 4) entries and no negative delta; the current figures are 0 before the first tick and the history means after it |
| Runs.ReachableRatesBounded | go_load_test/load_test/test_result_aggregator.go:196-205 | once a tick has happened, every current figure is non-negative and within the range of its history |
| Runs.ArrivalsOnlyMerge | go_load_test/load_test/test_result_aggregator.go:39-90 | a run of arrivals changes only the counters, by `MergeAll`; window and current figures stay |
| Runs.NextTickCountsArrivals | go_load_test/load_test/test_result_aggregator.go:171-206 | between two ticks, the second tick's newest history entries are exactly the contributions of the results that arrived in between, with four requests per consistency check |

## Left out

- Locking (`resultLock`) and the goroutine: `Merge` and a tick are each one atomic step. `Runs` models their interleaving as a sequence of events.
- Time: the 50 ms polling and the elapsed-interval test (lines 170-171, 197). A tick is an explicit call or event. `startTime` and `interval` are not modelled.
- `PrintResults`: the throughput figures are floating-point and clock-dependent, and the rest is table and colour output. Only the selection of `PrintErrors` is modelled, without printing.
- The ingestion loop and the `FailureChan` send (lines 211-218), and `NewResultAggregator` beyond the zero counters. After the channel closes, the receive yields a zero-value result and line 214 still merges it once. The model does not include that extra merge.
- The classification methods (`WasSuccess`, `WasTestFailure`, `Was5XX`, `WasThrottled`, `WasError`, `Was404`) and `Min` are defined outside this file. Their results are the fields of `TestResult`. The error is given by its text.
- `TestType` is defined outside this file. It is modelled with the five kinds the aggregator distinguishes, so the per-kind chain of `Merge` always matches one branch. The `TestType()` method called at line 66 is taken to return the same `testType` field that lines 76-89 read.
- Go's fixed-width `int`: counters and sums are unbounded integers. Overflow is not modelled.
