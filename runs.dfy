/**
 * Whole runs of the aggregator: any interleaving of arriving results and elapsed
 * intervals, started from a fresh aggregate, and the invariants every state it
 * reaches satisfies.
 */
module Runs {
  import opened Stats
  import opened Outcomes
  import opened Windows

  /** What drives the aggregator: a result arrives and is merged, or an interval elapses and the sampler ticks. */
  datatype Event = Arrived(result: TestResult) | IntervalElapsed

  /** The aggregate counters, the current figures, and the sampler's window. */
  datatype Aggregate = Aggregate(totals: Totals, rates: Rates, window: Window)

  const Start := Aggregate(Zero, ZeroRates, EmptyWindow)

  /** One event: `Merge` for an arrival, a sampler tick for an elapsed interval. */
  function Step(a: Aggregate, e: Event): (b: Aggregate)
    requires Aligned(a.window)
    ensures Aligned(b.window)
  {
    match e
    case Arrived(r) => a.(totals := Merged(a.totals, r))
    case IntervalElapsed =>
      TickSlides(a.window, a.totals);
      var w := Ticked(a.window, a.totals);
      Aggregate(a.totals.(intervalCount := 0), RatesOf(w), w)
  }

  function RunFrom(a: Aggregate, es: seq<Event>): (b: Aggregate)
    requires Aligned(a.window)
    ensures Aligned(b.window)
    decreases es
  {
    if es == [] then a else RunFrom(Step(a, es[0]), es[1..])
  }

  /** How many intervals elapse during `es`. */
  function Ticks(es: seq<Event>): nat
  {
    if es == [] then 0 else (if es[0].IntervalElapsed? then 1 else 0) + Ticks(es[1..])
  }

  function Arrivals(rs: seq<TestResult>): seq<Event>
  {
    if rs == [] then [] else [Arrived(rs[0])] + Arrivals(rs[1..])
  }

  predicate AllNonNegative(h: seq<int>)
  {
    forall i :: 0 <= i < |h| ==> h[i] >= 0
  }

  predicate NonNegative(w: Window)
  {
    AllNonNegative(w.intervals) && AllNonNegative(w.success) && AllNonNegative(w.gets) &&
    AllNonNegative(w.puts) && AllNonNegative(w.deletes) && AllNonNegative(w.throttles) &&
    AllNonNegative(w.consistency)
  }

  /** The registers never run ahead of the counters they copy. */
  predicate Behind(w: Window, t: Totals)
  {
    w.totalSuccess <= t.numSuccess && w.totalGet <= t.numGet && w.totalPut <= t.numPut &&
    w.totalDelete <= t.numDelete && w.totalThrottles <= t.numThrottled &&
    w.totalConsistency <= t.numConsistency
  }

  /**
   * What holds after `ticks` elapsed intervals: the request accounting; all seven
   * histories of length Min(ticks, MaxHistory) with no negative delta; registers
   * behind the counters; and current figures that are zero before the first tick
   * and the means of the histories after it.
   */
  predicate Reachable(a: Aggregate, ticks: nat)
  {
    Accounted(a.totals) && Aligned(a.window) &&
    |a.window.success| == Min(ticks, MaxHistory) &&
    NonNegative(a.window) && Behind(a.window, a.totals) &&
    (ticks == 0 ==> a.rates == ZeroRates) &&
    (ticks > 0 ==> Filled(a.window) && a.rates == RatesOf(a.window))
  }

  lemma SlidNonNegative(h: seq<int>, d: int, h2: seq<int>)
    requires AllNonNegative(h) && d >= 0 && Slid(h, d, h2)
    ensures AllNonNegative(h2)
  {
    forall i | 0 <= i < |h2| ensures h2[i] >= 0 {
      var k := |h| + 1 - |h2|;
      assert h2[i] == (h + [d])[k + i];
    }
  }

  lemma {:induction false} StepKeepsReachable(a: Aggregate, ticks: nat, e: Event)
    requires Reachable(a, ticks)
    ensures Reachable(Step(a, e), ticks + (if e.IntervalElapsed? then 1 else 0))
  {
    match e
    case Arrived(r) =>
      MergeKeepsAccounted(a.totals, r);
      MergeAppendsErrors(a.totals, r);
    case IntervalElapsed =>
      TickKeepsReachable(a, ticks);
  }

  /** A tick: every history slides by a non-negative delta and the current figures become their means. */
  lemma {:induction false} TickKeepsReachable(a: Aggregate, ticks: nat)
    requires Reachable(a, ticks)
    ensures Reachable(Step(a, IntervalElapsed), ticks + 1)
  {
    var w, t := a.window, a.totals;
    TickSlides(w, t);
    var v := Ticked(w, t);
    SlidNonNegative(w.intervals, t.intervalCount, v.intervals);
    SlidNonNegative(w.success, t.numSuccess - w.totalSuccess, v.success);
    SlidNonNegative(w.gets, t.numGet - w.totalGet, v.gets);
    SlidNonNegative(w.puts, t.numPut - w.totalPut, v.puts);
    SlidNonNegative(w.deletes, t.numDelete - w.totalDelete, v.deletes);
    SlidNonNegative(w.throttles, t.numThrottled - w.totalThrottles, v.throttles);
    SlidNonNegative(w.consistency, t.numConsistency - w.totalConsistency, v.consistency);
    var b := Step(a, IntervalElapsed);
    assert b.window == v && b.totals == t.(intervalCount := 0) && b.rates == RatesOf(v);
    assert |v.success| == Min(ticks + 1, MaxHistory);
  }

  lemma {:induction false} RunKeepsReachable(a: Aggregate, ticks: nat, es: seq<Event>)
    requires Reachable(a, ticks)
    ensures Reachable(RunFrom(a, es), ticks + Ticks(es))
    decreases es
  {
    if es != [] {
      StepKeepsReachable(a, ticks, es[0]);
      RunKeepsReachable(Step(a, es[0]), ticks + (if es[0].IntervalElapsed? then 1 else 0), es[1..]);
    }
  }

  /** One event never lowers a lifetime counter and never drops an error entry. */
  lemma {:induction false} StepGrows(a: Aggregate, e: Event)
    requires Aligned(a.window)
    ensures Grown(a.totals, Step(a, e).totals)
  {
    if e.Arrived? {
      MergeAppendsErrors(a.totals, e.result);
    }
  }

  /** Over any mix of arrivals and ticks, no lifetime counter goes down and both error lists only grow. */
  lemma {:induction false} RunGrows(a: Aggregate, es: seq<Event>)
    requires Aligned(a.window)
    ensures Grown(a.totals, RunFrom(a, es).totals)
    decreases es
  {
    if es != [] {
      StepGrows(a, es[0]);
      RunGrows(Step(a, es[0]), es[1..]);
    }
  }

  /**
   * Every run from a fresh aggregate: successes never exceed requests, requests
   * are gets + puts + deletes + 4 * consistency checks, the histories are equally
   * long with Min(ticks, MaxHistory) entries and hold no negative delta.
   */
  lemma {:induction false} EveryRunReachable(es: seq<Event>)
    ensures Reachable(RunFrom(Start, es), Ticks(es))
  {
    StartReachable();
    RunFromStart(Start, es);
  }

  lemma {:induction false} RunFromStart(a: Aggregate, es: seq<Event>)
    requires Reachable(a, 0)
    ensures Reachable(RunFrom(a, es), Ticks(es))
  {
    RunKeepsReachable(a, 0, es);
  }

  lemma StartReachable()
    ensures Reachable(Start, 0)
  {
  }

  /** Once an interval has elapsed, every current figure is a non-negative value within its history's range. */
  lemma {:induction false} ReachableRatesBounded(a: Aggregate, ticks: nat)
    requires Reachable(a, ticks) && ticks > 0
    ensures var w, r := a.window, a.rates;
      0 <= r.requests && MinOf(w.intervals) <= r.requests <= MaxOf(w.intervals) &&
      0 <= r.success && MinOf(w.success) <= r.success <= MaxOf(w.success) &&
      0 <= r.gets && MinOf(w.gets) <= r.gets <= MaxOf(w.gets) &&
      0 <= r.puts && MinOf(w.puts) <= r.puts <= MaxOf(w.puts) &&
      0 <= r.deletes && MinOf(w.deletes) <= r.deletes <= MaxOf(w.deletes) &&
      0 <= r.throttled && MinOf(w.throttles) <= r.throttled <= MaxOf(w.throttles) &&
      0 <= r.consistency && MinOf(w.consistency) <= r.consistency <= MaxOf(w.consistency)
  {
    var w := a.window;
    RatesWithinHistory(w);
    MeanNonNegative(w.intervals);
    MeanNonNegative(w.success);
    MeanNonNegative(w.gets);
    MeanNonNegative(w.puts);
    MeanNonNegative(w.deletes);
    MeanNonNegative(w.throttles);
    MeanNonNegative(w.consistency);
  }

  /** A run of arrivals only merges: the window and the current figures stay as they were. */
  lemma {:induction false} ArrivalsOnlyMerge(a: Aggregate, rs: seq<TestResult>)
    requires Aligned(a.window)
    ensures RunFrom(a, Arrivals(rs)) == a.(totals := MergeAll(a.totals, rs))
    decreases rs
  {
    if rs != [] {
      var es := Arrivals(rs);
      assert es[0] == Arrived(rs[0]) && es[1..] == Arrivals(rs[1..]);
      ArrivalsOnlyMerge(Step(a, es[0]), rs[1..]);
    }
  }

  /**
   * Between two ticks, whatever arrives is exactly what the second tick records:
   * the newest entry of each history is the contribution of the merged results,
   * with four requests per consistency check.
   */
  lemma {:induction false} NextTickCountsArrivals(a: Aggregate, rs: seq<TestResult>)
    requires Aligned(a.window)
    ensures var b := Step(a, IntervalElapsed);
      var c := Step(RunFrom(b, Arrivals(rs)), IntervalElapsed);
      Filled(c.window) &&
      Last(c.window.intervals) == Total(rs, RequestWeight) &&
      Last(c.window.success) == Total(rs, SuccessWeight) &&
      Last(c.window.gets) == Total(rs, GetCount) &&
      Last(c.window.puts) == Total(rs, PutCount) &&
      Last(c.window.deletes) == Total(rs, DeleteCount) &&
      Last(c.window.throttles) == Total(rs, ThrottledCount) &&
      Last(c.window.consistency) == Total(rs, ConsistencyCount)
  {
    TickSlides(a.window, a.totals);
    var b := Step(a, IntervalElapsed);
    ArrivalsOnlyMerge(b, rs);
    SinceLastTick(b.totals, b.window, rs);
  }
}
