/**
 * The interval sampler as a value-level specification: seven histories of
 * per-interval deltas, the six "total at the last tick" registers, what one tick
 * does to them, and the current rates computed from the histories.
 */
module Windows {
  import opened Stats
  import opened Outcomes

  /**
   * Entries a history keeps. The sampler drops the oldest entry when an append
   * makes a history longer than four, so at most four entries remain, although
   * the histories are named after the last five intervals.
   */
  const MaxHistory: nat := 4

  /** The sampler's own state: the histories and the totals seen at the last tick. */
  datatype Window = Window(
    intervals: seq<int>,
    success: seq<int>,
    gets: seq<int>,
    puts: seq<int>,
    deletes: seq<int>,
    throttles: seq<int>,
    consistency: seq<int>,
    totalSuccess: int,
    totalGet: int,
    totalPut: int,
    totalDelete: int,
    totalThrottles: int,
    totalConsistency: int)

  const EmptyWindow := Window([], [], [], [], [], [], [], 0, 0, 0, 0, 0, 0)

  /** The smoothed "current" figures of `TestResults`, one per history. */
  datatype Rates = Rates(
    requests: int,
    success: int,
    gets: int,
    puts: int,
    deletes: int,
    throttled: int,
    consistency: int)

  const ZeroRates := Rates(0, 0, 0, 0, 0, 0, 0)

  /** All seven histories have the same length, at most MaxHistory. */
  predicate Aligned(w: Window)
  {
    |w.success| <= MaxHistory &&
    |w.intervals| == |w.success| && |w.gets| == |w.success| && |w.puts| == |w.success| &&
    |w.deletes| == |w.success| && |w.throttles| == |w.success| && |w.consistency| == |w.success|
  }

  predicate Filled(w: Window)
  {
    w.intervals != [] && w.success != [] && w.gets != [] && w.puts != [] &&
    w.deletes != [] && w.throttles != [] && w.consistency != []
  }

  /**
   * The first half of a tick against the aggregate `t`: every history gets its
   * delta appended (the interval count itself for the overall history), and the
   * registers take the current counters.
   */
  function Pushed(w: Window, t: Totals): Window
  {
    Window(
      w.intervals + [t.intervalCount],
      w.success + [t.numSuccess - w.totalSuccess],
      w.gets + [t.numGet - w.totalGet],
      w.puts + [t.numPut - w.totalPut],
      w.deletes + [t.numDelete - w.totalDelete],
      w.throttles + [t.numThrottled - w.totalThrottles],
      w.consistency + [t.numConsistency - w.totalConsistency],
      t.numSuccess, t.numGet, t.numPut, t.numDelete, t.numThrottled, t.numConsistency)
  }

  /** Every history loses its oldest entry. */
  function Dropped(w: Window): Window
    requires Filled(w)
  {
    w.(intervals := w.intervals[1..], success := w.success[1..], gets := w.gets[1..],
       puts := w.puts[1..], deletes := w.deletes[1..], throttles := w.throttles[1..],
       consistency := w.consistency[1..])
  }

  /**
   * One tick: push the deltas, then, when the success history has grown past
   * MaxHistory, drop the oldest entry of every history.
   */
  function Ticked(w: Window, t: Totals): (v: Window)
    ensures Aligned(w) ==> Aligned(v) && Filled(v) && |v.success| == Min(|w.success| + 1, MaxHistory)
  {
    var p := Pushed(w, t);
    if |p.success| > MaxHistory then Dropped(p) else p
  }

  /** The current rates: the truncated mean of each history. */
  function RatesOf(w: Window): Rates
    requires Filled(w)
  {
    Rates(Mean(w.intervals), Mean(w.success), Mean(w.gets), Mean(w.puts),
          Mean(w.deletes), Mean(w.throttles), Mean(w.consistency))
  }

  /** `h2` is the sliding window `h` after pushing `d`: the newest Min(|h| + 1, MaxHistory) entries of h + [d]. */
  predicate Slid(h: seq<int>, d: int, h2: seq<int>)
  {
    |h2| == Min(|h| + 1, MaxHistory) && h2 == (h + [d])[|h| + 1 - |h2|..]
  }

  /** The registers hold the current counters and the open interval is empty: the state right after a tick. */
  predicate Synced(t: Totals, w: Window)
  {
    t.intervalCount == 0 &&
    w.totalSuccess == t.numSuccess && w.totalGet == t.numGet && w.totalPut == t.numPut &&
    w.totalDelete == t.numDelete && w.totalThrottles == t.numThrottled &&
    w.totalConsistency == t.numConsistency
  }

  lemma PushSlides(h: seq<int>, d: int, h2: seq<int>)
    requires |h| <= MaxHistory
    requires h2 == if |h| + 1 > MaxHistory then (h + [d])[1..] else h + [d]
    ensures Slid(h, d, h2)
  {
  }

  /**
   * A tick slides every history by its delta, keeps the histories aligned and
   * non-empty, and leaves the registers synchronised with the counters once the
   * interval count is reset.
   */
  lemma TickSlides(w: Window, t: Totals)
    requires Aligned(w)
    ensures var v := Ticked(w, t);
      Aligned(v) && Filled(v) && Synced(t.(intervalCount := 0), v) &&
      Slid(w.intervals, t.intervalCount, v.intervals) &&
      Slid(w.success, t.numSuccess - w.totalSuccess, v.success) &&
      Slid(w.gets, t.numGet - w.totalGet, v.gets) &&
      Slid(w.puts, t.numPut - w.totalPut, v.puts) &&
      Slid(w.deletes, t.numDelete - w.totalDelete, v.deletes) &&
      Slid(w.throttles, t.numThrottled - w.totalThrottles, v.throttles) &&
      Slid(w.consistency, t.numConsistency - w.totalConsistency, v.consistency)
  {
    var v := Ticked(w, t);
    PushSlides(w.intervals, t.intervalCount, v.intervals);
    PushSlides(w.success, t.numSuccess - w.totalSuccess, v.success);
    PushSlides(w.gets, t.numGet - w.totalGet, v.gets);
    PushSlides(w.puts, t.numPut - w.totalPut, v.puts);
    PushSlides(w.deletes, t.numDelete - w.totalDelete, v.deletes);
    PushSlides(w.throttles, t.numThrottled - w.totalThrottles, v.throttles);
    PushSlides(w.consistency, t.numConsistency - w.totalConsistency, v.consistency);
  }

  /** Every current rate lies between the smallest and the largest entry of its history. */
  lemma RatesWithinHistory(w: Window)
    requires Filled(w)
    ensures var r := RatesOf(w);
      MinOf(w.intervals) <= r.requests <= MaxOf(w.intervals) &&
      MinOf(w.success) <= r.success <= MaxOf(w.success) &&
      MinOf(w.gets) <= r.gets <= MaxOf(w.gets) &&
      MinOf(w.puts) <= r.puts <= MaxOf(w.puts) &&
      MinOf(w.deletes) <= r.deletes <= MaxOf(w.deletes) &&
      MinOf(w.throttles) <= r.throttled <= MaxOf(w.throttles) &&
      MinOf(w.consistency) <= r.consistency <= MaxOf(w.consistency)
  {
    MeanWithin(w.intervals);
    MeanWithin(w.success);
    MeanWithin(w.gets);
    MeanWithin(w.puts);
    MeanWithin(w.deletes);
    MeanWithin(w.throttles);
    MeanWithin(w.consistency);
  }

  /**
   * After a tick, the next tick records exactly what was merged in between: the
   * newest entry of each history is the contribution of those results.
   */
  lemma {:induction false} SinceLastTick(t: Totals, w: Window, rs: seq<TestResult>)
    requires Synced(t, w) && Aligned(w)
    ensures var v := Ticked(w, MergeAll(t, rs));
      Filled(v) &&
      Last(v.intervals) == Total(rs, RequestWeight) &&
      Last(v.success) == Total(rs, SuccessWeight) &&
      Last(v.gets) == Total(rs, GetCount) &&
      Last(v.puts) == Total(rs, PutCount) &&
      Last(v.deletes) == Total(rs, DeleteCount) &&
      Last(v.throttles) == Total(rs, ThrottledCount) &&
      Last(v.consistency) == Total(rs, ConsistencyCount)
  {
    TickedLast(w, MergeAll(t, rs));
  }

  /** The newest entry of each history after a tick is the delta just pushed. */
  lemma TickedLast(w: Window, t: Totals)
    requires Aligned(w)
    ensures var v := Ticked(w, t);
      Filled(v) &&
      Last(v.intervals) == t.intervalCount &&
      Last(v.success) == t.numSuccess - w.totalSuccess &&
      Last(v.gets) == t.numGet - w.totalGet &&
      Last(v.puts) == t.numPut - w.totalPut &&
      Last(v.deletes) == t.numDelete - w.totalDelete &&
      Last(v.throttles) == t.numThrottled - w.totalThrottles &&
      Last(v.consistency) == t.numConsistency - w.totalConsistency
  {
  }

}
