/**
 * What one test result contributes to the aggregate: the classified outcome a
 * worker delivers, the lifetime counters and error lists of `TestResults`, and
 * the effect of `Merge` on them stated as a value-level specification.
 */
module Outcomes {

  datatype Option<T> = None | Some(value: T)

  /** The kind of operation a test performed. */
  datatype TestType = GET | PUT | CREATE | DELETE | CONSISTENCY

  /**
   * One classified outcome. The classifications are independent flags, computed
   * by the producer: one result may be a success, an error, a 5xx and a test
   * failure at the same time.
   */
  datatype TestResult = TestResult(
    testType: TestType,
    wasSuccess: bool,
    wasTestFailure: bool,
    was5XX: bool,
    wasThrottled: bool,
    wasError: bool,
    hasResponse: bool,     // an HTTP response is attached
    err: Option<string>,   // the Go error, given by its text
    message: string)

  /** Number of requests a result stands for: a consistency check performs four. */
  function RequestWeight(r: TestResult): nat
  {
    if r.testType == CONSISTENCY then 4 else 1
  }

  function Indicator(b: bool): nat
  {
    if b then 1 else 0
  }

  function SuccessWeight(r: TestResult): nat
  {
    if r.wasSuccess then RequestWeight(r) else 0
  }

  function FailureCount(r: TestResult): nat { Indicator(r.wasTestFailure) }

  function ServerErrorCount(r: TestResult): nat { Indicator(r.was5XX) }

  function ThrottledCount(r: TestResult): nat { Indicator(r.wasThrottled) }

  function GetCount(r: TestResult): nat { Indicator(r.testType == GET) }

  /** CREATE operations are counted as puts. */
  function PutCount(r: TestResult): nat { Indicator(r.testType == PUT || r.testType == CREATE) }

  function DeleteCount(r: TestResult): nat { Indicator(r.testType == DELETE) }

  function ConsistencyCount(r: TestResult): nat { Indicator(r.testType == CONSISTENCY) }

  /** The message an erroneous result with a response adds to the HTTP error list. */
  function HttpErrorsOf(r: TestResult): seq<string>
  {
    if r.wasError && r.hasResponse then [r.message] else []
  }

  /**
   * What a result adds to the other-error list, in order: the error text of an
   * erroneous result without a response, then the message of a failed
   * consistency check.
   */
  function OtherErrorsOf(r: TestResult): seq<string>
  {
    (if r.wasError && !r.hasResponse && r.err.Some? then [r.err.value] else [])
    + (if r.wasTestFailure && r.testType == CONSISTENCY then [r.message] else [])
  }

  /** The fields of `TestResults` that `Merge` changes. */
  datatype Totals = Totals(
    numRequests: int,
    numSuccess: int,
    numGet: int,
    numPut: int,
    numDelete: int,
    numConsistency: int,
    numFailure: int,
    numThrottled: int,
    intervalCount: int,
    num500s: int,
    httpErrors: seq<string>,
    otherErrors: seq<string>)

  /** The state of a freshly built aggregator. */
  const Zero := Totals(0, 0, 0, 0, 0, 0, 0, 0, 0, 0, [], [])

  /**
   * The net effect of merging one result. The requests it adds are the interval
   * counts it adds, and they are made up of its gets, puts, deletes and four per
   * consistency check; both error lists keep their entries.
   */
  function Merged(t: Totals, r: TestResult): (u: Totals)
    ensures u.numRequests - t.numRequests == u.intervalCount - t.intervalCount
    ensures u.numRequests - t.numRequests ==
      (u.numGet - t.numGet) + (u.numPut - t.numPut) + (u.numDelete - t.numDelete) +
      4 * (u.numConsistency - t.numConsistency)
    ensures t.httpErrors <= u.httpErrors && t.otherErrors <= u.otherErrors
  {
    t.(numRequests := t.numRequests + RequestWeight(r),
       numSuccess := t.numSuccess + SuccessWeight(r),
       numGet := t.numGet + GetCount(r),
       numPut := t.numPut + PutCount(r),
       numDelete := t.numDelete + DeleteCount(r),
       numConsistency := t.numConsistency + ConsistencyCount(r),
       numFailure := t.numFailure + FailureCount(r),
       numThrottled := t.numThrottled + ThrottledCount(r),
       intervalCount := t.intervalCount + RequestWeight(r),
       num500s := t.num500s + ServerErrorCount(r),
       httpErrors := t.httpErrors + HttpErrorsOf(r),
       otherErrors := t.otherErrors + OtherErrorsOf(r))
  }

  /** What the results of `rs` contribute to a counter, given per result by `f`. */
  function Total(rs: seq<TestResult>, f: TestResult -> nat): nat
  {
    if rs == [] then 0 else f(rs[0]) + Total(rs[1..], f)
  }

  /**
   * Merging the results of `rs` one after the other: every counter grows by the
   * contributions of the results, and both error lists keep what they held and
   * grow by at most one (HTTP) or two (other) entries per result.
   */
  function MergeAll(t: Totals, rs: seq<TestResult>): (u: Totals)
    ensures u.numRequests == t.numRequests + Total(rs, RequestWeight)
    ensures u.intervalCount == t.intervalCount + Total(rs, RequestWeight)
    ensures u.numSuccess == t.numSuccess + Total(rs, SuccessWeight)
    ensures u.numGet == t.numGet + Total(rs, GetCount)
    ensures u.numPut == t.numPut + Total(rs, PutCount)
    ensures u.numDelete == t.numDelete + Total(rs, DeleteCount)
    ensures u.numConsistency == t.numConsistency + Total(rs, ConsistencyCount)
    ensures u.numFailure == t.numFailure + Total(rs, FailureCount)
    ensures u.numThrottled == t.numThrottled + Total(rs, ThrottledCount)
    ensures u.num500s == t.num500s + Total(rs, ServerErrorCount)
    ensures t.httpErrors <= u.httpErrors && |u.httpErrors| <= |t.httpErrors| + |rs|
    ensures t.otherErrors <= u.otherErrors && |u.otherErrors| <= |t.otherErrors| + 2 * |rs|
    decreases rs
  {
    if rs == [] then t else MergeAll(Merged(t, rs[0]), rs[1..])
  }

  /**
   * Request accounting: counters are never negative, successes never exceed
   * requests, and requests are the per-kind counts with four per consistency check.
   */
  predicate Accounted(t: Totals)
  {
    0 <= t.numSuccess <= t.numRequests &&
    t.numGet >= 0 && t.numPut >= 0 && t.numDelete >= 0 && t.numConsistency >= 0 &&
    t.numFailure >= 0 && t.numThrottled >= 0 && t.num500s >= 0 && t.intervalCount >= 0 &&
    t.numRequests == t.numGet + t.numPut + t.numDelete + 4 * t.numConsistency
  }

  /** `u` is `t` after some merges: no lifetime counter went down and the error lists only grew at the end. */
  predicate Grown(t: Totals, u: Totals)
  {
    t.numRequests <= u.numRequests && t.numSuccess <= u.numSuccess &&
    t.numGet <= u.numGet && t.numPut <= u.numPut && t.numDelete <= u.numDelete &&
    t.numConsistency <= u.numConsistency && t.numFailure <= u.numFailure &&
    t.numThrottled <= u.numThrottled && t.num500s <= u.num500s &&
    t.httpErrors <= u.httpErrors && t.otherErrors <= u.otherErrors
  }

  /**
   * One merge adds the request weight (1, or 4 for a consistency check) to the
   * request and interval counters, the same weight to successes exactly when the
   * result was a success, and one to the failure, 5xx and throttle counters
   * exactly when their flag is set.
   */
  lemma MergeCounts(t: Totals, r: TestResult)
    ensures var u := Merged(t, r);
      u.numRequests - t.numRequests == u.intervalCount - t.intervalCount
        == (if r.testType == CONSISTENCY then 4 else 1) &&
      (r.wasSuccess ==> u.numSuccess - t.numSuccess == u.numRequests - t.numRequests) &&
      (!r.wasSuccess ==> u.numSuccess == t.numSuccess) &&
      (u.numFailure == t.numFailure + 1 <==> r.wasTestFailure) &&
      (u.numFailure == t.numFailure <==> !r.wasTestFailure) &&
      (u.num500s == t.num500s + 1 <==> r.was5XX) &&
      (u.num500s == t.num500s <==> !r.was5XX) &&
      (u.numThrottled == t.numThrottled + 1 <==> r.wasThrottled) &&
      (u.numThrottled == t.numThrottled <==> !r.wasThrottled)
  {
  }

  /** Exactly one per-kind counter goes up, by one; the other three stay. */
  lemma MergeCountsOneKind(t: Totals, r: TestResult)
    ensures var u := Merged(t, r);
      t.numGet <= u.numGet && t.numPut <= u.numPut &&
      t.numDelete <= u.numDelete && t.numConsistency <= u.numConsistency &&
      (u.numGet - t.numGet) + (u.numPut - t.numPut) + (u.numDelete - t.numDelete)
        + (u.numConsistency - t.numConsistency) == 1 &&
      (u.numGet == t.numGet + 1 <==> r.testType == GET) &&
      (u.numPut == t.numPut + 1 <==> r.testType in {PUT, CREATE}) &&
      (u.numDelete == t.numDelete + 1 <==> r.testType == DELETE) &&
      (u.numConsistency == t.numConsistency + 1 <==> r.testType == CONSISTENCY)
  {
  }

  /**
   * The error lists are append-only: a merge keeps every entry and adds at most
   * one HTTP error (only for an error with a response) and at most two other
   * errors, the newest at the end.
   */
  lemma MergeAppendsErrors(t: Totals, r: TestResult)
    ensures var u := Merged(t, r);
      Grown(t, u) &&
      |u.httpErrors| <= |t.httpErrors| + 1 &&
      (|u.httpErrors| > |t.httpErrors| ==> r.wasError && r.hasResponse && Last(u.httpErrors) == r.message) &&
      |u.otherErrors| <= |t.otherErrors| + 2 &&
      (r.wasTestFailure && r.testType == CONSISTENCY ==> Last(u.otherErrors) == r.message)
  {
  }

  function Last<T>(s: seq<T>): T
    requires s != []
  {
    s[|s| - 1]
  }

  /** A merge keeps the request accounting. */
  lemma MergeKeepsAccounted(t: Totals, r: TestResult)
    requires Accounted(t)
    ensures Accounted(Merged(t, r))
  {
  }

  /** Any run of merges keeps the request accounting; in particular every run from the zero state. */
  lemma {:induction false} MergeAllKeepsAccounted(t: Totals, rs: seq<TestResult>)
    requires Accounted(t)
    ensures Accounted(MergeAll(t, rs)) && Grown(t, MergeAll(t, rs))
    decreases rs
  {
    if rs != [] {
      MergeKeepsAccounted(t, rs[0]);
      MergeAppendsErrors(t, rs[0]);
      MergeAllKeepsAccounted(Merged(t, rs[0]), rs[1..]);
    }
  }

  /** The counters do not depend on the order in which two results are merged. */
  lemma MergeCountersCommute(t: Totals, a: TestResult, b: TestResult)
    ensures var ab := Merged(Merged(t, a), b);
      var ba := Merged(Merged(t, b), a);
      ab.(httpErrors := [], otherErrors := []) == ba.(httpErrors := [], otherErrors := [])
  {
  }
}
