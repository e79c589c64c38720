/**
 * The aggregator in the form of the Go code: `TestResults`, whose fields `Merge`
 * updates in place, and the interval sampler, whose histories and registers are
 * updated by one tick each time an interval has elapsed. Locking disappears: each
 * operation is one atomic step.
 */
module Aggregator {
  import opened Stats
  import opened Outcomes
  import opened Windows

  class TestResults {
    var numRequests: int
    var numSuccess: int
    var numGet: int
    var numPut: int
    var numDelete: int
    var numConsistency: int
    var numFailure: int
    var numThrottled: int
    var intervalCount: int
    var num500s: int
    var httpErrors: seq<string>
    var otherErrors: seq<string>
    var numLastInterval: int
    var numSuccessLastInterval: int
    var numGetLastInterval: int
    var numPutLastInterval: int
    var numDeleteLastInterval: int
    var numConsistencyLastInterval: int
    var numThrottledLastInterval: int

    /** The counters and error lists that `Merge` changes. */
    function Snapshot(): Totals
      reads this
    {
      Totals(numRequests, numSuccess, numGet, numPut, numDelete, numConsistency,
             numFailure, numThrottled, intervalCount, num500s, httpErrors, otherErrors)
    }

    /** The smoothed current figures that the sampler sets. */
    function Current(): Rates
      reads this
    {
      Rates(numLastInterval, numSuccessLastInterval, numGetLastInterval, numPutLastInterval,
            numDeleteLastInterval, numThrottledLastInterval, numConsistencyLastInterval)
    }

    /** A fresh aggregate: every counter zero, both error lists empty. */
    constructor ()
      ensures Snapshot() == Zero && Current() == ZeroRates
    {
      numRequests, numSuccess, numGet, numPut, numDelete := 0, 0, 0, 0, 0;
      numConsistency, numFailure, numThrottled, intervalCount, num500s := 0, 0, 0, 0, 0;
      httpErrors, otherErrors := [], [];
      numLastInterval, numSuccessLastInterval, numGetLastInterval := 0, 0, 0;
      numPutLastInterval, numDeleteLastInterval := 0, 0;
      numConsistencyLastInterval, numThrottledLastInterval := 0, 0;
    }

    /**
     * Applies one result: one request (and one interval count) for every result,
     * three more for a consistency check; the flagged counters; the error messages;
     * and the per-kind counter. Only the merged fields are in its frame: the
     * current figures are left alone.
     */
    method Merge(result: TestResult)
      modifies this`numRequests, this`numSuccess, this`numGet, this`numPut, this`numDelete
      modifies this`numConsistency, this`numFailure, this`numThrottled, this`intervalCount
      modifies this`num500s, this`httpErrors, this`otherErrors
      ensures Snapshot() == Merged(old(Snapshot()), result)
    {
      CountOutcome(result);
      RecordErrors(result);
      CountKind(result);
    }

    /** The unlocked first half of `Merge`: one request, and the flagged outcome counters. */
    method CountOutcome(result: TestResult)
      modifies this`numRequests, this`numSuccess, this`numFailure, this`num500s, this`numThrottled
      ensures numRequests == old(numRequests) + 1
      ensures numSuccess == old(numSuccess) + Indicator(result.wasSuccess)
      ensures numFailure == old(numFailure) + FailureCount(result)
      ensures num500s == old(num500s) + ServerErrorCount(result)
      ensures numThrottled == old(numThrottled) + ThrottledCount(result)
    {
      numRequests := numRequests + 1;
      if result.wasSuccess {
        numSuccess := numSuccess + 1;
      }
      if result.wasTestFailure {
        numFailure := numFailure + 1;
      }
      if result.was5XX {
        num500s := num500s + 1;
      }
      if result.wasThrottled {
        numThrottled := numThrottled + 1;
      }
    }

    /** The error messages a result leaves: appended at the end of the two lists. */
    method RecordErrors(result: TestResult)
      modifies this`httpErrors, this`otherErrors
      ensures httpErrors == old(httpErrors) + HttpErrorsOf(result)
      ensures otherErrors == old(otherErrors) + OtherErrorsOf(result)
    {
      if result.wasError {
        if result.hasResponse {
          httpErrors := httpErrors + [result.message];
        } else if result.err.Some? {
          otherErrors := otherErrors + [result.err.value];
        }
      }
      if result.wasTestFailure && result.testType == CONSISTENCY {
        otherErrors := otherErrors + [result.message];
      }
    }

    /**
     * The locked second half of `Merge`: the interval count and the per-kind
     * counter, and for a consistency check three more requests, interval counts
     * and (on success) successes.
     */
    method CountKind(result: TestResult)
      modifies this`intervalCount, this`numGet, this`numPut, this`numDelete, this`numConsistency
      modifies this`numRequests, this`numSuccess
      ensures intervalCount == old(intervalCount) + RequestWeight(result)
      ensures numRequests == old(numRequests) + RequestWeight(result) - 1
      ensures numSuccess == old(numSuccess) + SuccessWeight(result) - Indicator(result.wasSuccess)
      ensures numGet == old(numGet) + GetCount(result)
      ensures numPut == old(numPut) + PutCount(result)
      ensures numDelete == old(numDelete) + DeleteCount(result)
      ensures numConsistency == old(numConsistency) + ConsistencyCount(result)
    {
      intervalCount := intervalCount + 1;
      if result.testType == GET {
        numGet := numGet + 1;
      } else if result.testType == PUT || result.testType == CREATE {
        numPut := numPut + 1;
      } else if result.testType == DELETE {
        numDelete := numDelete + 1;
      } else if result.testType == CONSISTENCY {
        numConsistency := numConsistency + 1;
        numRequests := numRequests + 3;
        intervalCount := intervalCount + 3;
        if result.wasSuccess {
          numSuccess := numSuccess + 3;
        }
      }
    }

    /**
     * The entries `PrintErrors` lists: the newest five of each error list (fewer
     * when the list is shorter), newest first.
     */
    method RecentErrors() returns (http: seq<string>, other: seq<string>)
      ensures http == RecentFirst(httpErrors) && other == RecentFirst(otherErrors)
    {
      http := MostRecent(httpErrors);
      other := MostRecent(otherErrors);
    }
  }

  /** The sampler goroutine's local state: seven histories and six registers. */
  class IntervalSampler {
    var lastFiveIntervals: seq<int>
    var lastFiveIntervalsSuccess: seq<int>
    var lastFiveIntervalsGets: seq<int>
    var lastFiveIntervalsPuts: seq<int>
    var lastFiveIntervalsDeletes: seq<int>
    var lastFiveIntervalsThrottles: seq<int>
    var lastFiveIntervalsConsistency: seq<int>
    var totalSuccessLastInterval: int
    var totalGetLastInterval: int
    var totalPutLastInterval: int
    var totalDeleteLastInterval: int
    var totalThrottlesLastInterval: int
    var totalConsistencyLastInterval: int

    function State(): Window
      reads this
    {
      Window(lastFiveIntervals, lastFiveIntervalsSuccess, lastFiveIntervalsGets,
             lastFiveIntervalsPuts, lastFiveIntervalsDeletes, lastFiveIntervalsThrottles,
             lastFiveIntervalsConsistency,
             totalSuccessLastInterval, totalGetLastInterval, totalPutLastInterval,
             totalDeleteLastInterval, totalThrottlesLastInterval, totalConsistencyLastInterval)
    }

    /** The seven histories stay equally long and within MaxHistory entries. */
    ghost predicate Valid()
      reads this
    {
      Aligned(State())
    }

    /** The sampler starts with empty histories and zero registers. */
    constructor ()
      ensures Valid() && State() == EmptyWindow
    {
      lastFiveIntervals, lastFiveIntervalsSuccess, lastFiveIntervalsGets := [], [], [];
      lastFiveIntervalsPuts, lastFiveIntervalsDeletes := [], [];
      lastFiveIntervalsThrottles, lastFiveIntervalsConsistency := [], [];
      totalSuccessLastInterval, totalGetLastInterval, totalPutLastInterval := 0, 0, 0;
      totalDeleteLastInterval, totalThrottlesLastInterval, totalConsistencyLastInterval := 0, 0, 0;
    }

    /**
     * One elapsed interval: push the deltas, take the registers, drop the oldest
     * entries past MaxHistory, store the averages in `tr` and reset its interval
     * count. Nothing else in `tr` changes.
     */
    method Tick(tr: TestResults)
      requires Valid()
      modifies this, tr
      ensures Valid()
      ensures State() == Ticked(old(State()), old(tr.Snapshot()))
      ensures tr.Snapshot() == old(tr.Snapshot()).(intervalCount := 0)
      ensures Filled(State()) && tr.Current() == RatesOf(State())
    {
      Advance(tr.Snapshot());
      Publish(tr);
    }

    /** The sampler's own part of a tick: push the deltas against `t`, then drop the oldest entries past MaxHistory. */
    method Advance(t: Totals)
      requires Valid()
      modifies this
      ensures Valid() && Filled(State())
      ensures State() == Ticked(old(State()), t)
    {
      TickSlides(State(), t);
      PushDeltas(t);
      if |lastFiveIntervalsSuccess| > MaxHistory {
        DropOldest();
      }
    }

    /** The locked part of a tick: store the averages in `tr` and reset its interval count. */
    method Publish(tr: TestResults)
      requires Filled(State())
      modifies tr`numLastInterval, tr`numSuccessLastInterval, tr`numGetLastInterval
      modifies tr`numPutLastInterval, tr`numDeleteLastInterval, tr`numThrottledLastInterval
      modifies tr`numConsistencyLastInterval, tr`intervalCount
      ensures tr.Current() == RatesOf(State()) && tr.intervalCount == 0
    {
      StoreAverages(tr);
      tr.intervalCount := 0;
    }

    /** Appends each counter's delta since the last tick and takes the new registers. */
    method PushDeltas(t: Totals)
      modifies this
      ensures State() == Pushed(old(State()), t)
    {
      AppendDeltas(t);
      TakeRegisters(t);
    }

    /** Appends the interval count, and each other counter's growth since the registers were taken. */
    method AppendDeltas(t: Totals)
      modifies this`lastFiveIntervals, this`lastFiveIntervalsSuccess, this`lastFiveIntervalsGets
      modifies this`lastFiveIntervalsPuts, this`lastFiveIntervalsDeletes, this`lastFiveIntervalsThrottles
      modifies this`lastFiveIntervalsConsistency
      ensures lastFiveIntervals == old(lastFiveIntervals) + [t.intervalCount]
      ensures lastFiveIntervalsSuccess == old(lastFiveIntervalsSuccess) + [t.numSuccess - old(totalSuccessLastInterval)]
      ensures lastFiveIntervalsGets == old(lastFiveIntervalsGets) + [t.numGet - old(totalGetLastInterval)]
      ensures lastFiveIntervalsPuts == old(lastFiveIntervalsPuts) + [t.numPut - old(totalPutLastInterval)]
      ensures lastFiveIntervalsDeletes == old(lastFiveIntervalsDeletes) + [t.numDelete - old(totalDeleteLastInterval)]
      ensures lastFiveIntervalsThrottles == old(lastFiveIntervalsThrottles) + [t.numThrottled - old(totalThrottlesLastInterval)]
      ensures lastFiveIntervalsConsistency == old(lastFiveIntervalsConsistency) + [t.numConsistency - old(totalConsistencyLastInterval)]
    {
      lastFiveIntervals, lastFiveIntervalsSuccess, lastFiveIntervalsGets, lastFiveIntervalsPuts,
        lastFiveIntervalsDeletes, lastFiveIntervalsThrottles, lastFiveIntervalsConsistency :=
        lastFiveIntervals + [t.intervalCount],
        lastFiveIntervalsSuccess + [t.numSuccess - totalSuccessLastInterval],
        lastFiveIntervalsGets + [t.numGet - totalGetLastInterval],
        lastFiveIntervalsPuts + [t.numPut - totalPutLastInterval],
        lastFiveIntervalsDeletes + [t.numDelete - totalDeleteLastInterval],
        lastFiveIntervalsThrottles + [t.numThrottled - totalThrottlesLastInterval],
        lastFiveIntervalsConsistency + [t.numConsistency - totalConsistencyLastInterval];
    }

    /** The registers take the current counters. */
    method TakeRegisters(t: Totals)
      modifies this`totalSuccessLastInterval, this`totalGetLastInterval, this`totalPutLastInterval
      modifies this`totalDeleteLastInterval, this`totalThrottlesLastInterval, this`totalConsistencyLastInterval
      ensures totalSuccessLastInterval == t.numSuccess && totalGetLastInterval == t.numGet
      ensures totalPutLastInterval == t.numPut && totalDeleteLastInterval == t.numDelete
      ensures totalThrottlesLastInterval == t.numThrottled && totalConsistencyLastInterval == t.numConsistency
    {
      totalSuccessLastInterval := t.numSuccess;
      totalGetLastInterval := t.numGet;
      totalPutLastInterval := t.numPut;
      totalDeleteLastInterval := t.numDelete;
      totalThrottlesLastInterval := t.numThrottled;
      totalConsistencyLastInterval := t.numConsistency;
    }

    /** Reslices every history past its oldest entry. */
    method DropOldest()
      requires Filled(State())
      modifies this`lastFiveIntervals, this`lastFiveIntervalsSuccess, this`lastFiveIntervalsGets
      modifies this`lastFiveIntervalsPuts, this`lastFiveIntervalsDeletes, this`lastFiveIntervalsThrottles
      modifies this`lastFiveIntervalsConsistency
      ensures lastFiveIntervals == old(lastFiveIntervals)[1..]
      ensures lastFiveIntervalsSuccess == old(lastFiveIntervalsSuccess)[1..]
      ensures lastFiveIntervalsGets == old(lastFiveIntervalsGets)[1..]
      ensures lastFiveIntervalsPuts == old(lastFiveIntervalsPuts)[1..]
      ensures lastFiveIntervalsDeletes == old(lastFiveIntervalsDeletes)[1..]
      ensures lastFiveIntervalsThrottles == old(lastFiveIntervalsThrottles)[1..]
      ensures lastFiveIntervalsConsistency == old(lastFiveIntervalsConsistency)[1..]
    {
      lastFiveIntervalsSuccess, lastFiveIntervals, lastFiveIntervalsGets, lastFiveIntervalsPuts,
        lastFiveIntervalsDeletes, lastFiveIntervalsThrottles, lastFiveIntervalsConsistency :=
        lastFiveIntervalsSuccess[1..], lastFiveIntervals[1..], lastFiveIntervalsGets[1..],
        lastFiveIntervalsPuts[1..], lastFiveIntervalsDeletes[1..], lastFiveIntervalsThrottles[1..],
        lastFiveIntervalsConsistency[1..];
    }

    /** Stores the average of every history as the current figure. */
    method StoreAverages(tr: TestResults)
      requires Filled(State())
      modifies tr`numLastInterval, tr`numSuccessLastInterval, tr`numGetLastInterval
      modifies tr`numPutLastInterval, tr`numDeleteLastInterval, tr`numThrottledLastInterval
      modifies tr`numConsistencyLastInterval
      ensures tr.Current() == RatesOf(State())
    {
      var requests := Average(lastFiveIntervals);
      var success := Average(lastFiveIntervalsSuccess);
      var gets := Average(lastFiveIntervalsGets);
      var puts := Average(lastFiveIntervalsPuts);
      var deletes := Average(lastFiveIntervalsDeletes);
      var throttled := Average(lastFiveIntervalsThrottles);
      var consistency := Average(lastFiveIntervalsConsistency);
      tr.numLastInterval, tr.numSuccessLastInterval, tr.numGetLastInterval, tr.numPutLastInterval,
        tr.numDeleteLastInterval, tr.numThrottledLastInterval, tr.numConsistencyLastInterval :=
        requests, success, gets, puts, deletes, throttled, consistency;
    }
  }
}
