/**
 * Integer helpers of the result aggregator: the truncating mean that turns a
 * history of interval deltas into a "current rate", and the most-recent-first
 * selection used when listing recent errors.
 */
module Stats {

  function Min(a: int, b: int): int
  {
    if a <= b then a else b
  }

  function Max(a: int, b: int): int
  {
    if a <= b then b else a
  }

  /** Integer division as Go's `/` does it: the quotient is truncated toward zero. */
  function GoDiv(a: int, b: int): int
    requires b > 0
  {
    if a >= 0 then a / b else -((-a) / b)
  }

  /** Sum of the items, accumulated from the front as the loop in `average` does. */
  function Sum(items: seq<int>): int
  {
    if items == [] then 0 else Sum(items[..|items| - 1]) + items[|items| - 1]
  }

  function MinOf(items: seq<int>): int
    requires |items| > 0
  {
    if |items| == 1 then items[0] else Min(MinOf(items[..|items| - 1]), items[|items| - 1])
  }

  function MaxOf(items: seq<int>): int
    requires |items| > 0
  {
    if |items| == 1 then items[0] else Max(MaxOf(items[..|items| - 1]), items[|items| - 1])
  }

  /** The integer mean of a non-empty history: its sum divided by its length, truncated. */
  function Mean(items: seq<int>): int
    requires |items| > 0
  {
    GoDiv(Sum(items), |items|)
  }

  /**
   * `average`: sums the items in a loop and divides by their number. There is no
   * guard for the empty slice (it would divide by zero), hence the precondition.
   */
  method Average(items: seq<int>) returns (r: int)
    requires |items| > 0
    ensures r == Mean(items)
  {
    var sum := 0;
    for i := 0 to |items|
      invariant sum == Sum(items[..i])
    {
      assert items[..i + 1][..i] == items[..i];
      sum := sum + items[i];
    }
    assert items[..|items|] == items;
    r := GoDiv(sum, |items|);
  }

  lemma MulMonotone(k: nat, a: int, b: int)
    requires a <= b
    ensures k * a <= k * b
  {
    assert k * b - k * a == k * (b - a);
  }

  lemma {:induction false} MinOfIsLowest(items: seq<int>)
    requires |items| > 0
    ensures forall i :: 0 <= i < |items| ==> MinOf(items) <= items[i]
    ensures exists i :: 0 <= i < |items| && MinOf(items) == items[i]
  {
    if |items| > 1 {
      var init := items[..|items| - 1];
      MinOfIsLowest(init);
      var j :| 0 <= j < |init| && MinOf(init) == init[j];
      if MinOf(items) == init[j] {
        assert MinOf(items) == items[j];
      } else {
        assert MinOf(items) == items[|items| - 1];
      }
      forall i | 0 <= i < |items| ensures MinOf(items) <= items[i] {
        if i < |items| - 1 {
          assert items[i] == init[i];
        }
      }
    } else {
      assert MinOf(items) == items[0];
    }
  }

  lemma {:induction false} MaxOfIsHighest(items: seq<int>)
    requires |items| > 0
    ensures forall i :: 0 <= i < |items| ==> items[i] <= MaxOf(items)
  {
    if |items| > 1 {
      var init := items[..|items| - 1];
      MaxOfIsHighest(init);
      forall i | 0 <= i < |items| ensures items[i] <= MaxOf(items) {
        if i < |items| - 1 {
          assert items[i] == init[i];
        }
      }
    }
  }

  lemma MulPred(n: int, a: int)
    ensures n * a == (n - 1) * a + a
  {
  }

  /** The sum lies between length * minimum and length * maximum. */
  lemma {:induction false} SumWithin(items: seq<int>)
    requires |items| > 0
    ensures |items| * MinOf(items) <= Sum(items) <= |items| * MaxOf(items)
  {
    var n := |items|;
    if n == 1 {
      assert items[..0] == [];
      assert Sum(items) == items[0];
    } else {
      var init := items[..n - 1];
      var lo, hi := MinOf(items), MaxOf(items);
      SumWithin(init);
      assert Sum(items) == Sum(init) + items[n - 1];
      assert lo <= MinOf(init) && lo <= items[n - 1];
      assert MaxOf(init) <= hi && items[n - 1] <= hi;
      MulMonotone(n - 1, lo, MinOf(init));
      MulMonotone(n - 1, MaxOf(init), hi);
      MulPred(n, lo);
      MulPred(n, hi);
    }
  }

  lemma MulSucc(n: int, a: int)
    ensures n * (a + 1) == n * a + n
  {
  }

  lemma FloorDivWithin(s: int, n: int, lo: int, hi: int)
    requires s >= 0 && n > 0
    requires n * lo <= s <= n * hi
    ensures lo <= s / n <= hi
  {
    var q, r := s / n, s % n;
    assert s == n * q + r && 0 <= r < n;
    if q < lo {
      MulSucc(n, q);
      MulMonotone(n, q + 1, lo);
    }
    if q > hi {
      MulSucc(n, hi);
      MulMonotone(n, hi + 1, q);
    }
  }

  /** Truncating division of a sum that lies between n * lo and n * hi lands in [lo, hi]. */
  lemma GoDivWithin(s: int, n: int, lo: int, hi: int)
    requires n > 0
    requires n * lo <= s <= n * hi
    ensures lo <= GoDiv(s, n) <= hi
  {
    if s >= 0 {
      FloorDivWithin(s, n, lo, hi);
    } else {
      assert n * (-hi) == -(n * hi) && n * (-lo) == -(n * lo);
      FloorDivWithin(-s, n, -hi, -lo);
    }
  }

  /**
   * The truncated mean never leaves the range of the history: it is at least its
   * smallest entry and at most its largest, whatever the signs of the entries.
   */
  lemma {:induction false} MeanWithin(items: seq<int>)
    requires |items| > 0
    ensures MinOf(items) <= Mean(items) <= MaxOf(items)
  {
    SumWithin(items);
    GoDivWithin(Sum(items), |items|, MinOf(items), MaxOf(items));
  }

  /** A history of non-negative deltas has a non-negative mean. */
  lemma {:induction false} MeanNonNegative(items: seq<int>)
    requires |items| > 0
    requires forall i :: 0 <= i < |items| ==> items[i] >= 0
    ensures Mean(items) >= 0
  {
    MinOfIsLowest(items);
    MeanWithin(items);
  }

  /** How many entries of an error list are shown. */
  const RecentLimit: nat := 5

  function Reversed<T>(s: seq<T>): seq<T>
  {
    if s == [] then [] else Reversed(s[1..]) + [s[0]]
  }

  lemma {:induction false} ReversedAt<T>(s: seq<T>)
    ensures |Reversed(s)| == |s|
    ensures forall k :: 0 <= k < |s| ==> Reversed(s)[k] == s[|s| - 1 - k]
  {
    if s != [] {
      ReversedAt(s[1..]);
      forall k | 0 <= k < |s| ensures Reversed(s)[k] == s[|s| - 1 - k] {
        if k < |s| - 1 {
          assert Reversed(s)[k] == Reversed(s[1..])[k];
        }
      }
    }
  }

  /**
   * The entries that the error listing shows: the newest RecentLimit of the list
   * (all of it when shorter), newest first.
   */
  function RecentFirst<T>(list: seq<T>): (r: seq<T>)
    ensures |r| == Min(|list|, RecentLimit)
    ensures forall i :: 0 <= i < |r| ==> r[i] == list[|list| - 1 - i]
  {
    var newest := list[|list| - Min(|list|, RecentLimit)..];
    ReversedAt(newest);
    Reversed(newest)
  }

  /** The index loop of `PrintErrors`, collecting what it prints instead of printing it. */
  method MostRecent<T>(list: seq<T>) returns (shown: seq<T>)
    ensures shown == RecentFirst(list)
  {
    shown := [];
    for i := 0 to Min(|list|, RecentLimit)
      invariant |shown| == i
      invariant forall j :: 0 <= j < i ==> shown[j] == list[|list| - j - 1]
    {
      shown := shown + [list[|list| - i - 1]];
    }
  }
}
