/** Order statistics of lists of integers: sorted(), the median, and the two
    ways the program picks a percentile. */
module Statistics {
  import opened Rounding

  ghost predicate Ascending(xs: seq<int>) {
    forall i, j :: 0 <= i < j < |xs| ==> xs[i] <= xs[j]
  }

  function Insert(sorted: seq<int>, x: int): seq<int> {
    if sorted == [] || sorted[|sorted| - 1] <= x then sorted + [x]
    else Insert(sorted[..|sorted| - 1], x) + [sorted[|sorted| - 1]]
  }

  function Sort(xs: seq<int>): seq<int> {
    if xs == [] then [] else Insert(Sort(xs[..|xs| - 1]), xs[|xs| - 1])
  }

  /** How many elements are at most v, or below v. */
  function AtMost(xs: seq<int>, v: int): nat {
    if xs == [] then 0 else AtMost(xs[..|xs| - 1], v) + if xs[|xs| - 1] <= v then 1 else 0
  }

  function Below(xs: seq<int>, v: int): nat {
    AtMost(xs, v - 1)
  }

  lemma {:induction false} InsertCounts(sorted: seq<int>, x: int, v: int)
    ensures AtMost(Insert(sorted, x), v) == AtMost(sorted, v) + if x <= v then 1 else 0
    decreases |sorted|
  {
    if sorted == [] || sorted[|sorted| - 1] <= x {
      assert (sorted + [x])[..|sorted|] == sorted;
    } else {
      var front := sorted[..|sorted| - 1];
      InsertCounts(front, x, v);
      assert Insert(sorted, x)[..|Insert(front, x)|] == Insert(front, x);
    }
  }

  lemma {:induction false} InsertSorts(sorted: seq<int>, x: int)
    requires Ascending(sorted)
    ensures Ascending(Insert(sorted, x)) && |Insert(sorted, x)| == |sorted| + 1
    ensures forall y :: y in Insert(sorted, x) ==> y == x || y in sorted
    decreases |sorted|
  {
    if sorted == [] || sorted[|sorted| - 1] <= x {
      assert forall y :: y in sorted ==> y <= x;
    } else {
      var n := |sorted| - 1;
      var front := sorted[..n];
      InsertSorts(front, x);
      var inserted := Insert(front, x);
      assert forall y :: y in front ==> y <= sorted[n];
      assert forall i :: 0 <= i < |inserted| ==> inserted[i] in inserted;
    }
  }

  lemma {:induction false} SortSorts(xs: seq<int>)
    ensures Ascending(Sort(xs)) && |Sort(xs)| == |xs|
    ensures forall x :: x in Sort(xs) ==> x in xs
    decreases |xs|
  {
    if xs != [] {
      SortSorts(xs[..|xs| - 1]);
      InsertSorts(Sort(xs[..|xs| - 1]), xs[|xs| - 1]);
    }
  }

  /** Sorting keeps every count, so it is a permutation. */
  lemma {:induction false} SortCounts(xs: seq<int>, v: int)
    ensures AtMost(Sort(xs), v) == AtMost(xs, v)
    decreases |xs|
  {
    if xs != [] {
      SortCounts(xs[..|xs| - 1], v);
      InsertCounts(Sort(xs[..|xs| - 1]), xs[|xs| - 1], v);
    }
  }

  lemma {:induction false} AtMostSorted(sorted: seq<int>, k: nat, v: int)
    requires Ascending(sorted) && k < |sorted|
    ensures sorted[k] <= v ==> k < AtMost(sorted, v)
    ensures v < sorted[k] ==> AtMost(sorted, v) <= k
    ensures AtMost(sorted, v) <= |sorted|
    decreases |sorted|
  {
    var n := |sorted| - 1;
    if k < n {
      AtMostSorted(sorted[..n], k, v);
    } else if n > 0 {
      AtMostSorted(sorted[..n], n - 1, v);
    }
  }

  /** The k-th smallest element, counted in the unsorted list: it is one of
      the elements, at most k are below it, more than k are at most it. */
  lemma {:induction false} OrderStatistic(xs: seq<int>, k: nat)
    requires k < |xs|
    ensures |Sort(xs)| == |xs| && Sort(xs)[k] in xs
    ensures Below(xs, Sort(xs)[k]) <= k < AtMost(xs, Sort(xs)[k])
  {
    SortSorts(xs);
    SortKeepsCounts(xs, Sort(xs)[k]);
    CountedElsewhere(xs, Sort(xs), k);
  }

  lemma CountedElsewhere(xs: seq<int>, sorted: seq<int>, k: nat)
    requires Ascending(sorted) && k < |sorted| && forall x :: x in sorted ==> x in xs
    requires AtMost(sorted, sorted[k]) == AtMost(xs, sorted[k]) && AtMost(sorted, sorted[k] - 1) == Below(xs, sorted[k])
    ensures sorted[k] in xs && Below(xs, sorted[k]) <= k < AtMost(xs, sorted[k])
  {
    CountsAround(sorted, k);
  }

  lemma {:induction false} SortKeepsCounts(xs: seq<int>, v: int)
    ensures AtMost(Sort(xs), v) == AtMost(xs, v) && AtMost(Sort(xs), v - 1) == Below(xs, v)
  {
    SortCounts(xs, v);
    SortCounts(xs, v - 1);
  }

  lemma CountsAround(sorted: seq<int>, k: nat)
    requires Ascending(sorted) && k < |sorted|
    ensures sorted[k] in sorted && AtMost(sorted, sorted[k] - 1) <= k < AtMost(sorted, sorted[k])
  {
    AtMostSorted(sorted, k, sorted[k]);
    AtMostSorted(sorted, k, sorted[k] - 1);
  }

  // ------------------------------------------------------------- percentiles

  /** The middle element, or the mean of the middle two. */
  function Middle(sorted: seq<int>): real
    requires sorted != []
  {
    var m := |sorted| / 2;
    if |sorted| % 2 == 1 then sorted[m] as real else (sorted[m - 1] + sorted[m]) as real / 2.0
  }

  function Position(percentile: int, last: nat): real {
    percentile as real / 100.0 * last as real
  }

  function Index(n: nat, percentile: int): nat
    requires n > 0
  {
    var rounded := RoundHalfEven(Position(percentile, n - 1));
    var capped := if n - 1 <= rounded then n - 1 else rounded;
    if capped < 0 then 0 else capped
  }

  function Percentile(xs: seq<int>, percentile: int): real {
    if xs == [] then 0.0
    else
      SortSorts(xs);
      if percentile == 50 then Middle(Sort(xs)) else Sort(xs)[Index(|xs|, percentile)] as real
  }

  lemma PercentileInRange(xs: seq<int>, percentile: int, least: int, greatest: int)
    requires xs != []
    requires forall x :: x in xs ==> least <= x <= greatest
    ensures least as real <= Percentile(xs, percentile) <= greatest as real
  {
    SortSorts(xs);
    var sorted, m := Sort(xs), |xs| / 2;
    assert forall k :: 0 <= k < |sorted| ==> sorted[k] in sorted;
    if percentile == 50 && |xs| % 2 == 0 {
      assert least <= sorted[m - 1] <= greatest && least <= sorted[m] <= greatest;
    }
  }

  lemma ScaleMonotone(a: real, b: real, n: real)
    requires a <= b && 0.0 <= n
    ensures a * n <= b * n
  {
  }

  lemma IndexMonotone(n: nat, p: int, q: int)
    requires n > 0 && p <= q
    ensures Index(n, p) <= Index(n, q)
  {
    ScaleMonotone(p as real / 100.0, q as real / 100.0, (n - 1) as real);
    RoundMonotone(Position(p, n - 1), Position(q, n - 1));
  }

  lemma RoundNear(x: real, m: int)
    ensures x < m as real + 0.5 ==> RoundHalfEven(x) <= m
    ensures x > m as real - 0.5 ==> RoundHalfEven(x) >= m
  {
  }

  lemma PositionAroundMiddle(percentile: int, last: nat)
    ensures percentile < 50 ==> Position(percentile, last) <= 0.49 * last as real
    ensures percentile > 50 ==> Position(percentile, last) >= 0.51 * last as real
  {
    var share, x := percentile as real / 100.0, last as real;
    assert Position(percentile, last) == share * x;
    if percentile < 50 {
      assert percentile <= 49 && share <= 0.49;
      ScaleMonotone(share, 0.49, x);
    } else if percentile > 50 {
      assert percentile >= 51 && share >= 0.51;
      ScaleMonotone(0.51, share, x);
    }
  }

  lemma RoundAroundMiddle(x: real, last: nat)
    ensures x <= 0.49 * last as real ==> RoundHalfEven(x) <= last / 2
    ensures x >= 0.51 * last as real ==> RoundHalfEven(x) >= (last + 1) / 2
  {
    var m := last / 2;
    if last == 2 * m {
      RoundNear(x, m);
    } else {
      assert last == 2 * m + 1;
      RoundNear(x, m);
      RoundNear(x, m + 1);
    }
  }

  /** Half-to-even rounding never carries an index past the middle. */
  lemma IndexAroundMiddle(n: nat, percentile: int)
    requires n > 0
    ensures percentile < 50 ==> Index(n, percentile) <= (n - 1) / 2
    ensures percentile > 50 ==> Index(n, percentile) >= n / 2
  {
    PositionAroundMiddle(percentile, n - 1);
    RoundAroundMiddle(Position(percentile, n - 1), n - 1);
  }

  lemma MiddleIsMiddle(sorted: seq<int>, k: nat)
    requires Ascending(sorted) && k < |sorted|
    ensures k <= (|sorted| - 1) / 2 ==> sorted[k] as real <= Middle(sorted)
    ensures k >= |sorted| / 2 ==> Middle(sorted) <= sorted[k] as real
  {
    var m := |sorted| / 2;
    if k <= (|sorted| - 1) / 2 {
      assert sorted[k] <= sorted[(|sorted| - 1) / 2] <= sorted[m];
    }
    if k >= m {
      assert sorted[(|sorted| - 1) / 2] <= sorted[m] <= sorted[k];
    }
  }

  lemma Halfway(m: int, x: real, last: int)
    requires -0.5 <= m as real - x <= 0.5 && 0.0 <= x <= last as real
    ensures 0 <= m <= last
  {
  }

  /** Up to the ends of the list the index is the nearest to its exact place. */
  lemma {:induction false} IndexNearest(n: nat, percentile: int)
    requires n > 0 && 0 <= percentile <= 100
    ensures -0.5 <= Index(n, percentile) as real - percentile as real / 100.0 * (n - 1) as real <= 0.5
    ensures Index(n, 0) == 0 && Index(n, 100) == n - 1
  {
    PlaceNearest(n, percentile);
    PlaceNearest(n, 0);
    PlaceNearest(n, 100);
  }

  lemma PlaceNearest(n: nat, percentile: int)
    requires n > 0 && 0 <= percentile <= 100
    ensures 0.0 <= Position(percentile, n - 1) <= (n - 1) as real
    ensures -0.5 <= Index(n, percentile) as real - Position(percentile, n - 1) <= 0.5
  {
    var place := Position(percentile, n - 1);
    ScaleMonotone(0.0, percentile as real / 100.0, (n - 1) as real);
    ScaleMonotone(percentile as real / 100.0, 1.0, (n - 1) as real);
    assert 0.0 <= place <= (n - 1) as real;
    RoundHalfEvenNearest(place);
    Halfway(RoundHalfEven(place), place, n - 1);
  }

  /** The 50th percentile is the mean of the two middle elements of the sorted
      list, which are one and the same in a list of odd length. */
  lemma {:induction false} MedianIsMiddle(xs: seq<int>)
    requires xs != []
    ensures |Sort(xs)| == |xs|
    ensures Percentile(xs, 50) * 2.0 == (Sort(xs)[(|xs| - 1) / 2] + Sort(xs)[|xs| / 2]) as real
  {
    SortSorts(xs);
    if |xs| % 2 == 1 {
      assert (|xs| - 1) / 2 == |xs| / 2;
    } else {
      assert (|xs| - 1) / 2 == |xs| / 2 - 1;
    }
  }

  /** A higher percentile is never smaller, the median included, although the
      median averages and every other percentile rounds its index. */
  lemma {:induction false} PercentileMonotone(xs: seq<int>, p: int, q: int)
    requires p <= q
    ensures Percentile(xs, p) <= Percentile(xs, q)
  {
    if xs != [] {
      SortSorts(xs);
      if p != 50 && q != 50 {
        IndexMonotone(|xs|, p, q);
      } else if p == 50 < q {
        IndexAroundMiddle(|xs|, q);
        MiddleIsMiddle(Sort(xs), Index(|xs|, q));
      } else if p < 50 == q {
        IndexAroundMiddle(|xs|, p);
        MiddleIsMiddle(Sort(xs), Index(|xs|, p));
      }
    }
  }
}
