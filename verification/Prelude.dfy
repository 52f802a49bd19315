/** Option values, and the two facts about sequences that every
    other module needs: what "first occurrences, in order" means, and that
    the loop which builds such a list computes it. */
module Prelude {

  datatype Option<+T> = None | Some(value: T)

  /** No element occurs twice. */
  ghost predicate Distinct<T>(xs: seq<T>) {
    forall i, j :: 0 <= i < j < |xs| ==> xs[i] != xs[j]
  }

  /** `seen` extended with the elements of `xs` that are not in it yet. */
  function AppendNew<T(==)>(seen: seq<T>, xs: seq<T>): seq<T>
    decreases |xs|
  {
    if xs == [] then seen
    else AppendNew(if xs[0] in seen then seen else seen + [xs[0]], xs[1..])
  }

  function FirstOccurrences<T(==)>(xs: seq<T>): seq<T> {
    AppendNew([], xs)
  }

  /** Position of the first occurrence of `x`. */
  ghost function FirstIndex<T>(xs: seq<T>, x: T): nat
    requires x in xs
  {
    if xs[0] == x then 0 else 1 + FirstIndex(xs[1..], x)
  }

  lemma {:induction false} AppendNewConcat<T>(seen: seq<T>, xs: seq<T>, ys: seq<T>)
    ensures AppendNew(seen, xs + ys) == AppendNew(AppendNew(seen, xs), ys)
    decreases |xs|
  {
    if xs == [] {
      assert xs + ys == ys;
    } else {
      assert (xs + ys)[1..] == xs[1..] + ys;
      AppendNewConcat(if xs[0] in seen then seen else seen + [xs[0]], xs[1..], ys);
    }
  }

  lemma {:induction false} AppendNewSnoc<T>(seen: seq<T>, xs: seq<T>, x: T)
    ensures var r := AppendNew(seen, xs);
            AppendNew(seen, xs + [x]) == if x in r then r else r + [x]
  {
    AppendNewConcat(seen, xs, [x]);
    var r := AppendNew(seen, xs);
    assert [x][1..] == [];
  }

  /** The elements are kept, none twice, and `seen` stays a prefix. */
  lemma {:induction false} AppendNewContents<T>(seen: seq<T>, xs: seq<T>)
    requires Distinct(seen)
    ensures Distinct(AppendNew(seen, xs))
    ensures forall x :: x in AppendNew(seen, xs) ==> x in seen || x in xs
    ensures forall x :: x in seen || x in xs ==> x in AppendNew(seen, xs)
    ensures seen <= AppendNew(seen, xs)
    decreases |xs|
  {
    if xs != [] {
      AppendNewContents(if xs[0] in seen then seen else seen + [xs[0]], xs[1..]);
    }
  }

  lemma {:induction false} FirstIndexSnoc<T>(xs: seq<T>, x: T, y: T)
    requires y in xs + [x]
    ensures FirstIndex(xs + [x], y) == if y in xs then FirstIndex(xs, y) else |xs|
    ensures y in xs ==> FirstIndex(xs, y) < |xs|
    decreases |xs|
  {
    if xs != [] && xs[0] != y {
      assert (xs + [x])[1..] == xs[1..] + [x];
      FirstIndexSnoc(xs[1..], x, y);
    }
  }

  lemma {:induction false} FirstIndexIs<T>(xs: seq<T>, x: T, k: nat)
    requires x in xs
    ensures FirstIndex(xs, x) < |xs| && xs[FirstIndex(xs, x)] == x
    ensures k < |xs| && xs[k] == x ==> FirstIndex(xs, x) <= k
    decreases |xs|
  {
    if xs[0] != x {
      FirstIndexIs(xs[1..], x, if k > 0 then k - 1 else 0);
    }
  }

  lemma {:induction false} FirstOccurrencesOrdered<T>(xs: seq<T>, i: nat, j: nat)
    requires i < j < |FirstOccurrences(xs)|
    ensures FirstOccurrences(xs)[i] in xs && FirstOccurrences(xs)[j] in xs
    ensures FirstIndex(xs, FirstOccurrences(xs)[i]) < FirstIndex(xs, FirstOccurrences(xs)[j])
    decreases |xs|
  {
    var n := |xs| - 1;
    var front, x := xs[..n], xs[n];
    assert xs == front + [x];
    AppendNewSnoc([], front, x);
    AppendNewContents([], front);
    var r := FirstOccurrences(front);
    var y: T := r[i];
    assert y in AppendNew([], front);
    assert y in front;
    FirstIndexSnoc(front, x, y);
    if j < |r| {
      FirstOccurrencesOrdered(front, i, j);
      FirstIndexSnoc(front, x, r[j]);
    } else {
      FirstIndexSnoc(front, x, x);
    }
  }

  /** What FirstOccurrences means: the same elements, each once, ordered by
      where they first occur. */
  lemma FirstOccurrencesMeaning<T>(xs: seq<T>)
    ensures var r := FirstOccurrences(xs);
            && Distinct(r)
            && (forall x :: x in r <==> x in xs)
            && (forall i, j :: 0 <= i < j < |r| ==> FirstIndex(xs, r[i]) < FirstIndex(xs, r[j]))
  {
    AppendNewContents([], xs);
    var r := FirstOccurrences(xs);
    forall i, j | 0 <= i < j < |r|
      ensures r[i] in xs && r[j] in xs && FirstIndex(xs, r[i]) < FirstIndex(xs, r[j])
    {
      FirstOccurrencesOrdered(xs, i, j);
    }
  }

  /** The elements of `xs` that satisfy `keep`, in order. */
  function Filter<T>(xs: seq<T>, keep: T -> bool): seq<T> {
    if xs == [] then []
    else (if keep(xs[0]) then [xs[0]] else []) + Filter(xs[1..], keep)
  }

  lemma {:induction false} FilterContents<T>(xs: seq<T>, keep: T -> bool)
    ensures forall x :: x in Filter(xs, keep) <==> x in xs && keep(x)
    decreases |xs|
  {
    if xs != [] {
      FilterContents(xs[1..], keep);
    }
  }

  lemma {:induction false} FilterSnoc<T>(xs: seq<T>, x: T, keep: T -> bool)
    ensures Filter(xs + [x], keep) == Filter(xs, keep) + if keep(x) then [x] else []
    decreases |xs|
  {
    if xs == [] {
      assert [x][1..] == [];
    } else {
      assert (xs + [x])[0] == xs[0] && (xs + [x])[1..] == xs[1..] + [x];
      FilterSnoc(xs[1..], x, keep);
      var head := if keep(xs[0]) then [xs[0]] else [];
      assert Filter(xs + [x], keep) == head + Filter(xs[1..] + [x], keep);
    }
  }

  /** What is appended comes in the order in which `xs` first has it. */
  lemma {:induction false} AppendNewOrdered<T>(seen: seq<T>, xs: seq<T>, i: nat, j: nat)
    requires Distinct(seen) && |seen| <= i < j < |AppendNew(seen, xs)|
    ensures var r := AppendNew(seen, xs);
            r[i] in xs && r[j] in xs && FirstIndex(xs, r[i]) < FirstIndex(xs, r[j])
    decreases |xs|
  {
    if xs != [] {
      var n := |xs| - 1;
      var front, x := xs[..n], xs[n];
      assert xs == front + [x];
      AppendNewSnoc(seen, front, x);
      AppendNewContents(seen, front);
      var r := AppendNew(seen, front);
      AppendedFromList(seen, front, i);
      FirstIndexSnoc(front, x, r[i]);
      if j < |r| {
        AppendNewOrdered(seen, front, i, j);
        FirstIndexSnoc(front, x, r[j]);
      } else {
        assert x !in front;
        FirstIndexSnoc(front, x, x);
      }
    }
  }

  lemma AppendedFromList<T>(seen: seq<T>, xs: seq<T>, i: nat)
    requires Distinct(seen) && |seen| <= i < |AppendNew(seen, xs)|
    ensures AppendNew(seen, xs)[i] in xs && AppendNew(seen, xs)[i] !in seen
  {
    AppendNewContents(seen, xs);
    var r := AppendNew(seen, xs);
    assert r[i] in r;
    forall k | 0 <= k < |seen| ensures seen[k] != r[i] {
      assert r[k] == seen[k];
    }
  }

  /** Leaving elements out keeps the order of first occurrences. */
  lemma {:induction false} FilterKeepsOrder<T>(xs: seq<T>, keep: T -> bool, a: T, b: T)
    requires a in Filter(xs, keep) && b in Filter(xs, keep)
    requires FirstIndex(Filter(xs, keep), a) < FirstIndex(Filter(xs, keep), b)
    ensures a in xs && b in xs && FirstIndex(xs, a) < FirstIndex(xs, b)
    decreases |xs|
  {
    FilterContents(xs, keep);
    if xs[0] != a {
      var rest := Filter(xs[1..], keep);
      assert Filter(xs, keep) == if keep(xs[0]) then [xs[0]] + rest else rest;
      FilterContents(xs[1..], keep);
      assert a in xs[1..] && a in rest;
      if keep(xs[0]) {
        assert Filter(xs, keep)[1..] == rest;
        assert b != xs[0];
      } else {
        assert b != xs[0];
      }
      assert b in xs[1..] && b in rest;
      FilterKeepsOrder(xs[1..], keep, a, b);
    } else {
      assert a != b;
    }
  }

  /** `xs` can be obtained from `ys` by leaving elements out. */
  ghost predicate Subsequence<T>(xs: seq<T>, ys: seq<T>) {
    exists at: seq<nat> :: Embeds(xs, ys, at)
  }

  ghost predicate Embeds<T>(xs: seq<T>, ys: seq<T>, at: seq<nat>) {
    && |at| == |xs|
    && (forall i :: 0 <= i < |at| ==> at[i] < |ys| && ys[at[i]] == xs[i])
    && (forall i, j :: 0 <= i < j < |at| ==> at[i] < at[j])
  }
}
