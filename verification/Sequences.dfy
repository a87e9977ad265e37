/** Sequence vocabulary shared by the model: optional values, order-preserving
    filters, weighted tallies over append-only ledgers, and the stable sort that
    Python's `sorted` and pandas' mergesort both promise. */
module Sequences {

  datatype Option<+T> = None | Some(value: T)

  // ---------------------------------------------------------------- filtering

  /** The elements satisfying `keep`, in their original order. */
  function Filter<T(!new)>(xs: seq<T>, keep: T -> bool): (kept: seq<T>)
    ensures |kept| <= |xs|
    ensures forall x :: x in kept <==> x in xs && keep(x)
  {
    if xs == [] then []
    else if keep(xs[0]) then [xs[0]] + Filter(xs[1..], keep)
    else Filter(xs[1..], keep)
  }

  lemma {:induction false} FilterConcat<T(!new)>(xs: seq<T>, ys: seq<T>, keep: T -> bool)
    ensures Filter(xs + ys, keep) == Filter(xs, keep) + Filter(ys, keep)
  {
    if xs == [] {
      assert xs + ys == ys;
    } else {
      assert (xs + ys)[1..] == xs[1..] + ys;
      FilterConcat(xs[1..], ys, keep);
    }
  }

  lemma FilterSnoc<T(!new)>(xs: seq<T>, x: T, keep: T -> bool)
    ensures Filter(xs + [x], keep) == Filter(xs, keep) + (if keep(x) then [x] else [])
  {
    FilterConcat(xs, [x], keep);
    assert [x][1..] == [];
  }

  lemma {:induction false} FilterAll<T(!new)>(xs: seq<T>, keep: T -> bool)
    requires forall x :: x in xs ==> keep(x)
    ensures Filter(xs, keep) == xs
  {
    if xs != [] {
      FilterAll(xs[1..], keep);
    }
  }

  lemma {:induction false} FilterNone<T(!new)>(xs: seq<T>, keep: T -> bool)
    requires forall x :: x in xs ==> !keep(x)
    ensures Filter(xs, keep) == []
  {
    if xs != [] {
      FilterNone(xs[1..], keep);
    }
  }

  function Not<T>(keep: T -> bool): T -> bool { x => !keep(x) }

  /** A predicate and its negation split a sequence without losing or repeating an element. */
  lemma {:induction false} FilterPartition<T(!new)>(xs: seq<T>, keep: T -> bool)
    ensures |Filter(xs, keep)| + |Filter(xs, Not(keep))| == |xs|
    ensures multiset(Filter(xs, keep)) + multiset(Filter(xs, Not(keep))) == multiset(xs)
  {
    if xs != [] {
      assert xs == [xs[0]] + xs[1..];
      FilterPartition(xs[1..], keep);
    }
  }

  predicate NoDuplicates<T(==)>(xs: seq<T>) {
    forall i, j :: 0 <= i < j < |xs| ==> xs[i] != xs[j]
  }

  // ------------------------------------------------------------------ tallies

  /** The total weight of a ledger, summed from its oldest entry to its newest. */
  function Tally<T>(xs: seq<T>, weight: T -> int): int {
    if xs == [] then 0 else Tally(xs[..|xs| - 1], weight) + weight(xs[|xs| - 1])
  }

  lemma {:induction false} TallyAppend<T>(xs: seq<T>, x: T, weight: T -> int)
    ensures Tally(xs + [x], weight) == Tally(xs, weight) + weight(x)
  {
  }

  lemma {:induction false} TallyConcat<T>(xs: seq<T>, ys: seq<T>, weight: T -> int)
    ensures Tally(xs + ys, weight) == Tally(xs, weight) + Tally(ys, weight)
  {
    if ys == [] {
      assert xs + ys == xs;
    } else {
      var front := ys[..|ys| - 1];
      assert ys == front + [ys[|ys| - 1]];
      assert xs + ys == (xs + front) + [ys[|ys| - 1]];
      TallyAppend(xs + front, ys[|ys| - 1], weight);
      TallyConcat(xs, front, weight);
    }
  }

  /** Entries of no weight do not move a tally. */
  lemma {:induction false} TallyIgnores<T>(xs: seq<T>, ys: seq<T>, weight: T -> int)
    requires xs <= ys && forall i :: |xs| <= i < |ys| ==> weight(ys[i]) == 0
    ensures Tally(ys, weight) == Tally(xs, weight)
  {
    if |ys| > |xs| {
      TallyIgnores(xs, ys[..|ys| - 1], weight);
    } else {
      assert xs == ys;
    }
  }

  /** Weights that differ at one element of a duplicate-free sequence differ by that much in total. */
  lemma {:induction false} TallyPoint<T(!new)>(xs: seq<T>, x: T, f: T -> int, g: T -> int)
    requires NoDuplicates(xs) && forall y :: y in xs && y != x ==> f(y) == g(y)
    ensures Tally(xs, g) - Tally(xs, f) == if x in xs then g(x) - f(x) else 0
  {
    if xs != [] {
      var front := xs[..|xs| - 1];
      assert xs == front + [xs[|xs| - 1]];
      TallyPoint(front, x, f, g);
    }
  }

  // ------------------------------------------------------------------ map sizes

  lemma InsertSize<K, V>(m: map<K, V>, k: K, v: V)
    ensures |m[k := v]| == (if k in m then |m| else |m| + 1)
  {
    assert m[k := v].Keys == m.Keys + {k};
    assert |m.Keys| == |m| && |m[k := v].Keys| == |m[k := v]|;
  }

  // -------------------------------------------------------------- stable sort

  ghost predicate TotalPreorder<T(!new)>(leq: (T, T) -> bool) {
    && (forall x, y :: leq(x, y) || leq(y, x))
    && (forall x, y, z :: leq(x, y) && leq(y, z) ==> leq(x, z))
  }

  ghost predicate SortedBy<T>(xs: seq<T>, leq: (T, T) -> bool) {
    forall i, j :: 0 <= i < j < |xs| ==> leq(xs[i], xs[j])
  }

  lemma SortedCons<T>(x: T, xs: seq<T>, leq: (T, T) -> bool)
    requires SortedBy(xs, leq) && forall y :: y in xs ==> leq(x, y)
    ensures SortedBy([x] + xs, leq)
  {
    var all := [x] + xs;
    forall i, j | 0 <= i < j < |all| ensures leq(all[i], all[j]) {
      assert all[j] == xs[j - 1] && xs[j - 1] in xs;
      if i > 0 {
        assert all[i] == xs[i - 1];
      }
    }
  }

  /** Places `x` in front of the first element it does not exceed, so that among
      equals the element that came first stays first. */
  function Insert<T>(x: T, xs: seq<T>, leq: (T, T) -> bool): seq<T> {
    if xs == [] then [x]
    else if leq(x, xs[0]) then [x] + xs
    else [xs[0]] + Insert(x, xs[1..], leq)
  }

  function StableSort<T>(xs: seq<T>, leq: (T, T) -> bool): seq<T> {
    if xs == [] then [] else Insert(xs[0], StableSort(xs[1..], leq), leq)
  }

  lemma {:induction false} InsertContents<T>(x: T, xs: seq<T>, leq: (T, T) -> bool)
    ensures multiset(Insert(x, xs, leq)) == multiset{x} + multiset(xs)
    ensures |Insert(x, xs, leq)| == |xs| + 1
  {
    if xs != [] {
      assert xs == [xs[0]] + xs[1..];
      InsertContents(x, xs[1..], leq);
    }
  }

  lemma {:induction false} InsertSorted<T(!new)>(x: T, xs: seq<T>, leq: (T, T) -> bool)
    requires TotalPreorder(leq) && SortedBy(xs, leq)
    ensures SortedBy(Insert(x, xs, leq), leq)
  {
    if xs != [] && !leq(x, xs[0]) {
      InsertSorted(x, xs[1..], leq);
      InsertContents(x, xs[1..], leq);
      var tail := Insert(x, xs[1..], leq);
      forall y | y in tail ensures leq(xs[0], y) {
        assert y in multiset(tail);
        assert y == x || y in multiset(xs[1..]);
        if y != x {
          assert y in xs[1..];
        }
      }
    }
  }

  /** The sort rearranges its input into ascending order and nothing else. */
  lemma {:induction false} SortIsSortedPermutation<T(!new)>(xs: seq<T>, leq: (T, T) -> bool)
    requires TotalPreorder(leq)
    ensures SortedBy(StableSort(xs, leq), leq)
    ensures multiset(StableSort(xs, leq)) == multiset(xs)
    ensures |StableSort(xs, leq)| == |xs|
  {
    if xs != [] {
      assert xs == [xs[0]] + xs[1..];
      SortIsSortedPermutation(xs[1..], leq);
      InsertSorted(xs[0], StableSort(xs[1..], leq), leq);
      InsertContents(xs[0], StableSort(xs[1..], leq), leq);
    }
  }

  lemma {:induction false} FilterInsert<T(!new)>(x: T, xs: seq<T>, leq: (T, T) -> bool, keep: T -> bool)
    requires TotalPreorder(leq) && SortedBy(xs, leq)
    ensures Filter(Insert(x, xs, leq), keep)
         == if keep(x) then Insert(x, Filter(xs, keep), leq) else Filter(xs, keep)
  {
    if xs == [] {
    } else if leq(x, xs[0]) {
      var kept := Filter(xs, keep);
      if keep(x) && kept != [] {
        assert kept[0] in xs;
        var i :| 0 <= i < |xs| && xs[i] == kept[0];
        assert leq(x, kept[0]);
      }
      assert ([x] + xs)[1..] == xs;
    } else {
      FilterInsert(x, xs[1..], leq, keep);
      assert Insert(x, xs, leq)[1..] == Insert(x, xs[1..], leq);
    }
  }

  /** Stability in its usable form: dropping elements before or after the sort gives
      the same sequence, so elements the order cannot tell apart keep their order. */
  lemma {:induction false} SortCommutesWithFilter<T(!new)>(xs: seq<T>, leq: (T, T) -> bool, keep: T -> bool)
    requires TotalPreorder(leq)
    ensures Filter(StableSort(xs, leq), keep) == StableSort(Filter(xs, keep), leq)
  {
    if xs != [] {
      SortCommutesWithFilter(xs[1..], leq, keep);
      SortIsSortedPermutation(xs[1..], leq);
      FilterInsert(xs[0], StableSort(xs[1..], leq), leq, keep);
    }
  }

  /** Sorting a sequence that is already in order changes nothing. */
  lemma {:induction false} SortOfSorted<T>(xs: seq<T>, leq: (T, T) -> bool)
    requires SortedBy(xs, leq)
    ensures StableSort(xs, leq) == xs
  {
    if |xs| > 1 {
      assert SortedBy(xs[1..], leq);
      SortOfSorted(xs[1..], leq);
      assert leq(xs[0], xs[1]);
    } else if |xs| == 1 {
      assert xs == [xs[0]];
    }
  }
}
