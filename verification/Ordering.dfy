/** The orders Python sorts strings and tuples by, and what sorting a set of keys yields. */
module Ordering {
  import opened Sequences

  ghost predicate TotalOrder<T(!new)>(leq: (T, T) -> bool) {
    TotalPreorder(leq) && forall x, y :: leq(x, y) && leq(y, x) ==> x == y
  }

  /** Sequences compare by their first difference; a proper prefix comes first. */
  predicate LexLeq<T(==)>(a: seq<T>, b: seq<T>, leq: (T, T) -> bool) {
    a == [] || (b != [] && if a[0] == b[0] then LexLeq(a[1..], b[1..], leq) else leq(a[0], b[0]))
  }

  lemma {:induction false} LexTotal<T(!new)>(a: seq<T>, b: seq<T>, leq: (T, T) -> bool)
    requires TotalOrder(leq)
    ensures LexLeq(a, b, leq) || LexLeq(b, a, leq)
    ensures LexLeq(a, b, leq) && LexLeq(b, a, leq) ==> a == b
  {
    if a != [] && b != [] && a[0] == b[0] {
      LexTotal(a[1..], b[1..], leq);
      assert a == [a[0]] + a[1..] && b == [b[0]] + b[1..];
    }
  }

  lemma {:induction false} LexTransitive<T(!new)>(a: seq<T>, b: seq<T>, c: seq<T>, leq: (T, T) -> bool)
    requires TotalOrder(leq) && LexLeq(a, b, leq) && LexLeq(b, c, leq)
    ensures LexLeq(a, c, leq)
  {
    if a != [] {
      if a[0] == b[0] && b[0] == c[0] {
        LexTransitive(a[1..], b[1..], c[1..], leq);
      }
    }
  }

  predicate CharLeq(a: char, b: char) { a <= b }

  predicate TextLeq(a: string, b: string) { LexLeq(a, b, CharLeq) }

  /** Tuples of strings compare component by component. */
  predicate FieldsLeq(a: seq<string>, b: seq<string>) { LexLeq(a, b, TextLeq) }

  lemma TextIsOrdered()
    ensures TotalOrder(TextLeq)
  {
    forall x, y ensures (TextLeq(x, y) || TextLeq(y, x)) && (TextLeq(x, y) && TextLeq(y, x) ==> x == y) {
      LexTotal(x, y, CharLeq);
    }
    forall x, y, z | TextLeq(x, y) && TextLeq(y, z) ensures TextLeq(x, z) { LexTransitive(x, y, z, CharLeq); }
  }

  lemma FieldsAreOrdered()
    ensures TotalOrder(FieldsLeq)
  {
    TextIsOrdered();
    forall x, y ensures (FieldsLeq(x, y) || FieldsLeq(y, x)) && (FieldsLeq(x, y) && FieldsLeq(y, x) ==> x == y) {
      LexTotal(x, y, TextLeq);
    }
    forall x, y, z | FieldsLeq(x, y) && FieldsLeq(y, z) ensures FieldsLeq(x, z) { LexTransitive(x, y, z, TextLeq); }
  }

  // ------------------------------------------------------------- sorted distinct

  /** The distinct elements, each where it first occurs. */
  function Distinct<T(==, !new)>(xs: seq<T>): (ys: seq<T>)
    ensures forall x :: x in ys <==> x in xs
    ensures NoDuplicates(ys)
  {
    if xs == [] then []
    else
      var ys := Distinct(xs[..|xs| - 1]);
      assert xs == xs[..|xs| - 1] + [xs[|xs| - 1]];
      if xs[|xs| - 1] in ys then ys else ys + [xs[|xs| - 1]]
  }

  /** `sorted(set(xs))`. */
  function SortedSet<T(==, !new)>(xs: seq<T>, leq: (T, T) -> bool): seq<T> { StableSort(Distinct(xs), leq) }

  ghost predicate StrictlySorted<T(!new)>(xs: seq<T>, leq: (T, T) -> bool) {
    forall i, j :: 0 <= i < j < |xs| ==> leq(xs[i], xs[j]) && xs[i] != xs[j]
  }

  lemma {:induction false} DistinctCount<T>(xs: seq<T>, x: T)
    requires NoDuplicates(xs)
    ensures multiset(xs)[x] == if x in xs then 1 else 0
  {
    if xs != [] {
      var front := xs[..|xs| - 1];
      assert xs == front + [xs[|xs| - 1]];
      DistinctCount(front, x);
    }
  }

  lemma SortedSetIsSorted<T(!new)>(xs: seq<T>, leq: (T, T) -> bool)
    requires TotalOrder(leq)
    ensures StrictlySorted(SortedSet(xs, leq), leq)
    ensures forall x :: x in SortedSet(xs, leq) <==> x in xs
  {
    var ys := Distinct(xs);
    var zs := SortedSet(xs, leq);
    SortIsSortedPermutation(ys, leq);
    forall x ensures x in zs <==> x in xs {
      assert x in zs <==> x in multiset(zs);
      assert x in ys <==> x in multiset(ys);
    }
    forall i, j | 0 <= i < j < |zs| ensures leq(zs[i], zs[j]) && zs[i] != zs[j] {
      if zs[i] == zs[j] {
        DistinctCount(ys, zs[i]);
        TwiceCounted(zs, i, j);
      }
    }
  }

  lemma TwiceCounted<T>(zs: seq<T>, i: nat, j: nat)
    requires i < j < |zs| && zs[i] == zs[j]
    ensures multiset(zs)[zs[i]] >= 2
  {
    assert zs == zs[..i] + [zs[i]] + zs[i + 1..j] + [zs[j]] + zs[j + 1..];
  }

}
