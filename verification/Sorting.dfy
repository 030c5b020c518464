/**
 Byte-wise string order and sorting by name, as `sort.Strings` and `sort.Slice` use it.
 Both sorts are only ever applied to lists whose names are distinct, and then every sorted
 arrangement is the same one, so the (unstable) algorithm behind them does not matter.
 */
module Sorting {

  /** Lexicographic order on strings. */
  predicate Leq(a: string, b: string) {
    |a| == 0 || (|b| > 0 && (a[0] < b[0] || (a[0] == b[0] && Leq(a[1..], b[1..]))))
  }

  lemma {:induction false} LeqTotal(a: string, b: string)
    ensures Leq(a, b) || Leq(b, a)
  {
    if |a| > 0 && |b| > 0 && a[0] == b[0] {
      LeqTotal(a[1..], b[1..]);
    }
  }

  lemma {:induction false} LeqAntisymmetric(a: string, b: string)
    requires Leq(a, b) && Leq(b, a)
    ensures a == b
  {
    if |a| == 0 || |b| == 0 {
    } else {
      LeqAntisymmetric(a[1..], b[1..]);
      assert a == [a[0]] + a[1..] && b == [b[0]] + b[1..];
    }
  }

  lemma {:induction false} LeqTransitive(a: string, b: string, c: string)
    requires Leq(a, b) && Leq(b, c)
    ensures Leq(a, c)
  {
    if |a| > 0 && a[0] == b[0] && b[0] == c[0] {
      LeqTransitive(a[1..], b[1..], c[1..]);
    }
  }

  ghost predicate Sorted<T>(xs: seq<T>, name: T -> string) {
    forall i, j | 0 <= i < j < |xs| :: Leq(name(xs[i]), name(xs[j]))
  }

  ghost predicate DistinctNames<T>(xs: seq<T>, name: T -> string) {
    forall i, j | 0 <= i < j < |xs| :: name(xs[i]) != name(xs[j])
  }

  /** Inserts `x` in front of the first element whose name is not smaller. */
  function Insert<T>(x: T, xs: seq<T>, name: T -> string): (r: seq<T>)
    ensures multiset(r) == multiset(xs) + multiset{x}
    ensures |r| == |xs| + 1
  {
    if |xs| == 0 then [x]
    else if Leq(name(x), name(xs[0])) then [x] + xs
    else
      assert xs == [xs[0]] + xs[1..];
      [xs[0]] + Insert(x, xs[1..], name)
  }

  /** The sorted arrangement of `xs`. */
  function Sort<T>(xs: seq<T>, name: T -> string): (r: seq<T>)
    ensures multiset(r) == multiset(xs)
    ensures |r| == |xs|
  {
    if |xs| == 0 then []
    else
      assert xs == [xs[0]] + xs[1..];
      Insert(xs[0], Sort(xs[1..], name), name)
  }

  lemma {:induction false} InsertSorted<T>(x: T, xs: seq<T>, name: T -> string)
    requires Sorted(xs, name)
    ensures Sorted(Insert(x, xs, name), name)
  {
    if |xs| == 0 {
    } else {
      LeqTotal(name(x), name(xs[0]));
      if Leq(name(x), name(xs[0])) {
        forall j | 0 <= j < |xs| ensures Leq(name(x), name(xs[j])) {
          if j > 0 { LeqTransitive(name(x), name(xs[0]), name(xs[j])); }
        }
      } else {
        InsertSorted(x, xs[1..], name);
        var rest := Insert(x, xs[1..], name);
        forall j | 0 <= j < |rest| ensures Leq(name(xs[0]), name(rest[j])) {
          assert rest[j] in multiset(rest);
          assert rest[j] == x || rest[j] in xs[1..];
        }
      }
    }
  }

  lemma {:induction false} SortSorted<T>(xs: seq<T>, name: T -> string)
    ensures Sorted(Sort(xs, name), name)
  {
    if |xs| == 0 {
    } else {
      SortSorted(xs[1..], name);
      InsertSorted(xs[0], Sort(xs[1..], name), name);
    }
  }

  /** Sorting keeps exactly the same elements, and distinct names stay distinct. */
  lemma SortKeeps<T>(xs: seq<T>, name: T -> string)
    ensures forall x :: x in Sort(xs, name) <==> x in xs
    ensures DistinctNames(xs, name) ==> DistinctNames(Sort(xs, name), name)
  {
    var r := Sort(xs, name);
    forall x ensures x in r <==> x in xs {
      assert x in multiset(r) <==> x in multiset(xs);
    }
    if DistinctNames(xs, name) {
      forall i, j | 0 <= i < j < |r| ensures name(r[i]) != name(r[j]) {
        assert r[i] in multiset(r) && r[j] in multiset(r);
        assert r[i] in xs && r[j] in xs;
        OccursOnce(xs, name, r[i]);
        if name(r[i]) == name(r[j]) {
          OccursTwice(r, i, j);
        }
      }
    }
  }

  lemma {:induction false} OccursOnce<T>(xs: seq<T>, name: T -> string, x: T)
    requires DistinctNames(xs, name)
    ensures multiset(xs)[x] <= 1
  {
    if |xs| == 0 {
    } else {
      assert xs == [xs[0]] + xs[1..];
      OccursOnce(xs[1..], name, x);
      if x in xs[1..] {
        var j :| 0 <= j < |xs[1..]| && xs[1..][j] == x;
        assert name(xs[0]) != name(xs[j + 1]);
      }
    }
  }

  lemma OccursTwice<T>(xs: seq<T>, i: nat, j: nat)
    requires i < j < |xs| && xs[i] == xs[j]
    ensures multiset(xs)[xs[i]] >= 2
  {
    assert xs == xs[..j] + [xs[j]] + xs[j + 1..];
    assert xs[..j][i] == xs[i];
    assert xs[i] in multiset(xs[..j]);
  }

  /** Two sorted lists with distinct names and the same elements are the same list. */
  lemma {:induction false} SortedUnique<T>(xs: seq<T>, ys: seq<T>, name: T -> string)
    requires Sorted(xs, name) && Sorted(ys, name)
    requires DistinctNames(xs, name) && DistinctNames(ys, name)
    requires forall x :: x in xs <==> x in ys
    ensures xs == ys
  {
    assert |ys| > 0 ==> ys[0] in xs;
    if |xs| > 0 {
      assert xs[0] in ys;
      var i :| 0 <= i < |ys| && ys[i] == xs[0];
      var j :| 0 <= j < |xs| && xs[j] == ys[0];
      assert j > 0 ==> name(xs[0]) != name(xs[j]);
      if i > 0 && j > 0 {
        LeqAntisymmetric(name(xs[0]), name(ys[0]));
      }
      assert xs[0] == ys[0];
      forall x ensures x in xs[1..] <==> x in ys[1..] {
        TailMembers(xs, name, x);
        TailMembers(ys, name, x);
      }
      SortedUnique(xs[1..], ys[1..], name);
      assert xs == [xs[0]] + xs[1..] && ys == [ys[0]] + ys[1..];
    }
  }

  lemma TailMembers<T>(xs: seq<T>, name: T -> string, x: T)
    requires |xs| > 0 && DistinctNames(xs, name)
    ensures x in xs[1..] <==> x in xs && x != xs[0]
  {
  }

  /** The result of sorting depends only on the set of elements, not on the input order. */
  lemma SortCanonical<T>(xs: seq<T>, ys: seq<T>, name: T -> string)
    requires DistinctNames(xs, name) && DistinctNames(ys, name)
    requires forall x :: x in xs <==> x in ys
    ensures Sort(xs, name) == Sort(ys, name)
  {
    SortSorted(xs, name);
    SortSorted(ys, name);
    SortKeeps(xs, name);
    SortKeeps(ys, name);
    SortedUnique(Sort(xs, name), Sort(ys, name), name);
  }
}
