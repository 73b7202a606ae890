// `Array.prototype.sort` with a comparator: a stable sort, specified by insertion.

module Sorting {
  import opened Sequences

  ghost predicate TotalPreorder<T(!new)>(leq: (T, T) -> bool) {
    && (forall a, b :: leq(a, b) || leq(b, a))
    && (forall a, b, c :: leq(a, b) && leq(b, c) ==> leq(a, c))
  }

  ghost predicate Antisymmetric<T(!new)>(leq: (T, T) -> bool) {
    forall a, b :: leq(a, b) && leq(b, a) ==> a == b
  }

  predicate Sorted<T>(leq: (T, T) -> bool, xs: seq<T>) {
    forall i, j :: 0 <= i < j < |xs| ==> leq(xs[i], xs[j])
  }

  /** Insert `x` before the first element that is not strictly smaller. */
  function Insert<T>(leq: (T, T) -> bool, x: T, xs: seq<T>): seq<T> {
    if xs == [] then [x]
    else if leq(x, xs[0]) then [x] + xs
    else [xs[0]] + Insert(leq, x, xs[1..])
  }

  function Sort<T>(leq: (T, T) -> bool, xs: seq<T>): seq<T> {
    if xs == [] then [] else Insert(leq, xs[0], Sort(leq, xs[1..]))
  }

  lemma {:induction false} InsertPermutes<T>(leq: (T, T) -> bool, x: T, xs: seq<T>)
    ensures multiset(Insert(leq, x, xs)) == multiset{x} + multiset(xs)
  {
    if xs != [] && !leq(x, xs[0]) {
      InsertPermutes(leq, x, xs[1..]);
      assert xs == [xs[0]] + xs[1..];
    }
  }

  /** Sorting rearranges. */
  lemma {:induction false} SortPermutes<T>(leq: (T, T) -> bool, xs: seq<T>)
    ensures multiset(Sort(leq, xs)) == multiset(xs)
    ensures |Sort(leq, xs)| == |xs|
  {
    if xs != [] {
      SortPermutes(leq, xs[1..]);
      InsertPermutes(leq, xs[0], Sort(leq, xs[1..]));
      assert xs == [xs[0]] + xs[1..];
    }
    assert |Sort(leq, xs)| == |multiset(Sort(leq, xs))| == |multiset(xs)| == |xs|;
  }

  lemma {:induction false} InsertSorted<T(!new)>(leq: (T, T) -> bool, x: T, xs: seq<T>)
    requires TotalPreorder(leq) && Sorted(leq, xs)
    ensures Sorted(leq, Insert(leq, x, xs))
  {
    if xs != [] && !leq(x, xs[0]) {
      InsertSorted(leq, x, xs[1..]);
      var ys := Insert(leq, x, xs[1..]);
      InsertPermutes(leq, x, xs[1..]);
      forall j | 0 <= j < |ys| ensures leq(xs[0], ys[j]) {
        assert ys[j] in multiset(ys);
        assert ys[j] == x || ys[j] in xs[1..];
      }
    } else if xs != [] {
      forall j | 0 <= j < |xs| ensures leq(x, xs[j]) {
        assert j == 0 || leq(xs[0], xs[j]);
      }
    }
  }

  lemma {:induction false} SortSorted<T(!new)>(leq: (T, T) -> bool, xs: seq<T>)
    requires TotalPreorder(leq)
    ensures Sorted(leq, Sort(leq, xs))
  {
    if xs != [] {
      SortSorted(leq, xs[1..]);
      InsertSorted(leq, xs[0], Sort(leq, xs[1..]));
    }
  }

  lemma {:induction false} SortOfSorted<T>(leq: (T, T) -> bool, xs: seq<T>)
    requires Sorted(leq, xs)
    ensures Sort(leq, xs) == xs
  {
    if xs != [] {
      SortOfSorted(leq, xs[1..]);
      assert |xs| > 1 ==> leq(xs[0], xs[1]);
    }
  }

  lemma SameHead<T(!new)>(leq: (T, T) -> bool, xs: seq<T>, ys: seq<T>)
    requires Antisymmetric(leq) && Sorted(leq, xs) && Sorted(leq, ys)
    requires multiset(xs) == multiset(ys) && xs != [] && ys != []
    ensures xs[0] == ys[0]
  {
    assert xs[0] in multiset(ys) && ys[0] in multiset(xs);
    var i := IndexOf(ys, xs[0]);
    var j := IndexOf(xs, ys[0]);
  }

  lemma SameLength<T>(xs: seq<T>, ys: seq<T>)
    requires multiset(xs) == multiset(ys)
    ensures |xs| == |ys|
  {
    assert |xs| == |multiset(xs)| == |multiset(ys)| == |ys|;
  }

  lemma SameTails<T>(xs: seq<T>, ys: seq<T>)
    requires multiset(xs) == multiset(ys) && xs != [] && ys != [] && xs[0] == ys[0]
    ensures multiset(xs[1..]) == multiset(ys[1..])
  {
    RemoveFromBoth(xs, 0, ys, 0);
    DropFirst(xs);
    DropFirst(ys);
  }

  lemma DropFirst<T>(xs: seq<T>)
    requires xs != []
    ensures xs[..0] + xs[1..] == xs[1..] && xs == [xs[0]] + xs[1..]
  {
  }

  /** A sorted arrangement is unique when only equal elements tie. */
  lemma {:induction false} SortedUnique<T(!new)>(leq: (T, T) -> bool, xs: seq<T>, ys: seq<T>)
    requires Antisymmetric(leq)
    requires Sorted(leq, xs) && Sorted(leq, ys) && multiset(xs) == multiset(ys)
    ensures xs == ys
    decreases |xs|
  {
    SameLength(xs, ys);
    if xs != [] {
      SameHead(leq, xs, ys);
      SameTails(xs, ys);
      SortedUnique(leq, xs[1..], ys[1..]);
      DropFirst(xs);
      DropFirst(ys);
    }
  }

  /** Elements that compare alike under `f` sort alike under `f`. */
  lemma {:induction false} SortMapped<A, B>(leq: (A, A) -> bool, leq': (B, B) -> bool, f: A -> B, xs: seq<A>)
    requires forall a, b :: a in xs && b in xs ==> leq(a, b) == leq'(f(a), f(b))
    ensures Map(f, Sort(leq, xs)) == Sort(leq', Map(f, xs))
  {
    if xs == [] {
      assert Map(f, xs) == [];
    } else {
      SortMapped(leq, leq', f, xs[1..]);
      assert Map(f, xs)[1..] == Map(f, xs[1..]);
      SortPermutes(leq, xs[1..]);
      forall y | y in Sort(leq, xs[1..]) ensures y in xs {
        assert y in multiset(xs[1..]);
      }
      InsertMapped(leq, leq', f, xs[0], Sort(leq, xs[1..]));
    }
  }

  lemma {:induction false} InsertMapped<A, B>(leq: (A, A) -> bool, leq': (B, B) -> bool, f: A -> B, x: A, xs: seq<A>)
    requires forall b :: b in xs ==> leq(x, b) == leq'(f(x), f(b))
    ensures Map(f, Insert(leq, x, xs)) == Insert(leq', f(x), Map(f, xs))
  {
    if xs != [] && !leq(x, xs[0]) {
      InsertMapped(leq, leq', f, x, xs[1..]);
      assert Map(f, xs)[1..] == Map(f, xs[1..]);
    }
  }
}
