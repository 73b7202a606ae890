// Shared value types and sequence facts.

module Wrappers {
  datatype Option<+T> = None | Some(value: T) {
    function GetOr(default: T): T {
      if Some? then value else default
    }
  }
}

module Sequences {
  /** Concatenation of a sequence of sequences; the last one is split off first, as appends build it. */
  function Flatten<T>(xss: seq<seq<T>>): seq<T> {
    if xss == [] then [] else Flatten(xss[..|xss| - 1]) + xss[|xss| - 1]
  }

  lemma FlattenSnoc<T>(xss: seq<seq<T>>, xs: seq<T>)
    ensures Flatten(xss + [xs]) == Flatten(xss) + xs
  {
    assert (xss + [xs])[..|xss|] == xss;
  }

  function Map<A, B>(f: A -> B, xs: seq<A>): (ys: seq<B>)
    ensures |ys| == |xs|
    ensures forall i :: 0 <= i < |xs| ==> ys[i] == f(xs[i])
  {
    seq(|xs|, i requires 0 <= i < |xs| => f(xs[i]))
  }

  lemma RemoveAt<T>(xs: seq<T>, i: nat)
    requires i < |xs|
    ensures multiset(xs) == multiset{xs[i]} + multiset(xs[..i] + xs[i + 1..])
  {
    assert xs == xs[..i] + [xs[i]] + xs[i + 1..];
  }

  lemma MapRemoveAt<A, B>(f: A -> B, xs: seq<A>, i: nat)
    requires i < |xs|
    ensures multiset(Map(f, xs)) == multiset{f(xs[i])} + multiset(Map(f, xs[..i] + xs[i + 1..]))
  {
    RemoveAt(Map(f, xs), i);
    assert Map(f, xs)[..i] + Map(f, xs)[i + 1..] == Map(f, xs[..i] + xs[i + 1..]);
  }

  lemma CancelOne<T>(x: T, a: multiset<T>, b: multiset<T>)
    requires multiset{x} + a == multiset{x} + b
    ensures a == b
  {
    assert a == (multiset{x} + a) - multiset{x} == b;
  }

  lemma IndexOf<T>(xs: seq<T>, x: T) returns (i: nat)
    requires x in multiset(xs)
    ensures i < |xs| && xs[i] == x
  {
    i :| 0 <= i < |xs| && xs[i] == x;
  }

  lemma RemoveFromBoth<T>(xs: seq<T>, i: nat, ys: seq<T>, j: nat)
    requires multiset(xs) == multiset(ys) && i < |xs| && j < |ys| && xs[i] == ys[j]
    ensures multiset(xs[..i] + xs[i + 1..]) == multiset(ys[..j] + ys[j + 1..])
  {
    RemoveAt(xs, i);
    RemoveAt(ys, j);
    CancelOne(xs[i], multiset(xs[..i] + xs[i + 1..]), multiset(ys[..j] + ys[j + 1..]));
  }

  lemma {:induction false} MapMultiset<A, B>(f: A -> B, xs: seq<A>, ys: seq<A>)
    requires multiset(xs) == multiset(ys)
    ensures multiset(Map(f, xs)) == multiset(Map(f, ys))
    decreases |xs|
  {
    if xs == [] {
      assert |ys| == |multiset(ys)| == 0;
    } else {
      var i := IndexOf(ys, xs[0]);
      var xs', ys' := xs[..0] + xs[1..], ys[..i] + ys[i + 1..];
      RemoveFromBoth(xs, 0, ys, i);
      MapMultiset(f, xs', ys');
      MapRemoveAt(f, xs, 0);
      MapRemoveAt(f, ys, i);
      assert multiset(Map(f, xs)) == multiset{f(xs[0])} + multiset(Map(f, xs'));
      assert multiset(Map(f, ys)) == multiset{f(xs[0])} + multiset(Map(f, ys'));
    }
  }
}
