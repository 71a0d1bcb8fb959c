/** `Array.prototype.filter` and flattening, defined from the last element
    so that they follow a left-to-right `forEach`. */
module Seqs {

  function Filter<T>(xs: seq<T>, p: T -> bool): (r: seq<T>)
    ensures |r| <= |xs|
    ensures forall i :: 0 <= i < |r| ==> p(r[i])
  {
    if xs == [] then []
    else
      var init, last := xs[..|xs| - 1], xs[|xs| - 1];
      assert xs == init + [last];
      Filter(init, p) + (if p(last) then [last] else [])
  }

  /** Some element satisfies `p` exactly when one before the last does or the last does. */
  lemma ExistsSnoc<T>(xs: seq<T>, init: seq<T>, last: T, p: T -> bool)
    requires xs == init + [last]
    ensures (exists i :: 0 <= i < |xs| && p(xs[i])) <==>
              (exists i :: 0 <= i < |init| && p(init[i])) || p(last)
  {
    if exists i :: 0 <= i < |xs| && p(xs[i]) {
      var i :| 0 <= i < |xs| && p(xs[i]);
      if i < |init| {
        assert init[i] == xs[i];
      }
    }
    if exists i :: 0 <= i < |init| && p(init[i]) {
      var i :| 0 <= i < |init| && p(init[i]);
      assert xs[i] == init[i];
    }
    assert xs[|init|] == last;
  }

  /** Filtering keeps only elements of the input, each at most as often. */
  lemma {:induction false} FilterSubmultiset<T>(xs: seq<T>, p: T -> bool)
    ensures multiset(Filter(xs, p)) <= multiset(xs)
  {
    if xs != [] {
      var init, last := xs[..|xs| - 1], xs[|xs| - 1];
      FilterSubmultiset(init, p);
      assert xs == init + [last];
      assert multiset(xs) == multiset(init) + multiset{last};
    }
  }

  lemma {:induction false} FilterIn<T>(xs: seq<T>, p: T -> bool, x: T)
    ensures x in Filter(xs, p) <==> x in xs && p(x)
  {
    if xs != [] {
      var init := xs[..|xs| - 1];
      FilterIn(init, p, x);
      assert xs == init + [xs[|xs| - 1]];
    }
  }

  lemma {:induction false} FilterAppend<T>(xs: seq<T>, ys: seq<T>, p: T -> bool)
    ensures Filter(xs + ys, p) == Filter(xs, p) + Filter(ys, p)
    decreases |ys|
  {
    if ys != [] {
      var init := ys[..|ys| - 1];
      assert (xs + ys)[..|xs + ys| - 1] == xs + init;
      FilterAppend(xs, init, p);
    } else {
      assert xs + ys == xs;
    }
  }

  lemma {:induction false} FilterAll<T>(xs: seq<T>, p: T -> bool)
    requires forall i :: 0 <= i < |xs| ==> p(xs[i])
    ensures Filter(xs, p) == xs
  {
    if xs != [] {
      FilterAll(xs[..|xs| - 1], p);
      assert xs == xs[..|xs| - 1] + [xs[|xs| - 1]];
    }
  }

  /** The multiset of a filter grows by the new element exactly when it
      passes. */
  lemma FilterSnocMultiset<T>(xs: seq<T>, x: T, p: T -> bool)
    ensures multiset(Filter(xs + [x], p)) == multiset(Filter(xs, p)) + (if p(x) then multiset{x} else multiset{})
  {
    assert (xs + [x])[..|xs|] == xs;
    var a := Filter(xs, p);
    if p(x) {
      assert multiset(a + [x]) == multiset(a) + multiset{x};
    } else {
      assert a + [] == a;
    }
  }

  /** Filtering by three predicates of which each element satisfies
      exactly one splits the input. */
  lemma {:induction false} FilterPartition<T>(xs: seq<T>, p: T -> bool, q: T -> bool, r: T -> bool)
    requires forall x :: p(x) ==> !q(x) && !r(x)
    requires forall x :: !p(x) ==> q(x) != r(x)
    ensures multiset(Filter(xs, p)) + multiset(Filter(xs, q)) + multiset(Filter(xs, r)) == multiset(xs)
  {
    if xs != [] {
      var init, last := xs[..|xs| - 1], xs[|xs| - 1];
      FilterPartition(init, p, q, r);
      assert xs == init + [last];
      FilterSnocMultiset(init, last, p);
      FilterSnocMultiset(init, last, q);
      FilterSnocMultiset(init, last, r);
      PartitionStep(multiset(Filter(init, p)), multiset(Filter(init, q)), multiset(Filter(init, r)),
        multiset(init), last, p(last), q(last), r(last));
    }
  }

  /** Adding one element to exactly one of three parts of a multiset. */
  lemma PartitionStep<T>(a: multiset<T>, b: multiset<T>, c: multiset<T>, m: multiset<T>, x: T,
                         inA: bool, inB: bool, inC: bool)
    requires a + b + c == m
    requires inA ==> !inB && !inC
    requires !inA ==> inB != inC
    ensures (a + (if inA then multiset{x} else multiset{})) + (b + (if inB then multiset{x} else multiset{}))
            + (c + (if inC then multiset{x} else multiset{})) == m + multiset{x}
  {
  }

  lemma FilterSnoc<T>(xs: seq<T>, x: T, p: T -> bool)
    ensures Filter(xs + [x], p) == Filter(xs, p) + (if p(x) then [x] else [])
  {
    assert (xs + [x])[..|xs|] == xs;
  }

  /** `Array.prototype.map`. */
  function Map<T, U>(xs: seq<T>, f: T -> U): (r: seq<U>)
    ensures |r| == |xs|
    ensures forall i :: 0 <= i < |xs| ==> r[i] == f(xs[i])
  {
    if xs == [] then [] else Map(xs[..|xs| - 1], f) + [f(xs[|xs| - 1])]
  }

  lemma MapSnoc<T, U>(xs: seq<T>, x: T, f: T -> U)
    ensures Map(xs + [x], f) == Map(xs, f) + [f(x)]
  {
    assert (xs + [x])[..|xs|] == xs;
  }

  lemma MapThree<T, U>(a: T, b: T, c: T, f: T -> U)
    ensures Map([a, b, c], f) == [f(a), f(b), f(c)]
  {
  }

  /** The concatenation of a list of lists, in order. */
  function Flatten<T>(xss: seq<seq<T>>): (r: seq<T>)
  {
    if xss == [] then [] else Flatten(xss[..|xss| - 1]) + xss[|xss| - 1]
  }

  lemma FlattenSnoc<T>(xss: seq<seq<T>>, ys: seq<T>)
    ensures Flatten(xss + [ys]) == Flatten(xss) + ys
  {
    assert (xss + [ys])[..|xss|] == xss;
  }

  lemma FlattenThree<T>(x: seq<T>, y: seq<T>, z: seq<T>)
    ensures Flatten([x, y, z]) == x + y + z
  {
    assert [] + [x] == [x] && [x] + [y] == [x, y] && [x, y] + [z] == [x, y, z];
    FlattenSnoc([], x);
    FlattenSnoc([x], y);
    FlattenSnoc([x, y], z);
  }

  function SumLengths<T>(xss: seq<seq<T>>): nat {
    if xss == [] then 0 else SumLengths(xss[..|xss| - 1]) + |xss[|xss| - 1]|
  }

  lemma {:induction false} FlattenLength<T>(xss: seq<seq<T>>)
    ensures |Flatten(xss)| == SumLengths(xss)
  {
    if xss != [] {
      FlattenLength(xss[..|xss| - 1]);
    }
  }

  /** Sum of a sequence of integers. */
  function Sum(xs: seq<int>): int {
    if xs == [] then 0 else Sum(xs[..|xs| - 1]) + xs[|xs| - 1]
  }
}
