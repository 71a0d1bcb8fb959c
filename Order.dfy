/** `Array.prototype.sort` with a comparator `(a, b) => key(b) - key(a)`,
    which JavaScript engines perform stably, and the `slice(0, n)` that the
    callers apply to it. */
module Order {

  predicate Descending<T>(xs: seq<T>, key: T -> int) {
    forall i, j :: 0 <= i < j < |xs| ==> key(xs[i]) >= key(xs[j])
  }

  /** The elements of `xs` whose key is `k`, in their order in `xs`. */
  function WithKey<T>(xs: seq<T>, key: T -> int, k: int): seq<T> {
    if xs == [] then []
    else (if key(xs[0]) == k then [xs[0]] else []) + WithKey(xs[1..], key, k)
  }

  /** Places `x` after every element whose key is at least its own. */
  function Insert<T>(x: T, xs: seq<T>, key: T -> int): (r: seq<T>)
    ensures |r| == |xs| + 1
    ensures multiset(r) == multiset(xs) + multiset{x}
  {
    if xs == [] then [x]
    else if key(xs[0]) >= key(x) then
      assert xs == [xs[0]] + xs[1..];
      [xs[0]] + Insert(x, xs[1..], key)
    else [x] + xs
  }

  lemma {:induction false} InsertDescending<T>(x: T, xs: seq<T>, key: T -> int)
    requires Descending(xs, key)
    ensures Descending(Insert(x, xs, key), key)
  {
    if xs != [] && key(xs[0]) >= key(x) {
      InsertDescending(x, xs[1..], key);
      var r := Insert(x, xs, key);
      forall j | 0 < j < |r| ensures key(r[0]) >= key(r[j]) {
        assert r[j] in multiset(Insert(x, xs[1..], key));
        assert r[j] == x || r[j] in xs[1..];
      }
    }
  }

  lemma {:induction false} WithKeyAppend<T>(xs: seq<T>, ys: seq<T>, key: T -> int, k: int)
    ensures WithKey(xs + ys, key, k) == WithKey(xs, key, k) + WithKey(ys, key, k)
  {
    if xs != [] {
      assert (xs + ys)[1..] == xs[1..] + ys;
      WithKeyAppend(xs[1..], ys, key, k);
    } else {
      assert xs + ys == ys;
    }
  }

  lemma {:induction false} WithKeyNone<T>(xs: seq<T>, key: T -> int, k: int)
    requires forall i :: 0 <= i < |xs| ==> key(xs[i]) < k
    ensures WithKey(xs, key, k) == []
  {
    if xs != [] {
      WithKeyNone(xs[1..], key, k);
    }
  }

  lemma WithKeyCons<T>(x: T, xs: seq<T>, key: T -> int, k: int)
    ensures WithKey([x] + xs, key, k) == (if key(x) == k then [x] else []) + WithKey(xs, key, k)
  {
    assert ([x] + xs)[1..] == xs;
  }

  /** Inserting into a sorted list keeps equal-keyed elements in arrival order. */
  lemma {:induction false} InsertStable<T>(x: T, xs: seq<T>, key: T -> int, k: int)
    requires Descending(xs, key)
    ensures WithKey(Insert(x, xs, key), key, k)
            == WithKey(xs, key, k) + (if key(x) == k then [x] else [])
  {
    if xs == [] {
      WithKeyCons(x, [], key, k);
    } else if key(xs[0]) >= key(x) {
      assert Descending(xs[1..], key);
      InsertStable(x, xs[1..], key, k);
      InsertStableStep(x, xs, key, k);
    } else {
      InsertStableFront(x, xs, key, k);
    }
  }

  lemma ConcatAssoc<T>(a: seq<T>, b: seq<T>, c: seq<T>)
    ensures a + (b + c) == (a + b) + c
  {
  }

  lemma InsertStableStep<T>(x: T, xs: seq<T>, key: T -> int, k: int)
    requires xs != [] && key(xs[0]) >= key(x)
    requires WithKey(Insert(x, xs[1..], key), key, k)
             == WithKey(xs[1..], key, k) + (if key(x) == k then [x] else [])
    ensures WithKey(Insert(x, xs, key), key, k)
            == WithKey(xs, key, k) + (if key(x) == k then [x] else [])
  {
    var tag := if key(x) == k then [x] else [];
    var y := xs[0];
    var rest := Insert(x, xs[1..], key);
    assert Insert(x, xs, key) == [y] + rest;
    WithKeyCons(y, rest, key, k);
    var ty := if key(y) == k then [y] else [];
    ConcatAssoc(ty, WithKey(xs[1..], key, k), tag);
  }

  lemma InsertStableFront<T>(x: T, xs: seq<T>, key: T -> int, k: int)
    requires Descending(xs, key)
    requires xs != [] && key(xs[0]) < key(x)
    ensures WithKey(Insert(x, xs, key), key, k)
            == WithKey(xs, key, k) + (if key(x) == k then [x] else [])
  {
    assert Insert(x, xs, key) == [x] + xs;
    WithKeyCons(x, xs, key, k);
    if key(x) == k {
      forall i | 0 <= i < |xs| ensures key(xs[i]) < k {
        if i > 0 {
          assert key(xs[0]) >= key(xs[i]);
        }
      }
      WithKeyNone(xs, key, k);
      assert WithKey(xs, key, k) + [x] == [x];
    } else {
      assert WithKey(xs, key, k) + [] == WithKey(xs, key, k);
    }
  }

  /** Stable sort by non-increasing key (insertion sort). */
  function SortDesc<T>(xs: seq<T>, key: T -> int): (r: seq<T>)
    ensures |r| == |xs|
    ensures multiset(r) == multiset(xs)
    ensures Descending(r, key)
  {
    if xs == [] then []
    else
      var init, last := xs[..|xs| - 1], xs[|xs| - 1];
      assert xs == init + [last];
      InsertDescending(last, SortDesc(init, key), key);
      Insert(last, SortDesc(init, key), key)
  }

  /** Sorting keeps, for every key, the input order of the elements with that key. */
  lemma {:induction false} SortStable<T>(xs: seq<T>, key: T -> int, k: int)
    ensures WithKey(SortDesc(xs, key), key, k) == WithKey(xs, key, k)
  {
    if xs != [] {
      var init, last := xs[..|xs| - 1], xs[|xs| - 1];
      assert xs == init + [last];
      WithKeyAppend(init, [last], key, k);
      WithKeyCons(last, [], key, k);
      assert [last] + [] == [last];
      SortStable(init, key, k);
      InsertStable(last, SortDesc(init, key), key, k);
    }
  }

  /** `sort(...).slice(0, n)`. */
  function TopN<T>(xs: seq<T>, key: T -> int, n: nat): (r: seq<T>)
    ensures |r| <= n && |r| <= |xs|
    ensures |r| == n || |r| == |xs|
    ensures Descending(r, key)
    ensures multiset(r) <= multiset(xs)
  {
    var s := SortDesc(xs, key);
    var m := if n < |s| then n else |s|;
    assert s == s[..m] + s[m..];
    assert multiset(s) == multiset(s[..m]) + multiset(s[m..]);
    s[..m]
  }

  /** Nothing left out of a top-n selection outranks anything kept. */
  lemma TopNDominates<T>(xs: seq<T>, key: T -> int, n: nat, y: T, i: int)
    requires y in multiset(xs) - multiset(TopN(xs, key, n))
    requires 0 <= i < |TopN(xs, key, n)|
    ensures key(y) <= key(TopN(xs, key, n)[i])
  {
    var s := SortDesc(xs, key);
    var m := |TopN(xs, key, n)|;
    assert TopN(xs, key, n) == s[..m];
    PrefixDominates(s, key, m, y, i);
  }

  /** In a sorted list, what lies past a prefix does not outrank the prefix. */
  lemma PrefixDominates<T>(s: seq<T>, key: T -> int, m: int, y: T, i: int)
    requires Descending(s, key) && 0 <= i < m <= |s|
    requires y in multiset(s) - multiset(s[..m])
    ensures key(y) <= key(s[i])
  {
    assert s == s[..m] + s[m..];
    assert multiset(s) == multiset(s[..m]) + multiset(s[m..]);
    assert y in multiset(s[m..]);
    var j :| 0 <= j < |s[m..]| && s[m..][j] == y;
    assert s[m + j] == y;
  }

  /** A top-n selection that leaves something out holds exactly n elements. */
  lemma TopNFull<T>(xs: seq<T>, key: T -> int, n: nat, y: T)
    requires y in multiset(xs) - multiset(TopN(xs, key, n))
    ensures |TopN(xs, key, n)| == n
  {
    var s := SortDesc(xs, key);
    var m := |TopN(xs, key, n)|;
    assert TopN(xs, key, n) == s[..m];
    assert s[..|s|] == s;
  }
}
