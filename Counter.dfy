/** A JavaScript object used as a counter (`counts[k] = (counts[k] || 0) + 1`)
    viewed through `Object.entries`: one entry per key, in the order the keys
    were first stored. */
module Counter {
  import opened Wrappers
  import opened Order

  datatype Entry = Entry(key: string, count: nat)

  type Tally = seq<Entry>

  /** Sort key used by `sort(([, a], [, b]) => b - a)`. */
  function CountOf(e: Entry): int {
    e.count
  }

  function Keys(t: Tally): (r: seq<string>)
    ensures |r| == |t|
    ensures forall i :: 0 <= i < |t| ==> r[i] == t[i].key
  {
    seq(|t|, i requires 0 <= i < |t| => t[i].key)
  }

  /** Distinct keys, each counted at least once. */
  predicate WellFormed(t: Tally) {
    && (forall i, j :: 0 <= i < j < |t| ==> t[i].key != t[j].key)
    && (forall i :: 0 <= i < |t| ==> t[i].count >= 1)
  }

  /** `counts[k]` read with `|| 0`. */
  function Get(t: Tally, k: string): (r: nat)
    ensures r > 0 ==> exists i :: 0 <= i < |t| && t[i].key == k
  {
    if t == [] then 0
    else if t[|t| - 1].key == k then t[|t| - 1].count + Get(t[..|t| - 1], k)
    else Get(t[..|t| - 1], k)
  }

  /** `counts[k] = (counts[k] || 0) + 1`. */
  function Bump(t: Tally, k: string): (r: Tally)
    ensures |r| == |t| || |r| == |t| + 1
    ensures forall i :: 0 <= i < |t| ==> r[i].key == t[i].key
    ensures |r| == |t| + 1 ==> r[|t|] == Entry(k, 1)
  {
    if t == [] then [Entry(k, 1)]
    else if t[0].key == k then [Entry(k, t[0].count + 1)] + t[1..]
    else [t[0]] + Bump(t[1..], k)
  }

  /** The counter after a left-to-right `forEach` over `xs`. */
  function TallyOf(xs: seq<string>): Tally {
    if xs == [] then [] else Bump(TallyOf(xs[..|xs| - 1]), xs[|xs| - 1])
  }

  lemma TallySnoc(xs: seq<string>, x: string)
    ensures TallyOf(xs + [x]) == Bump(TallyOf(xs), x)
  {
    assert (xs + [x])[..|xs|] == xs;
  }

  /** The counter after bumping each of `items` in turn. */
  function BumpAll(t: Tally, items: seq<string>): Tally {
    if items == [] then t else Bump(BumpAll(t, items[..|items| - 1]), items[|items| - 1])
  }

  lemma {:induction false} BumpAllTally(xs: seq<string>, ys: seq<string>)
    ensures BumpAll(TallyOf(xs), ys) == TallyOf(xs + ys)
  {
    if ys == [] {
      assert xs + ys == xs;
    } else {
      var init, last := ys[..|ys| - 1], ys[|ys| - 1];
      calc {
        BumpAll(TallyOf(xs), ys);
        Bump(BumpAll(TallyOf(xs), init), last);
        { BumpAllTally(xs, init); }
        Bump(TallyOf(xs + init), last);
        { TallySnoc(xs + init, last); }
        TallyOf(xs + init + [last]);
        { assert xs + init + [last] == xs + ys; }
        TallyOf(xs + ys);
      }
    }
  }

  /** A `forEach` over `items` bumping `counts` once per item, in order. */
  method CountAll(counts: Tally, items: seq<string>) returns (r: Tally)
    ensures r == BumpAll(counts, items)
  {
    r := counts;
    var j := 0;
    while j < |items|
      invariant 0 <= j <= |items|
      invariant r == BumpAll(counts, items[..j])
    {
      assert items[..j + 1][..j] == items[..j];
      r := Bump(r, items[j]);
      j := j + 1;
    }
    assert items[..j] == items;
  }

  function Total(t: Tally): nat {
    if t == [] then 0 else Total(t[..|t| - 1]) + t[|t| - 1].count
  }

  lemma {:induction false} TotalCons(e: Entry, t: Tally)
    ensures Total([e] + t) == e.count + Total(t)
    decreases |t|
  {
    if t != [] {
      var s := [e] + t;
      assert s[..|s| - 1] == [e] + t[..|t| - 1];
      TotalCons(e, t[..|t| - 1]);
    } else {
      assert ([e] + t)[..0] == [];
    }
  }

  lemma {:induction false} GetCons(e: Entry, t: Tally, k: string)
    ensures Get([e] + t, k) == (if e.key == k then e.count else 0) + Get(t, k)
    decreases |t|
  {
    if t != [] {
      var s := [e] + t;
      assert s[..|s| - 1] == [e] + t[..|t| - 1];
      GetCons(e, t[..|t| - 1], k);
    } else {
      assert ([e] + t)[..0] == [];
    }
  }

  lemma {:induction false} BumpGet(t: Tally, k: string, j: string)
    ensures Get(Bump(t, k), j) == Get(t, j) + (if j == k then 1 else 0)
  {
    if t == [] {
      GetCons(Entry(k, 1), [], j);
      assert [Entry(k, 1)] + [] == Bump(t, k);
    } else {
      var e, rest := t[0], t[1..];
      assert t == [e] + rest;
      GetCons(e, rest, j);
      if e.key == k {
        assert Bump(t, k) == [Entry(k, e.count + 1)] + rest;
        GetCons(Entry(k, e.count + 1), rest, j);
      } else {
        assert Bump(t, k) == [e] + Bump(rest, k);
        BumpGet(rest, k, j);
        GetCons(e, Bump(rest, k), j);
      }
    }
  }

  /** Bumping a list of keys adds, to each key, its number of occurrences in the list. */
  lemma {:induction false} BumpAllGet(t: Tally, items: seq<string>, k: string)
    ensures Get(BumpAll(t, items), k) == Get(t, k) + multiset(items)[k]
  {
    if items != [] {
      var init, last := items[..|items| - 1], items[|items| - 1];
      assert items == init + [last];
      assert multiset(items)[k] == multiset(init)[k] + (if last == k then 1 else 0);
      BumpAllGet(t, init, k);
      BumpGet(BumpAll(t, init), last, k);
    }
  }

  lemma {:induction false} BumpTotal(t: Tally, k: string)
    ensures Total(Bump(t, k)) == Total(t) + 1
  {
    if t == [] {
      assert [Entry(k, 1)][..0] == [];
    } else {
      assert t == [t[0]] + t[1..];
      TotalCons(t[0], t[1..]);
      if t[0].key == k {
        TotalCons(Entry(k, t[0].count + 1), t[1..]);
      } else {
        BumpTotal(t[1..], k);
        TotalCons(t[0], Bump(t[1..], k));
      }
    }
  }

  lemma KeysCons(e: Entry, t: Tally)
    ensures Keys([e] + t) == [e.key] + Keys(t)
  {
  }

  /** Bumping a stored key keeps the keys; a new key is appended. */
  lemma {:induction false} BumpKeys(t: Tally, k: string)
    ensures k in Keys(t) ==> Keys(Bump(t, k)) == Keys(t)
    ensures k !in Keys(t) ==> Keys(Bump(t, k)) == Keys(t) + [k]
  {
    if t != [] && t[0].key != k {
      var rest := t[1..];
      BumpKeys(rest, k);
      assert t == [t[0]] + rest;
      KeysCons(t[0], rest);
      KeysCons(t[0], Bump(rest, k));
      var kr := Keys(rest);
      assert Bump(t, k) == [t[0]] + Bump(rest, k);
      if k in kr {
        assert k in Keys(t);
      } else {
        assert k !in Keys(t);
        assert [t[0].key] + (kr + [k]) == ([t[0].key] + kr) + [k];
      }
    }
  }

  /** A counted entry whose key the rest lacks can go in front. */
  lemma WellFormedCons(e: Entry, u: Tally)
    requires WellFormed(u) && e.count >= 1
    requires forall i :: 0 <= i < |u| ==> u[i].key != e.key
    ensures WellFormed([e] + u)
  {
    var r := [e] + u;
    forall i, j | 0 <= i < j < |r| ensures r[i].key != r[j].key {
      assert r[j] == u[j - 1];
      if i > 0 {
        assert r[i] == u[i - 1];
      }
    }
  }

  lemma {:induction false} BumpWellFormed(t: Tally, k: string)
    requires WellFormed(t)
    ensures WellFormed(Bump(t, k))
  {
    if t != [] {
      var rest := t[1..];
      assert WellFormed(rest) by {
        forall i, j | 0 <= i < j < |rest| ensures rest[i].key != rest[j].key {
          assert rest[i] == t[i + 1] && rest[j] == t[j + 1];
        }
      }
      forall i | 0 <= i < |rest| ensures rest[i].key != t[0].key {
        assert rest[i] == t[i + 1];
      }
      if t[0].key == k {
        WellFormedCons(Entry(k, t[0].count + 1), rest);
      } else {
        BumpWellFormed(rest, k);
        var b := Bump(rest, k);
        forall i | 0 <= i < |b| ensures b[i].key != t[0].key {
          if i < |rest| {
            assert b[i].key == rest[i].key;
          } else {
            assert b[i] == Entry(k, 1);
          }
        }
        WellFormedCons(t[0], b);
      }
    }
  }

  /** The counter holds, for every key, the number of its occurrences. */
  lemma {:induction false} TallyCounts(xs: seq<string>, k: string)
    ensures Get(TallyOf(xs), k) == multiset(xs)[k]
  {
    if xs != [] {
      var init, last := xs[..|xs| - 1], xs[|xs| - 1];
      assert xs == init + [last];
      TallyCounts(init, k);
      BumpGet(TallyOf(init), last, k);
    }
  }

  /** The counts add up to the number of items counted. */
  lemma {:induction false} TallyTotal(xs: seq<string>)
    ensures Total(TallyOf(xs)) == |xs|
  {
    if xs != [] {
      TallyTotal(xs[..|xs| - 1]);
      BumpTotal(TallyOf(xs[..|xs| - 1]), xs[|xs| - 1]);
    }
  }

  /** Every item counted has exactly one entry, counted at least once. */
  lemma {:induction false} TallyWellFormed(xs: seq<string>)
    ensures WellFormed(TallyOf(xs))
  {
    if xs != [] {
      TallyWellFormed(xs[..|xs| - 1]);
      BumpWellFormed(TallyOf(xs[..|xs| - 1]), xs[|xs| - 1]);
    }
  }

  /** The keys of the counter are exactly the items counted. */
  lemma {:induction false} TallyKeySet(xs: seq<string>)
    ensures forall k :: k in Keys(TallyOf(xs)) <==> k in xs
    decreases |xs|, 1
  {
    if xs != [] {
      var init, last := xs[..|xs| - 1], xs[|xs| - 1];
      TallyKeySet(init);
      TallyKeysSnoc(xs);
      assert xs == init + [last];
    }
  }

  /** The last item leaves the keys alone when already seen, and is appended otherwise. */
  lemma TallyKeysSnoc(xs: seq<string>)
    requires xs != []
    ensures var init, last := xs[..|xs| - 1], xs[|xs| - 1];
            Keys(TallyOf(xs)) == if last in init then Keys(TallyOf(init)) else Keys(TallyOf(init)) + [last]
    decreases |xs|, 0
  {
    var init, last := xs[..|xs| - 1], xs[|xs| - 1];
    TallyKeySet(init);
    BumpKeys(TallyOf(init), last);
  }

  /** `ks` lists items of `xs` in the order of their first occurrence. */
  predicate FirstSeenOrder(ks: seq<string>, xs: seq<string>) {
    forall i, j :: 0 <= i < j < |ks| ==> FirstIndex(xs, ks[i]) < FirstIndex(xs, ks[j])
  }

  lemma ExtendOrder(ks: seq<string>, init: seq<string>, last: string)
    requires FirstSeenOrder(ks, init)
    requires forall k :: k in ks ==> k in init
    ensures FirstSeenOrder(ks, init + [last])
    ensures last !in init ==> FirstSeenOrder(ks + [last], init + [last])
  {
    var xs := init + [last];
    forall k | k in ks ensures FirstIndex(xs, k) == FirstIndex(init, k) < |init| {
      FirstIndexPrefix(init, [last], k);
      FirstIndexBound(init, k);
    }
    if last !in init {
      FirstIndexPrefix(init, [last], last);
      var ks' := ks + [last];
      forall i, j | 0 <= i < j < |ks'| ensures FirstIndex(xs, ks'[i]) < FirstIndex(xs, ks'[j]) {
        assert ks'[i] in ks;
        if j < |ks| {
          assert ks'[j] in ks;
        }
      }
    }
  }

  /** Keys appear in the order of their first occurrence among the items. */
  lemma {:induction false} TallyOrder(xs: seq<string>)
    ensures FirstSeenOrder(Keys(TallyOf(xs)), xs)
  {
    if xs != [] {
      var init, last := xs[..|xs| - 1], xs[|xs| - 1];
      assert xs == init + [last];
      var ks, ks' := Keys(TallyOf(init)), Keys(TallyOf(xs));
      TallyOrder(init);
      TallyKeySet(init);
      assert forall k :: k in ks <==> k in init;
      TallyKeysSnoc(xs);
      assert ks' == if last in init then ks else ks + [last];
      OrderStep(ks, ks', init, last, xs);
    }
  }

  /** Appending an item keeps the keys in first-seen order. */
  lemma OrderStep(ks: seq<string>, ks': seq<string>, init: seq<string>, last: string, xs: seq<string>)
    requires xs == init + [last]
    requires FirstSeenOrder(ks, init) && forall k :: k in ks <==> k in init
    requires ks' == if last in init then ks else ks + [last]
    ensures FirstSeenOrder(ks', xs)
  {
    ExtendOrder(ks, init, last);
  }

  /** Position of the first occurrence of `k` in `xs`, or `|xs|`. */
  function FirstIndex(xs: seq<string>, k: string): (r: nat)
    ensures r <= |xs|
    ensures r < |xs| ==> xs[r] == k
    ensures forall i :: 0 <= i < r ==> xs[i] != k
  {
    if xs == [] then 0
    else if xs[0] == k then 0
    else 1 + FirstIndex(xs[1..], k)
  }

  lemma FirstIndexBound(xs: seq<string>, k: string)
    requires k in xs
    ensures FirstIndex(xs, k) < |xs|
  {
  }

  lemma {:induction false} FirstIndexPrefix(xs: seq<string>, ys: seq<string>, k: string)
    ensures FirstIndex(xs + ys, k) == (if k in xs then FirstIndex(xs, k) else |xs| + FirstIndex(ys, k))
  {
    if xs != [] {
      assert (xs + ys)[1..] == xs[1..] + ys;
      FirstIndexPrefix(xs[1..], ys, k);
      assert k in xs <==> xs[0] == k || k in xs[1..];
    } else {
      assert xs + ys == ys;
    }
  }

  /** In a well-formed counter, an entry's count is what `counts[key]` reads. */
  lemma {:induction false} GetAt(t: Tally, j: int)
    requires WellFormed(t) && 0 <= j < |t|
    ensures Get(t, t[j].key) == t[j].count
  {
    var init := t[..|t| - 1];
    assert WellFormed(init);
    if j < |t| - 1 {
      GetAt(init, j);
      assert t[|t| - 1].key != t[j].key;
    } else {
      GetAbsent(init, t[j].key);
    }
  }

  lemma {:induction false} GetAbsent(t: Tally, k: string)
    requires forall i :: 0 <= i < |t| ==> t[i].key != k
    ensures Get(t, k) == 0
  {
    if t != [] {
      GetAbsent(t[..|t| - 1], k);
    }
  }

  /** Index of the first entry counted `c` times, or `|t|`. */
  function FirstWithCount(t: Tally, c: int): (r: nat)
    ensures r <= |t|
    ensures r < |t| ==> t[r].count == c
    ensures forall j :: 0 <= j < r ==> t[j].count != c
  {
    if t == [] then 0
    else if t[0].count == c then 0
    else 1 + FirstWithCount(t[1..], c)
  }

  lemma {:induction false} WithKeyFirst(t: Tally, i: int)
    requires 0 <= i < |t|
    requires forall j :: 0 <= j < i ==> t[j].count != t[i].count
    ensures WithKey(t, CountOf, t[i].count) != []
    ensures WithKey(t, CountOf, t[i].count)[0] == t[i]
  {
    if i > 0 {
      WithKeyFirst(t[1..], i - 1);
    }
  }

  /** `Object.keys(counts).sort((a, b) => counts[b] - counts[a])[0]`:
      `None` stands for `undefined` on an empty counter. */
  function Mode(t: Tally): (r: Option<string>)
    ensures r.None? <==> t == []
  {
    var s := SortDesc(t, CountOf);
    if s == [] then None else Some(s[0].key)
  }

  /** The mode is the first entry, in insertion order, among those with the
      largest count. */
  lemma ModeFirstMaximal(t: Tally) returns (i: nat)
    requires t != []
    ensures i < |t| && t[i].key == Mode(t).value
    ensures forall j :: 0 <= j < |t| ==> t[j].count <= t[i].count
    ensures forall j :: 0 <= j < i ==> t[j].count < t[i].count
  {
    var s := SortDesc(t, CountOf);
    var c := s[0].count;
    assert s[0] in multiset(t);
    i := FirstWithCount(t, c);
    WithKeyFirst(s, 0);
    WithKeyFirst(t, i);
    SortStable(t, CountOf, c);
    forall j | 0 <= j < |t| ensures t[j].count <= c {
      assert t[j] in multiset(s);
      var m :| 0 <= m < |s| && s[m] == t[j];
      assert CountOf(s[0]) >= CountOf(s[m]);
    }
  }

  /** The mode of a list of items: a most frequent item, and among equally
      frequent ones the first to appear. */
  lemma ModeOfItems(xs: seq<string>, y: string)
    requires xs != []
    ensures Mode(TallyOf(xs)).Some?
    ensures Mode(TallyOf(xs)).value in xs
    ensures multiset(xs)[y] <= multiset(xs)[Mode(TallyOf(xs)).value]
    ensures multiset(xs)[y] == multiset(xs)[Mode(TallyOf(xs)).value]
            ==> FirstIndex(xs, Mode(TallyOf(xs)).value) <= FirstIndex(xs, y)
  {
    var t := TallyOf(xs);
    TallyKeySet(xs);
    assert xs[0] in Keys(t);
    var i := ModeFirstMaximal(t);
    assert t[i].key in xs by {
      assert t[i].key == Keys(t)[i];
    }
    MaximalCounts(xs, i, y);
  }

  /** The first entry with the largest count is an item at least as frequent
      as any other, and seen first among those as frequent. */
  lemma MaximalCounts(xs: seq<string>, i: int, y: string)
    requires 0 <= i < |TallyOf(xs)|
    requires forall j :: 0 <= j < |TallyOf(xs)| ==> TallyOf(xs)[j].count <= TallyOf(xs)[i].count
    requires forall j :: 0 <= j < i ==> TallyOf(xs)[j].count < TallyOf(xs)[i].count
    ensures var m := TallyOf(xs)[i].key;
            && multiset(xs)[y] <= multiset(xs)[m]
            && (multiset(xs)[y] == multiset(xs)[m] ==> FirstIndex(xs, m) <= FirstIndex(xs, y))
  {
    var t := TallyOf(xs);
    var m := t[i].key;
    TallyWellFormed(xs);
    GetAt(t, i);
    TallyCounts(xs, m);
    TallyCounts(xs, y);
    if y in xs {
      TallyKeySet(xs);
      assert y in Keys(t);
      var j :| 0 <= j < |t| && Keys(t)[j] == y;
      GetAt(t, j);
      if j > i {
        TallyOrder(xs);
        assert FirstIndex(xs, Keys(t)[i]) < FirstIndex(xs, Keys(t)[j]);
      }
    }
  }

  /** A top-n selection of a counter holds at most n entries, by non-increasing
      count, each for a key that was counted. */
  lemma TopOfTally(xs: seq<string>, n: nat)
    ensures var top := TopN(TallyOf(xs), CountOf, n);
            |top| <= n && Descending(top, CountOf)
            && forall i :: 0 <= i < |top| ==> top[i].key in xs
  {
    var counted := TallyOf(xs);
    var top := TopN(counted, CountOf, n);
    TallyKeySet(xs);
    forall i | 0 <= i < |top| ensures top[i].key in xs {
      assert top[i] in multiset(counted);
      var j :| 0 <= j < |counted| && counted[j] == top[i];
      assert Keys(counted)[j] == top[i].key;
    }
  }
}
