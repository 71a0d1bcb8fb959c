/** The JavaScript string operations the modelled code relies on, over
    strings as sequences of Unicode scalar values. */
module Text {
  import opened Wrappers

  /** A string that may be missing is truthy when present and non-empty. */
  predicate Truthy(s: Option<string>) {
    s.Some? && s.value != ""
  }

  /** `s || fallback`. */
  function OrElse(s: Option<string>, fallback: string): (r: string)
    ensures Truthy(s) ==> r == s.value
    ensures !Truthy(s) ==> r == fallback
  {
    if Truthy(s) then s.value else fallback
  }

  /** The code points JavaScript's `trim` removes and `\s` matches:
      WhiteSpace (including category Zs) and LineTerminator. */
  predicate IsSpace(c: char) {
    || c == '\t' || c == '\n' || c == '\U{B}' || c == '\U{C}' || c == '\r' || c == ' '
    || c == '\U{A0}' || c == '\U{1680}' || ('\U{2000}' <= c <= '\U{200A}')
    || c == '\U{2028}' || c == '\U{2029}' || c == '\U{202F}' || c == '\U{205F}'
    || c == '\U{3000}' || c == '\U{FEFF}'
  }

  /** The characters `.` in a regular expression does not match. */
  predicate IsLineTerminator(c: char) {
    c == '\n' || c == '\r' || c == '\U{2028}' || c == '\U{2029}'
  }

  predicate AllSpace(s: string) {
    forall i :: 0 <= i < |s| ==> IsSpace(s[i])
  }

  /** The number of spaces `s` starts with. */
  function LeadingSpaces(s: string): (n: nat)
    ensures n <= |s|
    ensures forall i :: 0 <= i < n ==> IsSpace(s[i])
    ensures n < |s| ==> !IsSpace(s[n])
  {
    if s != [] && IsSpace(s[0]) then 1 + LeadingSpaces(s[1..]) else 0
  }

  /** The number of spaces `s` ends with. */
  function TrailingSpaces(s: string): (n: nat)
    ensures n <= |s|
    ensures forall i :: |s| - n <= i < |s| ==> IsSpace(s[i])
    ensures n < |s| ==> !IsSpace(s[|s| - n - 1])
  {
    if s != [] && IsSpace(s[|s| - 1]) then 1 + TrailingSpaces(s[..|s| - 1]) else 0
  }

  function TrimStart(s: string): (r: string)
    ensures |r| <= |s| && r == s[|s| - |r|..]
    ensures r == [] || !IsSpace(r[0])
    ensures AllSpace(s[..|s| - |r|])
  {
    s[LeadingSpaces(s)..]
  }

  function TrimEnd(s: string): (r: string)
    ensures |r| <= |s| && r == s[..|r|]
    ensures r == [] || !IsSpace(r[|r| - 1])
    ensures AllSpace(s[|r|..])
  {
    s[..|s| - TrailingSpaces(s)]
  }

  /** `String.prototype.trim`: the longest infix with no space at either end. */
  function Trim(s: string): (r: string)
    ensures r == [] || (!IsSpace(r[0]) && !IsSpace(r[|r| - 1]))
    ensures |r| <= |s|
  {
    TrimEnd(TrimStart(s))
  }

  /** Text with no space at either end is left as it is. */
  lemma NoBlankTrim(s: string)
    requires s != [] && !IsSpace(s[0]) && !IsSpace(s[|s| - 1])
    ensures TrimStart(s) == s && TrimEnd(s) == s && Trim(s) == s
  {
  }

  lemma TrimInfix(s: string)
    ensures var r := Trim(s);
            var k := |s| - |TrimStart(s)|;
            k + |r| <= |s| && r == s[k..k + |r|] && AllSpace(s[..k]) && AllSpace(s[k + |r|..])
  {
    var a := TrimStart(s);
    InfixOf(s, a, TrimEnd(a));
  }

  /** A prefix `r` of a suffix `a` of `s` sits at the same place in `s`. */
  lemma InfixOf(s: string, a: string, r: string)
    requires |a| <= |s| && a == s[|s| - |a|..]
    requires |r| <= |a| && r == a[..|r|] && AllSpace(a[|r|..])
    ensures var k := |s| - |a|;
            r == s[k..k + |r|] && AllSpace(s[k + |r|..])
  {
    var k := |s| - |a|;
    forall i | 0 <= i < |r| ensures r[i] == s[k + i] {
      assert r[i] == a[i];
    }
    var tail, rest := s[k + |r|..], a[|r|..];
    forall i | 0 <= i < |tail| ensures IsSpace(tail[i]) {
      assert tail[i] == rest[i];
    }
  }

  lemma TrimEmpty(s: string)
    ensures Trim(s) == [] <==> AllSpace(s)
  {
    var a := TrimStart(s);
    var k := |s| - |a|;
    if Trim(s) == [] {
      assert s == s[..k] + a;
    } else {
      TrimInfix(s);
      assert !IsSpace(s[k]);
    }
  }

  /** `toLowerCase` for ASCII, Latin-1 and the Cyrillic block used by
      Russian text; every other character is left as it is. */
  function LowerChar(c: char): char {
    if 'A' <= c <= 'Z' then (c as int + 32) as char
    else if '\U{C0}' <= c <= '\U{DE}' && c != '\U{D7}' then (c as int + 32) as char
    else if '\U{410}' <= c <= '\U{42F}' then (c as int + 32) as char
    else if '\U{400}' <= c <= '\U{40F}' then (c as int + 80) as char
    else c
  }

  function ToLower(s: string): (r: string)
    ensures |r| == |s|
  {
    seq(|s|, i requires 0 <= i < |s| => LowerChar(s[i]))
  }

  /** Lowercasing twice is lowercasing once. */
  lemma LowerIdempotent(s: string)
    ensures ToLower(ToLower(s)) == ToLower(s)
  {
  }

  /** Case folding of a non-Unicode `/i` regular expression against an
      ASCII pattern: only ASCII letters are folded. */
  function FoldAscii(s: string): (r: string)
    ensures |r| == |s|
  {
    seq(|s|, i requires 0 <= i < |s| => if 'A' <= s[i] <= 'Z' then (s[i] as int + 32) as char else s[i])
  }

  predicate StartsWith(s: string, p: string) {
    |p| <= |s| && s[..|p|] == p
  }

  lemma StartsWithTrans(s: string, p: string, q: string)
    requires StartsWith(s, p) && StartsWith(p, q)
    ensures StartsWith(s, q)
  {
    assert s[..|q|] == s[..|p|][..|q|];
  }

  lemma StartsWithBoth(h: string, s: string, p: string)
    requires StartsWith(s, p)
    ensures StartsWith(h + s, h + p)
  {
    assert (h + s)[..|h + p|] == h + s[..|p|];
  }

  predicate EndsWith(s: string, p: string) {
    |p| <= |s| && s[|s| - |p|..] == p
  }

  predicate OccursAt(s: string, p: string, i: int) {
    0 <= i && i + |p| <= |s| && s[i..i + |p|] == p
  }

  /** `s.indexOf(p, from)`. */
  function IndexOfFrom(s: string, p: string, from: nat): Option<nat>
    decreases |s| - from
  {
    if from + |p| > |s| then None
    else if s[from..from + |p|] == p then Some(from)
    else IndexOfFrom(s, p, from + 1)
  }

  /** The search finds the leftmost occurrence at or after `from`, if any. */
  lemma {:induction false} IndexOfFromLeftmost(s: string, p: string, from: nat)
    ensures var r := IndexOfFrom(s, p, from);
            && (r.Some? ==> from <= r.value && OccursAt(s, p, r.value))
            && (r.Some? ==> forall j :: from <= j < r.value ==> !OccursAt(s, p, j))
            && (r.None? ==> forall j :: from <= j ==> !OccursAt(s, p, j))
    decreases |s| - from
  {
    if from + |p| <= |s| && s[from..from + |p|] != p {
      IndexOfFromLeftmost(s, p, from + 1);
    }
  }

  function IndexOf(s: string, p: string): Option<nat> {
    IndexOfFrom(s, p, 0)
  }

  /** `s.includes(p)`. */
  predicate Contains(s: string, p: string) {
    IndexOf(s, p).Some?
  }

  lemma ContainsIff(s: string, p: string)
    ensures Contains(s, p) <==> exists i :: OccursAt(s, p, i)
  {
    IndexOfFromLeftmost(s, p, 0);
  }

  lemma ContainsAt(s: string, p: string, i: int)
    requires OccursAt(s, p, i)
    ensures Contains(s, p)
  {
    IndexOfFromLeftmost(s, p, 0);
  }

  /** Text placed between two other pieces is found in the whole. */
  lemma ContainsPart(a: string, x: string, b: string)
    ensures Contains(a + x + b, x)
  {
    assert (a + x + b)[|a|..|a| + |x|] == x;
    ContainsAt(a + x + b, x, |a|);
  }

  /** Text found in a part is found in the whole. */
  lemma ContainsTransitive(s: string, d: string, k: string)
    requires Contains(s, d) && Contains(d, k)
    ensures Contains(s, k)
  {
    ContainsIff(s, d);
    ContainsIff(d, k);
    var i :| OccursAt(s, d, i);
    var j :| OccursAt(d, k, j);
    forall t | 0 <= t < |k| ensures s[i + j + t] == k[t] {
      assert s[i + j + t] == s[i..i + |d|][j + t];
      assert k[t] == d[j..j + |k|][t];
    }
    assert s[i + j..i + j + |k|] == k;
    ContainsAt(s, k, i + j);
  }

  /** A template filled with two values quotes both. */
  lemma EmbedsSecondAndFourth(a: string, b: string, c: string, d: string, e: string)
    ensures Contains(a + b + c + d + e, b) && Contains(a + b + c + d + e, d)
    ensures StartsWith(a + b + c + d + e, a + b + c)
  {
    assert a + b + c + d + e == a + b + (c + d + e);
    ContainsPart(a, b, c + d + e);
    ContainsPart(a + b + c, d, e);
    assert (a + b + c + d + e)[..|a + b + c|] == a + b + c;
  }

  lemma EndsWithLast(x: string, y: string)
    ensures EndsWith(x + y, y)
  {
    assert (x + y)[|x + y| - |y|..] == y;
  }

  /** A template whose fourth part ends with a key quotes the key and the second part. */
  lemma EmbedsTaggedKey(a: string, b: string, c: string, d: string, key: string, e: string)
    ensures Contains(a + b + c + (d + key) + e, b) && Contains(a + b + c + (d + key) + e, key)
  {
    EmbedsSecondAndFourth(a, b, c, d + key, e);
    ContainsPart(d, key, "");
    assert d + key + "" == d + key;
    ContainsTransitive(a + b + c + (d + key) + e, d + key, key);
  }

  lemma NotContainsShort(s: string, p: string)
    requires |s| < |p|
    ensures !Contains(s, p)
  {
  }

  /** `text.includes(k)` for at least one `k` of `keys`. */
  predicate ContainsAny(s: string, keys: seq<string>) {
    exists i :: 0 <= i < |keys| && Contains(s, keys[i])
  }

  /** `s.split(sep)` with a one-character separator: never empty. */
  function Split(s: string, sep: char): (r: seq<string>)
    ensures |r| >= 1
  {
    if s == [] then [""]
    else if s[0] == sep then [""] + Split(s[1..], sep)
    else
      var rest := Split(s[1..], sep);
      [[s[0]] + rest[0]] + rest[1..]
  }

  /** No part contains the separator. */
  lemma {:induction false} SplitPartsNoSep(s: string, sep: char)
    ensures forall i :: 0 <= i < |Split(s, sep)| ==> sep !in Split(s, sep)[i]
  {
    if s != [] {
      SplitPartsNoSep(s[1..], sep);
      if s[0] != sep {
        var rest := Split(s[1..], sep);
        assert sep !in rest[0];
        assert sep !in [s[0]] + rest[0];
      }
    }
  }

  /** A text without the separator is a single part. */
  lemma {:induction false} SplitNoSep(w: string, sep: char)
    requires sep !in w
    ensures Split(w, sep) == [w]
  {
    if w != [] {
      assert w[0] in w;
      SplitNoSep(w[1..], sep);
      assert [w[0]] + w[1..] == w;
    }
  }

  /** A first part ended by the separator comes off whole. */
  lemma {:induction false} SplitFirst(w: string, sep: char, rest: string)
    requires sep !in w
    ensures Split(w + [sep] + rest, sep) == [w] + Split(rest, sep)
  {
    var s := w + [sep] + rest;
    if w == [] {
      assert s == [sep] + rest;
      assert s[1..] == rest;
    } else {
      SplitFirst(w[1..], sep, rest);
      assert s[1..] == w[1..] + [sep] + rest;
      assert [w[0]] + w[1..] == w;
    }
  }

  /** One step of `Split`, on a text given as its first character and the
      rest. */
  lemma SplitCons(s: string, c: char, t: string, sep: char)
    requires s == [c] + t
    ensures Split(s, sep) ==
              if c == sep then [""] + Split(t, sep)
              else [[c] + Split(t, sep)[0]] + Split(t, sep)[1..]
  {
    assert s[0] == c && s[1..] == t;
  }

  /** Putting a prefix on the first part commutes with appending parts. */
  lemma ConsFirst<T>(c: seq<T>, tail: seq<seq<T>>, right: seq<seq<T>>)
    requires |tail| >= 1
    ensures [c + (tail + right)[0]] + (tail + right)[1..] == ([c + tail[0]] + tail[1..]) + right
  {
    assert (tail + right)[0] == tail[0];
    assert (tail + right)[1..] == tail[1..] + right;
  }

  /** Splitting at a separator splits the two sides independently. */
  lemma {:induction false} SplitAppend(x: string, sep: char, y: string)
    ensures Split(x + [sep] + y, sep) == Split(x, sep) + Split(y, sep)
  {
    if x == [] {
      SplitCons(x + [sep] + y, sep, y, sep);
    } else {
      var c, t := x[0], x[1..] + [sep] + y;
      assert x + [sep] + y == [c] + t;
      SplitAppend(x[1..], sep, y);
      SplitCons(x + [sep] + y, c, t, sep);
      SplitCons(x, c, x[1..], sep);
      if c == sep {
        assert [""] + Split(t, sep) == ([""] + Split(x[1..], sep)) + Split(y, sep);
      } else {
        ConsFirst([c], Split(x[1..], sep), Split(y, sep));
      }
    }
  }

  /** `parts.join(sep)`. */
  function Join(parts: seq<string>, sep: string): string {
    if parts == [] then ""
    else if |parts| == 1 then parts[0]
    else parts[0] + sep + Join(parts[1..], sep)
  }

  lemma {:induction false} JoinSplit(s: string, sep: char)
    ensures Join(Split(s, sep), [sep]) == s
  {
    if s == [] {
    } else if s[0] == sep {
      JoinSplit(s[1..], sep);
      assert s == [sep] + s[1..];
    } else {
      JoinSplit(s[1..], sep);
      var rest := Split(s[1..], sep);
      if |rest| == 1 {
      } else {
        calc {
          Join(Split(s, sep), [sep]);
          [s[0]] + rest[0] + [sep] + Join(rest[1..], [sep]);
          [s[0]] + Join(rest, [sep]);
          s;
        }
      }
    }
  }

  lemma {:induction false} SplitJoin(parts: seq<string>, sep: char)
    requires |parts| >= 1
    requires forall i :: 0 <= i < |parts| ==> sep !in parts[i]
    ensures Split(Join(parts, [sep]), sep) == parts
    decreases |parts|, |parts[0]|
  {
    var p := parts[0];
    if p == [] {
      if |parts| == 1 {
      } else {
        SplitJoin(parts[1..], sep);
        assert Join(parts, [sep]) == [sep] + Join(parts[1..], [sep]);
      }
    } else {
      var tail := [p[1..]] + parts[1..];
      assert tail[1..] == parts[1..];
      SplitJoin(tail, sep);
      assert p[0] != sep by { assert p[0] in parts[0]; }
      assert Join(parts, [sep]) == [p[0]] + Join(tail, [sep]);
      assert ([p[0]] + Join(tail, [sep]))[1..] == Join(tail, [sep]);
      assert [p[0]] + p[1..] == p;
    }
  }

  /** `s.replace(pat, rep)` with a string pattern and a replacement free of
      `$` patterns: only the first occurrence is replaced. */
  function ReplaceFirst(s: string, pat: string, rep: string): (r: string)
    ensures !Contains(s, pat) ==> r == s
  {
    match IndexOf(s, pat)
    case None => s
    case Some(i) => IndexOfFromLeftmost(s, pat, 0); s[..i] + rep + s[i + |pat|..]
  }

  /** Replacing acts on the leftmost occurrence and leaves the text around it. */
  lemma ReplaceFirstAt(a: string, pat: string, b: string, rep: string)
    requires forall j :: 0 <= j < |a| ==> !OccursAt(a + pat + b, pat, j)
    ensures ReplaceFirst(a + pat + b, pat, rep) == a + rep + b
  {
    var s := a + pat + b;
    assert OccursAt(s, pat, |a|);
    IndexOfFromLeftmost(s, pat, 0);
    var i := IndexOf(s, pat).value;
    assert i == |a|;
    assert s[..i] == a;
    assert s[i + |pat|..] == b;
  }

  /** `s.substring(a, b)` over code points: both ends are clamped to the
      string and swapped when the first is the larger. */
  function Substring(s: string, a: int, b: int): (r: string)
    ensures var lo := Clamp(if a <= b then a else b, |s|);
            var hi := Clamp(if a <= b then b else a, |s|);
            lo <= hi && r == s[lo..hi]
  {
    var x, y := Clamp(a, |s|), Clamp(b, |s|);
    if x <= y then s[x..y] else s[y..x]
  }

  function Clamp(i: int, n: nat): (r: nat)
    ensures r <= n
    ensures 0 <= i <= n ==> r == i
  {
    if i < 0 then 0 else if i > n then n else i
  }

  /** Number of UTF-16 code units JavaScript uses for a character. */
  function Utf16Width(c: char): nat {
    if c as int >= 0x1_0000 then 2 else 1
  }

  /** JavaScript's `s.length`: one unit per character, two for a character
      outside the Basic Multilingual Plane. */
  function Utf16Length(s: string): (n: nat)
    ensures |s| <= n <= 2 * |s|
    ensures n == |s| <==> forall i :: 0 <= i < |s| ==> Utf16Width(s[i]) == 1
  {
    if s == [] then 0 else Utf16Width(s[0]) + Utf16Length(s[1..])
  }

  /** `s.substring(n)`, counting UTF-16 code units; a character whose two
      units would be split is dropped whole. */
  function DropUnits(s: string, n: nat): (r: string)
    ensures |r| <= |s| && r == s[|s| - |r|..]
  {
    if n == 0 || s == [] then s
    else if Utf16Width(s[0]) <= n then DropUnits(s[1..], n - Utf16Width(s[0]))
    else s[1..]
  }

  /** Past two one-unit characters, `substring(2)` drops exactly those two. */
  lemma DropTwoNarrow(s: string)
    requires |s| >= 2 && Utf16Width(s[0]) == 1 && Utf16Width(s[1]) == 1
    ensures DropUnits(s, 2) == s[2..]
  {
    assert s[1..][0] == s[1];
    assert s[1..][1..] == s[2..];
    assert DropUnits(s[1..], 1) == DropUnits(s[2..], 0);
  }

  /** `s.substring(0, n)`, counting UTF-16 code units; a character whose two
      units would be split is left out. */
  function TakeUnits(s: string, n: nat): (r: string)
    ensures |r| <= |s| && r == s[..|r|]
    ensures Utf16Length(r) <= n
    ensures Utf16Length(s) <= n ==> r == s
  {
    if s == [] || Utf16Width(s[0]) > n then []
    else [s[0]] + TakeUnits(s[1..], n - Utf16Width(s[0]))
  }
}
