/** The regular-expression extractions the URL parsers apply to a Jira URL:
    the issue key `/([A-Z]+-\d+)/`, the project key `/projectKey=([A-Z]+)/`
    and the board id `/rapidView=(\d+)/`, each taking the leftmost match. */
module UrlKeys {
  import opened Wrappers
  import opened Text

  /** The two character classes the patterns use: `[A-Z]` and `\d`. */
  datatype CharClass = Upper | Digit

  predicate InClass(c: char, cls: CharClass) {
    match cls
    case Upper => 'A' <= c <= 'Z'
    case Digit => '0' <= c <= '9'
  }

  predicate AllIn(s: string, cls: CharClass) {
    forall k :: 0 <= k < |s| ==> InClass(s[k], cls)
  }

  /** The end of the longest run of `cls` characters starting at `i`: what a
      greedy `[A-Z]+` or `\d+` consumes. */
  function ClassEnd(s: string, i: nat, cls: CharClass): (r: nat)
    requires i <= |s|
    ensures i <= r <= |s|
    ensures forall k :: i <= k < r ==> InClass(s[k], cls)
    ensures r == |s| || !InClass(s[r], cls)
    decreases |s| - i
  {
    if i == |s| || !InClass(s[i], cls) then i else ClassEnd(s, i + 1, cls)
  }

  // --------------------------------------------------------------- issue key

  /** `[A-Z]+-\d+` matches at `i`. Backtracking cannot help: a shorter run of
      letters is followed by a letter, never by `-`. */
  predicate KeyAt(s: string, i: nat) {
    i < |s| && InClass(s[i], Upper)
    && var j := ClassEnd(s, i, Upper);
       j + 1 < |s| && s[j] == '-' && InClass(s[j + 1], Digit)
  }

  /** The text the match at `i` covers. */
  function KeyMatch(s: string, i: nat): (r: string)
    requires KeyAt(s, i)
    ensures IsKey(r)
  {
    var j := ClassEnd(s, i, Upper);
    var e := ClassEnd(s, j + 1, Digit);
    assert s[i..e][..j - i] == s[i..j];
    assert s[i..e][j - i + 1..] == s[j + 1..e];
    s[i..e]
  }

  /** Capital letters, a dash and digits. */
  predicate IsKey(k: string) {
    exists m :: 0 < m < |k| - 1 && AllIn(k[..m], Upper) && k[m] == '-' && AllIn(k[m + 1..], Digit)
  }

  /** The leftmost match at or after `from`. */
  function FindKey(s: string, from: nat): Option<nat>
    decreases |s| - from
  {
    if from >= |s| then None
    else if KeyAt(s, from) then Some(from)
    else FindKey(s, from + 1)
  }

  lemma {:induction false} FindKeyLeftmost(s: string, from: nat)
    ensures var r := FindKey(s, from);
            && (r.Some? ==> from <= r.value && KeyAt(s, r.value))
            && (r.Some? ==> forall j :: from <= j < r.value ==> !KeyAt(s, j))
            && (r.None? ==> forall j :: from <= j ==> !KeyAt(s, j))
    decreases |s| - from
  {
    if from < |s| && !KeyAt(s, from) {
      FindKeyLeftmost(s, from + 1);
    }
  }

  /** `url.match(/([A-Z]+-\d+)/)?.[1] ?? null`. */
  function IssueKey(url: string): (r: Option<string>)
    ensures r.Some? ==> IsKey(r.value)
  {
    FindKeyLeftmost(url, 0);
    match FindKey(url, 0)
    case Some(i) => Some(KeyMatch(url, i))
    case None => None
  }

  /** The key is the text of the leftmost match, and there is one whenever
      the pattern matches anywhere. */
  lemma IssueKeyLeftmost(url: string)
    ensures IssueKey(url).Some? <==> exists i :: KeyAt(url, i)
    ensures IssueKey(url).Some? ==>
              exists i: nat :: KeyAt(url, i) && IssueKey(url).value == KeyMatch(url, i)
                          && forall j :: 0 <= j < i ==> !KeyAt(url, j)
  {
    FindKeyLeftmost(url, 0);
    if FindKey(url, 0).Some? {
      var i := FindKey(url, 0).value;
      assert KeyAt(url, i) && IssueKey(url).value == KeyMatch(url, i);
    }
  }

  /** A key placed after text with no capital letter, and not followed by a
      digit, is found whole. */
  lemma IssueKeyAfter(p: string, k: string, q: string)
    requires IsKey(k)
    requires forall c :: c in p ==> !InClass(c, Upper)
    requires q == [] || !InClass(q[0], Digit)
    ensures IssueKey(p + k + q) == Some(k)
  {
    var s := p + k + q;
    var i := |p|;
    KeyMatchesAt(p, k, q);
    forall j | 0 <= j < i ensures !KeyAt(s, j) {
      assert s[j] == p[j] && p[j] in p;
    }
    FindKeyLeftmost(s, 0);
    var r := FindKey(s, 0);
    assert r.Some? && r.value == i;
    assert s[i..i + |k|] == k;
  }

  /** The pattern matches at the start of the key and covers all of it. */
  lemma KeyMatchesAt(p: string, k: string, q: string)
    requires IsKey(k)
    requires q == [] || !InClass(q[0], Digit)
    ensures KeyAt(p + k + q, |p|) && KeyMatch(p + k + q, |p|) == k
  {
    var m :| 0 < m < |k| - 1 && AllIn(k[..m], Upper) && k[m] == '-' && AllIn(k[m + 1..], Digit);
    KeyPartsMatch(p, k, q, m);
  }

  /** The same, given where the key's dash is. */
  lemma KeyPartsMatch(p: string, k: string, q: string, m: nat)
    requires 0 < m < |k| - 1 && AllIn(k[..m], Upper) && k[m] == '-' && AllIn(k[m + 1..], Digit)
    requires q == [] || !InClass(q[0], Digit)
    ensures KeyAt(p + k + q, |p|) && KeyMatch(p + k + q, |p|) == k
  {
    var s := p + k + q;
    var i := |p|;
    assert s[i..i + |k|] == k && s[i + |k|..] == q;
    assert s[i] == k[0] && k[..m][0] == k[0];
    UpperRun(s, i, m, k);
    assert s[i + m] == k[m] && s[i + m + 1] == k[m + 1] && k[m + 1..][0] == k[m + 1];
    DigitRun(s, i + m + 1, |k| - m - 1, k[m + 1..], q);
    assert s[i + m + 1..i + |k|] == k[m + 1..];
  }

  lemma UpperRun(s: string, i: nat, m: nat, k: string)
    requires i + |k| <= |s| && s[i..i + |k|] == k
    requires m < |k| && AllIn(k[..m], Upper) && !InClass(k[m], Upper)
    ensures ClassEnd(s, i, Upper) == i + m
  {
    forall t | i <= t < i + m ensures InClass(s[t], Upper) {
      assert s[t] == k[..m][t - i];
    }
    assert s[i + m] == k[m];
    ClassEndAt(s, i, i + m, Upper);
  }

  lemma DigitRun(s: string, i: nat, n: nat, d: string, q: string)
    requires |d| == n && AllIn(d, Digit)
    requires i + n + |q| == |s| && s[i..i + n] == d && s[i + n..] == q
    requires q == [] || !InClass(q[0], Digit)
    ensures ClassEnd(s, i, Digit) == i + n
  {
    forall t | i <= t < i + n ensures InClass(s[t], Digit) {
      assert s[t] == d[t - i];
    }
    if q != [] {
      assert s[i + n] == q[0];
    }
    ClassEndAt(s, i, i + n, Digit);
  }

  /** The run ends where the class first fails. */
  lemma {:induction false} ClassEndAt(s: string, i: nat, e: nat, cls: CharClass)
    requires i <= e <= |s|
    requires forall t :: i <= t < e ==> InClass(s[t], cls)
    requires e == |s| || !InClass(s[e], cls)
    ensures ClassEnd(s, i, cls) == e
    decreases e - i
  {
    if i < e {
      ClassEndAt(s, i + 1, e, cls);
    }
  }

  // ------------------------------------------------------ marked parameters

  /** `marker` followed by at least one `cls` character, at `i`. */
  predicate CaptureAt(s: string, marker: string, cls: CharClass, i: nat) {
    OccursAt(s, marker, i) && i + |marker| < |s| && InClass(s[i + |marker|], cls)
  }

  function FindCapture(s: string, marker: string, cls: CharClass, from: nat): Option<nat>
    decreases |s| - from
  {
    if from >= |s| then None
    else if CaptureAt(s, marker, cls, from) then Some(from)
    else FindCapture(s, marker, cls, from + 1)
  }

  lemma {:induction false} FindCaptureLeftmost(s: string, marker: string, cls: CharClass, from: nat)
    ensures var r := FindCapture(s, marker, cls, from);
            && (r.Some? ==> from <= r.value && CaptureAt(s, marker, cls, r.value))
            && (r.Some? ==> forall j :: from <= j < r.value ==> !CaptureAt(s, marker, cls, j))
            && (r.None? ==> forall j :: from <= j ==> !CaptureAt(s, marker, cls, j))
    decreases |s| - from
  {
    if from < |s| && !CaptureAt(s, marker, cls, from) {
      FindCaptureLeftmost(s, marker, cls, from + 1);
    }
  }

  /** `s.match(new RegExp(marker + '(' + cls + '+)'))?.[1] ?? null`: the
      longest run of `cls` after the leftmost usable `marker`. */
  function Capture(s: string, marker: string, cls: CharClass): (r: Option<string>)
    ensures r.Some? ==> r.value != [] && AllIn(r.value, cls)
    ensures r.Some? <==> exists i :: CaptureAt(s, marker, cls, i)
  {
    FindCaptureLeftmost(s, marker, cls, 0);
    match FindCapture(s, marker, cls, 0)
    case Some(i) =>
      var a := i + |marker|;
      Some(s[a..ClassEnd(s, a, cls)])
    case None => None
  }

  /** A parameter at the front of the text is read whole. */
  lemma CaptureFront(marker: string, v: string, cls: CharClass, q: string)
    requires v != [] && AllIn(v, cls)
    requires q == [] || !InClass(q[0], cls)
    ensures Capture(marker + v + q, marker, cls) == Some(v)
  {
    var s := marker + v + q;
    assert s[..|marker|] == marker && s[|marker|] == v[0];
    assert CaptureAt(s, marker, cls, 0);
    assert s[|marker|..|marker| + |v|] == v && s[|marker| + |v|..] == q;
    forall t | |marker| <= t < |marker| + |v| ensures InClass(s[t], cls) {
      assert s[t] == v[t - |marker|];
    }
    if q != [] {
      assert s[|marker| + |v|] == q[0];
    }
    ClassEndAt(s, |marker|, |marker| + |v|, cls);
  }

  const PROJECT_KEY_MARKER := "projectKey="
  const RAPID_VIEW_MARKER := "rapidView="

  /** `url.match(/projectKey=([A-Z]+)/)?.[1] ?? null`. */
  function ProjectKey(url: string): Option<string> {
    Capture(url, PROJECT_KEY_MARKER, Upper)
  }

  /** `url.match(/rapidView=(\d+)/)?.[1] ?? null`. */
  function RapidViewId(url: string): Option<string> {
    Capture(url, RAPID_VIEW_MARKER, Digit)
  }
}
