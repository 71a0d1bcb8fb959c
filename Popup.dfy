/** The browser extension's popup: the prompt it builds, the regular
    expressions that read the model's answer, the rule for the stored API
    key and the text copied to the clipboard.

    The answer is read with four case-insensitive, non-Unicode regular
    expressions. Their patterns are ASCII, and in that mode a character
    outside ASCII never matches an ASCII one, so matching a lower-case
    marker against the ASCII-folded content is exact. `\s` is `IsSpace`,
    `.` is any character but a line terminator, `$` is the end of the
    content. */
module Popup {
  import opened Wrappers
  import opened Text
  import Background

  // ------------------------------------------------------------------ prompt

  const TASK_SECTIONS :=
    "Create:\n"
    + "1. Task title (brief and clear)\n"
    + "2. Detailed description with sections:\n"
    + "   - Goal\n"
    + "   - What needs to be done\n"
    + "   - Acceptance criteria\n"
    + "3. Labels (comma-separated)\n"
    + "4. Priority (High/Medium/Low)\n\n"

  /** The hint line, without its closing full stop and line break. */
  const ALIGN_SENTENCE := "If category is specified, ensure the task aligns with that category"
  const DETECT_SENTENCE := "Analyze the description and determine the appropriate category automatically"
  const ALIGN_HINT := ALIGN_SENTENCE + ".\n"
  const DETECT_HINT := DETECT_SENTENCE + ".\n"

  /** A blank line separates it from the hint, whose own line break
      comes first. */
  const RESPONSE_FORMAT :=
    "\n\nResponse format:\n"
    + "TITLE: [title]\n"
    + "DESCRIPTION: [description]\n"
    + "LABELS: [labels]\n"
    + "PRIORITY: [priority]"

  /** The sentence naming the task, and the category line when there is
      one. */
  function Opening(category: Option<string>): string {
    (if Truthy(category) then "Create a Jira task in category \"" + category.value + "\"" else "Create a Jira task")
    + ".\n\n"
    + (if Truthy(category) then "Category: " + category.value + "\n\n" else "")
  }

  function Hint(category: Option<string>): string {
    if Truthy(category) then ALIGN_HINT else DETECT_HINT
  }

  /** `buildPrompt(description, category)`: the category, when given and
      non-empty, is named in the opening sentence and on a line of its own. */
  function BuildPrompt(description: string, category: Option<string>): string {
    Opening(category) + "Description: " + description + "\n\n" + TASK_SECTIONS + Hint(category) + RESPONSE_FORMAT
  }

  /** The prompt closes with the hint line, a blank line and the response
      format: "…category.\n" or "…automatically.\n", then "\n\nResponse format:". */
  lemma BuildPromptTail(description: string, category: Option<string>)
    ensures EndsWith(BuildPrompt(description, category), Hint(category) + RESPONSE_FORMAT)
    ensures EndsWith(BuildPrompt(description, category), ".\n" + RESPONSE_FORMAT)
  {
    var head := Opening(category) + "Description: " + description + "\n\n" + TASK_SECTIONS;
    var sentence := if Truthy(category) then ALIGN_SENTENCE else DETECT_SENTENCE;
    RegroupLast(Opening(category), "Description: ", description, "\n\n", TASK_SECTIONS, Hint(category), RESPONSE_FORMAT);
    assert Hint(category) == sentence + ".\n";
    TailOfThree(head, sentence, ".\n", RESPONSE_FORMAT);
  }

  lemma RegroupLast(a: string, b: string, c: string, d: string, e: string, f: string, g: string)
    ensures a + b + c + d + e + f + g == (a + b + c + d + e) + (f + g)
  {
  }

  lemma TailOfThree(x: string, s: string, p: string, y: string)
    ensures EndsWith(x + ((s + p) + y), (s + p) + y)
    ensures EndsWith(x + ((s + p) + y), p + y)
  {
    var w := x + ((s + p) + y);
    assert w[|w| - |(s + p) + y|..] == (s + p) + y;
    assert w == (x + s) + (p + y);
    assert w[|w| - |p + y|..] == p + y;
  }

  lemma PrefixOfChain(x: string, u: string, v: string, w: string, z: string)
    ensures StartsWith(x + u + v + w + z, x)
  {
    assert x + u + v + w + z == x + (u + v + w + z);
  }

  /** With a category, the prompt opens by naming it twice, and asks that
      the task fit it. */
  lemma BuildPromptNamesCategory(description: string, category: string)
    requires category != ""
    ensures StartsWith(BuildPrompt(description, Some(category)), Opening(Some(category)) + "Description: " + description)
    ensures Contains(BuildPrompt(description, Some(category)), ALIGN_HINT)
  {
    var o := Opening(Some(category));
    PrefixOfChain(o + "Description: " + description, "\n\n", TASK_SECTIONS, ALIGN_HINT, RESPONSE_FORMAT);
    ContainsPart(o + "Description: " + description + "\n\n" + TASK_SECTIONS, ALIGN_HINT, RESPONSE_FORMAT);
  }

  /** A non-empty category is named in the opening sentence and again on
      a line of its own. */
  lemma OpeningNamesCategory(category: string)
    requires category != ""
    ensures Opening(Some(category))
            == "Create a Jira task in category \"" + category + "\".\n\nCategory: " + category + "\n\n"
  {
  }

  /** Without a category, the description follows the opening sentence
      directly and the model is asked to choose the category. */
  lemma BuildPromptWithoutCategory(description: string, category: Option<string>)
    requires !Truthy(category)
    ensures Opening(category) == "Create a Jira task.\n\n"
    ensures StartsWith(BuildPrompt(description, category), Opening(category) + "Description: " + description)
    ensures Contains(BuildPrompt(description, category), DETECT_HINT)
  {
    var o := Opening(category);
    PrefixOfChain(o + "Description: " + description, "\n\n", TASK_SECTIONS, DETECT_HINT, RESPONSE_FORMAT);
    ContainsPart(o + "Description: " + description + "\n\n" + TASK_SECTIONS, DETECT_HINT, RESPONSE_FORMAT);
  }

  // ---------------------------------------------------------------- answer

  /** The markers, as matched against the ASCII-folded content. */
  const TITLE_MARKER := "title:"
  const DESCRIPTION_MARKER := "description:"
  const LABELS_MARKER := "labels:"
  const PRIORITY_MARKER := "priority:"

  predicate NoLineTerminator(s: string) {
    forall k :: 0 <= k < |s| ==> !IsLineTerminator(s[k])
  }

  /** How far the greedy `\s*` first reaches from `a`. */
  function SpaceEnd(s: string, a: nat): (r: nat)
    requires a <= |s|
    ensures a <= r <= |s|
    ensures forall k :: a <= k < r ==> IsSpace(s[k])
    ensures r == |s| || !IsSpace(s[r])
    decreases |s| - a
  {
    if a < |s| && IsSpace(s[a]) then SpaceEnd(s, a + 1) else a
  }

  /** The first line terminator at or after `b`, or the end. */
  function LineEnd(s: string, b: nat): (r: nat)
    requires b <= |s|
    ensures b <= r <= |s|
    ensures NoLineTerminator(s[b..r])
    ensures r == |s| || IsLineTerminator(s[r])
    decreases |s| - b
  {
    if b < |s| && !IsLineTerminator(s[b]) then LineEnd(s, b + 1) else b
  }

  /** `(.+?)(?:\n|$)` tried at `b`. The lazy group cannot pass a line
      terminator, and before that no position is a `\n` or the end, so
      it succeeds only by reaching the end of the line, when that line is
      non-empty and ended by `\n` or by the end of the content. */
  function LineCapture(s: string, b: nat): (r: Option<string>)
    requires b <= |s|
    ensures r.Some? ==> r.value != [] && NoLineTerminator(r.value)
  {
    var e := LineEnd(s, b);
    if b < e && (e == |s| || s[e] == '\n') then Some(s[b..e]) else None
  }

  /** The greedy `\s*` gives back one character at a time, from `b` down
      to `a`, until the rest of the pattern matches. */
  function BacktrackLine(s: string, a: nat, b: nat): (r: Option<string>)
    requires a <= b <= |s|
    ensures r.Some? ==> r.value != [] && NoLineTerminator(r.value)
    decreases b - a
  {
    if LineCapture(s, b).Some? then LineCapture(s, b)
    else if b == a then None
    else BacktrackLine(s, a, b - 1)
  }

  /** The search over start positions from `p`: the first one where the
      marker occurs (ignoring ASCII case) and the rest matches. `f` is the
      folded content. */
  function LineMatchFrom(s: string, f: string, m: string, p: nat): (r: Option<string>)
    requires |f| == |s|
    ensures r.Some? ==> r.value != [] && NoLineTerminator(r.value)
    ensures r.Some? ==> exists q :: p <= q && OccursAt(f, m, q)
    decreases |s| - p
  {
    if p + |m| > |s| then None
    else if OccursAt(f, m, p) && BacktrackLine(s, p + |m|, SpaceEnd(s, p + |m|)).Some? then
      BacktrackLine(s, p + |m|, SpaceEnd(s, p + |m|))
    else LineMatchFrom(s, f, m, p + 1)
  }

  /** `content.match(/M\s*(.+?)(?:\n|$)/i)`, its group trimmed, or ''. */
  function LineField(content: string, m: string): string {
    match LineMatchFrom(content, FoldAscii(content), m, 0)
    case None => ""
    case Some(c) => Trim(c)
  }

  /** Where `(?:LABELS:|PRIORITY:|$)` first matches at or after `e`. */
  function StopAt(s: string, f: string, e: nat): (r: nat)
    requires |f| == |s| && e <= |s|
    ensures e <= r <= |s|
    ensures r == |s| || OccursAt(f, LABELS_MARKER, r) || OccursAt(f, PRIORITY_MARKER, r)
    ensures forall k :: e <= k < r ==> !OccursAt(f, LABELS_MARKER, k) && !OccursAt(f, PRIORITY_MARKER, k)
    decreases |s| - e
  {
    if e == |s| || OccursAt(f, LABELS_MARKER, e) || OccursAt(f, PRIORITY_MARKER, e) then e
    else StopAt(s, f, e + 1)
  }

  /** `([\s\S]+?)(?:LABELS:|PRIORITY:|$)` tried at `b`: at least one
      character, then up to the first stop. */
  function DescCapture(s: string, f: string, b: nat): Option<string>
    requires |f| == |s| && b <= |s|
  {
    if b < |s| then Some(s[b..StopAt(s, f, b + 1)]) else None
  }

  function BacktrackDesc(s: string, f: string, a: nat, b: nat): Option<string>
    requires |f| == |s| && a <= b <= |s|
    decreases b - a
  {
    if DescCapture(s, f, b).Some? then DescCapture(s, f, b)
    else if b == a then None
    else BacktrackDesc(s, f, a, b - 1)
  }

  function DescMatchFrom(s: string, f: string, p: nat): (r: Option<string>)
    requires |f| == |s|
    ensures r.Some? ==> exists q :: p <= q && OccursAt(f, DESCRIPTION_MARKER, q)
    decreases |s| - p
  {
    var m := DESCRIPTION_MARKER;
    if p + |m| > |s| then None
    else if OccursAt(f, m, p) && BacktrackDesc(s, f, p + |m|, SpaceEnd(s, p + |m|)).Some? then
      BacktrackDesc(s, f, p + |m|, SpaceEnd(s, p + |m|))
    else DescMatchFrom(s, f, p + 1)
  }

  /** `content.match(/DESCRIPTION:\s*([\s\S]+?)(?:LABELS:|PRIORITY:|$)/i)`,
      its group trimmed, or ''. */
  function DescriptionField(content: string): string {
    match DescMatchFrom(content, FoldAscii(content), 0)
    case None => ""
    case Some(c) => Trim(c)
  }

  /** `parseOpenAIResponse`: four independent matches. */
  function ParseOpenAIResponse(content: string): Background.Draft {
    Background.Draft(LineField(content, TITLE_MARKER), DescriptionField(content),
                     LineField(content, LABELS_MARKER), LineField(content, PRIORITY_MARKER))
  }

  /** The search from `q` reaches `p` unchanged when no marker lies between. */
  lemma {:induction false} LineMatchSkips(s: string, f: string, m: string, q: nat, p: nat)
    requires |f| == |s| && q <= p
    requires forall j :: q <= j < p ==> !OccursAt(f, m, j)
    requires p + |m| <= |s|
    ensures LineMatchFrom(s, f, m, q) == LineMatchFrom(s, f, m, p)
    decreases p - q
  {
    if q < p {
      LineMatchSkips(s, f, m, q + 1, p);
    }
  }

  lemma {:induction false} DescMatchSkips(s: string, f: string, q: nat, p: nat)
    requires |f| == |s| && q <= p
    requires forall j :: q <= j < p ==> !OccursAt(f, DESCRIPTION_MARKER, j)
    requires p + |DESCRIPTION_MARKER| <= |s|
    ensures DescMatchFrom(s, f, q) == DescMatchFrom(s, f, p)
    decreases p - q
  {
    if q < p {
      DescMatchSkips(s, f, q + 1, p);
    }
  }

  /** A field whose marker does not occur, in any case, stays empty. */
  lemma UnmarkedFieldsEmpty(content: string)
    ensures !Contains(FoldAscii(content), TITLE_MARKER) ==> ParseOpenAIResponse(content).title == ""
    ensures !Contains(FoldAscii(content), DESCRIPTION_MARKER) ==> ParseOpenAIResponse(content).description == ""
    ensures !Contains(FoldAscii(content), LABELS_MARKER) ==> ParseOpenAIResponse(content).labels == ""
    ensures !Contains(FoldAscii(content), PRIORITY_MARKER) ==> ParseOpenAIResponse(content).priority == ""
  {
    var f := FoldAscii(content);
    ContainsIff(f, TITLE_MARKER);
    ContainsIff(f, DESCRIPTION_MARKER);
    ContainsIff(f, LABELS_MARKER);
    ContainsIff(f, PRIORITY_MARKER);
  }

  lemma TrimKeepsNoLineTerminator(s: string)
    requires NoLineTerminator(s)
    ensures NoLineTerminator(Trim(s))
  {
    TrimInfix(s);
    var k := |s| - |TrimStart(s)|;
    var r := Trim(s);
    forall i | 0 <= i < |r| ensures !IsLineTerminator(r[i]) {
      assert r[i] == s[k + i];
    }
  }

  /** Title, labels and priority never span two lines. */
  lemma LineFieldSingleLine(content: string, m: string)
    ensures NoLineTerminator(LineField(content, m))
  {
    var r := LineMatchFrom(content, FoldAscii(content), m, 0);
    if r.Some? {
      TrimKeepsNoLineTerminator(r.value);
    }
  }

  /** At the first marker, when the text after it and any whitespace
      (line breaks included) runs to a `\n` or the end, that text is the
      field. */
  lemma LineFieldAtFirstMarker(content: string, m: string, p: nat)
    requires OccursAt(FoldAscii(content), m, p)
    requires forall j :: 0 <= j < p ==> !OccursAt(FoldAscii(content), m, j)
    requires LineCapture(content, SpaceEnd(content, p + |m|)).Some?
    ensures var b := SpaceEnd(content, p + |m|);
            LineField(content, m) == Trim(content[b..LineEnd(content, b)])
  {
    LineMatchSkips(content, FoldAscii(content), m, 0, p);
  }

  /** The whitespace skipped after a marker may include line breaks: a
      value on the line below its marker is still read. */
  lemma TitleOnNextLine(v: string)
    requires v != [] && !IsSpace(v[0]) && NoLineTerminator(v)
    ensures LineField("TITLE:\n" + v, TITLE_MARKER) == Trim(v)
  {
    var s := "TITLE:\n" + v;
    var f := FoldAscii(s);
    assert f[..6] == TITLE_MARKER;
    assert s[6] == '\n' && s[7] == v[0];
    assert SpaceEnd(s, 7) == 7;
    assert SpaceEnd(s, 6) == 7;
    assert s[7..] == v;
    forall k | 7 <= k < |s| ensures !IsLineTerminator(s[k]) {
      assert s[k] == v[k - 7];
    }
    assert LineEnd(s, 7) == |s|;
    assert s[7..LineEnd(s, 7)] == v;
    LineFieldAtFirstMarker(s, TITLE_MARKER, 0);
  }

  /** What the description pattern captures after a marker ending at `a`,
      tried first from `w`, the end of the whitespace after it. */
  lemma BacktrackDescAt(s: string, f: string, a: nat, w: nat)
    requires |f| == |s| && a <= w <= |s|
    ensures w < |s| ==> BacktrackDesc(s, f, a, w) == Some(s[w..StopAt(s, f, w + 1)])
    ensures w == |s| && a < w ==> BacktrackDesc(s, f, a, w) == Some([s[w - 1]])
    ensures w == |s| && a == w ==> BacktrackDesc(s, f, a, w) == None
  {
    if w == |s| && a < w {
      BacktrackAtEnd(s, f, a);
    }
  }

  /** At the end of the text the capture backs up by one character. */
  lemma BacktrackAtEnd(s: string, f: string, a: nat)
    requires |f| == |s| && a < |s|
    ensures BacktrackDesc(s, f, a, |s|) == Some([s[|s| - 1]])
  {
    var w := |s|;
    assert DescCapture(s, f, w) == None;
    assert BacktrackDesc(s, f, a, w) == BacktrackDesc(s, f, a, w - 1);
    assert StopAt(s, f, w) == w;
    assert s[w - 1..w] == [s[w - 1]];
    assert DescCapture(s, f, w - 1) == Some([s[w - 1]]);
  }

  /** From a start where the marker occurs, the search ends there. */
  lemma DescMatchAt(s: string, f: string, p: nat)
    requires |f| == |s| && OccursAt(f, DESCRIPTION_MARKER, p)
    ensures var a := p + |DESCRIPTION_MARKER|;
            var w := SpaceEnd(s, a);
            DescMatchFrom(s, f, p)
            == if w < |s| then Some(s[w..StopAt(s, f, w + 1)]) else if a < w then Some([s[w - 1]]) else None
  {
    var a := p + |DESCRIPTION_MARKER|;
    BacktrackDescAt(s, f, a, SpaceEnd(s, a));
    if SpaceEnd(s, a) == a == |s| {
      assert DescMatchFrom(s, f, p + 1) == None;
    }
  }

  /** The first description marker decides: the description runs from the
      first non-space character after it up to, not including, the first
      later LABELS: or PRIORITY: (the first character is always taken), or
      to the end; it is empty when only whitespace follows the marker. */
  lemma DescriptionAtFirstMarker(content: string, p: nat)
    requires OccursAt(FoldAscii(content), DESCRIPTION_MARKER, p)
    requires forall j :: 0 <= j < p ==> !OccursAt(FoldAscii(content), DESCRIPTION_MARKER, j)
    ensures var f := FoldAscii(content);
            var w := SpaceEnd(content, p + |DESCRIPTION_MARKER|);
            DescriptionField(content) == if w < |content| then Trim(content[w..StopAt(content, f, w + 1)]) else ""
  {
    var s, f := content, FoldAscii(content);
    var w := SpaceEnd(s, p + |DESCRIPTION_MARKER|);
    DescMatchSkips(s, f, 0, p);
    DescMatchAt(s, f, p);
    if w == |s| && p + |DESCRIPTION_MARKER| < w {
      TrimEmpty([s[w - 1]]);
    }
  }

  /** The description may span several lines: with no colon after the
      marker it runs, line breaks included, to the end of the content. */
  lemma DescriptionSpansLines(x: string, y: string)
    requires x != [] && !IsSpace(x[0]) && y != [] && !IsSpace(y[|y| - 1])
    requires ':' !in x && ':' !in y
    ensures DescriptionField("DESCRIPTION: " + x + "\n" + y) == x + "\n" + y
  {
    var body := x + "\n" + y;
    assert "DESCRIPTION: " + x + "\n" + y == "DESCRIPTION: " + body;
    assert body[0] == x[0] && body[|body| - 1] == y[|y| - 1];
    DescriptionOfColonFree(body);
    NoBlankTrim(body);
  }

  /** After an upper-case marker, a colon-free body that starts with no
      space is the whole description, trimmed. */
  lemma DescriptionOfColonFree(body: string)
    requires body != [] && !IsSpace(body[0]) && ':' !in body
    ensures DescriptionField("DESCRIPTION: " + body) == Trim(body)
  {
    var s := "DESCRIPTION: " + body;
    var f := FoldAscii(s);
    assert s[13..] == body;
    ColonFreeTail(s, body);
    NoMarkerAfter(s, f, 13);
    assert StopAt(s, f, 14) == |s|;
    DescriptionMarkerFolded(s);
    assert s[13] == body[0];
    assert SpaceEnd(s, 12) == 13;
    assert s[13..StopAt(s, f, 14)] == body;
    DescriptionAtFirstMarker(s, 0);
  }

  /** An upper-case `DESCRIPTION: ` folds to the marker. */
  lemma DescriptionMarkerFolded(s: string)
    requires |s| >= 13 && s[..13] == "DESCRIPTION: "
    ensures FoldAscii(s)[..12] == DESCRIPTION_MARKER && s[12] == ' '
  {
    var f := FoldAscii(s);
    var u := "DESCRIPTION: ";
    forall i | 0 <= i < 13 ensures s[i] == u[i] {
      assert s[..13][i] == s[i];
    }
    assert f[0] == 'd' && f[1] == 'e' && f[2] == 's' && f[3] == 'c';
    assert f[4] == 'r' && f[5] == 'i' && f[6] == 'p' && f[7] == 't';
    assert f[8] == 'i' && f[9] == 'o' && f[10] == 'n' && f[11] == ':';
  }

  /** The folded text has no colon past the description marker. */
  lemma ColonFreeTail(s: string, body: string)
    requires |s| >= 13 && s[13..] == body && ':' !in body
    ensures forall j :: 13 <= j < |s| ==> FoldAscii(s)[j] != ':'
  {
    var f := FoldAscii(s);
    forall j | 13 <= j < |s| ensures f[j] != ':' {
      assert s[j] == body[j - 13];
    }
  }

  /** Every stop marker ends with a colon, so none begins where no colon
      follows. */
  lemma NoMarkerAfter(s: string, f: string, start: nat)
    requires |f| == |s|
    requires forall j :: start <= j < |s| ==> f[j] != ':'
    ensures forall k :: start < k < |s| ==> !OccursAt(f, LABELS_MARKER, k) && !OccursAt(f, PRIORITY_MARKER, k)
  {
    forall k | start < k < |s|
      ensures !OccursAt(f, LABELS_MARKER, k) && !OccursAt(f, PRIORITY_MARKER, k)
    {
      if k + 7 <= |s| {
        assert f[k..k + 7][6] == f[k + 6];
      }
      if k + 9 <= |s| {
        assert f[k..k + 9][8] == f[k + 8];
      }
    }
  }


  // ---------------------------------------------------------------- settings

  const ENTER_KEY := "Enter OpenAI API key"
  const KEY_PREFIX_WARNING := "Warning: API key should start with \"sk-\""

  datatype SaveOutcome = Rejected(message: string) | Saved(storedKey: string)

  /** Trimming a key that begins with `sk-` keeps that beginning. */
  lemma TrimKeepsKeyPrefix(key: string)
    requires StartsWith(key, "sk-")
    ensures StartsWith(Trim(key), "sk-")
  {
    assert !IsSpace(key[0]) && !IsSpace(key[1]) && !IsSpace(key[2]);
    assert TrimStart(key) == key;
    var r := TrimEnd(key);
    assert |r| >= 3;
    assert r[..3] == key[..3];
  }

  /** The check in `saveSettings`: a blank key is refused, then a key not
      beginning with `sk-` as typed, and an accepted key is stored trimmed. */
  function SaveKey(key: string): (r: SaveOutcome)
    ensures r.Saved? <==> !AllSpace(key) && StartsWith(key, "sk-")
    ensures r.Saved? ==> r.storedKey == Trim(key) && StartsWith(r.storedKey, "sk-")
    ensures AllSpace(key) ==> r == Rejected(ENTER_KEY)
  {
    TrimEmpty(key);
    if key == [] || Trim(key) == [] then Rejected(ENTER_KEY)
    else if !StartsWith(key, "sk-") then Rejected(KEY_PREFIX_WARNING)
    else
      TrimKeepsKeyPrefix(key);
      Saved(Trim(key))
  }

  /** The prefix is checked before trimming: a key typed after a space is
      refused whatever follows. */
  lemma LeadingSpaceRefused(key: string)
    ensures SaveKey(" " + key) == Rejected(ENTER_KEY) || SaveKey(" " + key) == Rejected(KEY_PREFIX_WARNING)
  {
    assert (" " + key)[0] == ' ';
  }

  /** Saving the stored key again stores the same key. */
  lemma SaveKeyIdempotent(key: string)
    requires SaveKey(key).Saved?
    ensures SaveKey(SaveKey(key).storedKey) == SaveKey(key)
  {
    var t := SaveKey(key).storedKey;
    assert t != [] && !IsSpace(t[0]) && !IsSpace(t[|t| - 1]);
    assert TrimStart(t) == t;
    assert TrimEnd(t) == t;
    assert !AllSpace(t) by {
      assert !IsSpace(t[0]);
    }
  }

  // ------------------------------------------------------------- clipboard

  /** The text `copyAllToClipboard` puts on the clipboard. */
  function CopyAllText(title: string, description: string, labels: string, priority: string): string {
    "Title: " + title + "\n\nDescription:\n" + description + "\n\nLabels: " + labels + "\nPriority: " + priority
  }

  lemma NoBreakConcat(a: string, b: string)
    requires '\n' !in a && '\n' !in b
    ensures '\n' !in a + b
  {
  }

  lemma SplitCopyTail(d: string, l: string, p: string)
    requires '\n' !in l && '\n' !in p
    ensures Split(d + "\n" + ("\n" + l + "\n" + p), '\n') == Split(d, '\n') + ["", l, p]
  {
    var tail := "\n" + l + "\n" + p;
    SplitNoSep(p, '\n');
    SplitFirst(l, '\n', p);
    assert tail == "" + "\n" + (l + "\n" + p);
    SplitFirst("", '\n', l + "\n" + p);
    SplitAppend(d, '\n', tail);
  }

  lemma SplitCopyHead(t: string, h: string, x: string)
    requires '\n' !in t && '\n' !in h
    ensures Split(t + "\n" + ("\n" + (h + "\n" + x)), '\n') == [t, "", h] + Split(x, '\n')
  {
    var hx := h + "\n" + x;
    SplitFirst(h, '\n', x);
    SplitFirst("", '\n', hx);
    assert "" + "\n" + hx == "\n" + hx;
    SplitFirst(t, '\n', "\n" + hx);
    assert [t] + ([""] + ([h] + Split(x, '\n'))) == [t, "", h] + Split(x, '\n');
  }

  lemma CopyPieces()
    ensures "\n\nDescription:\n" == "\n" + "\n" + "Description:" + "\n"
    ensures "\n\n" == "\n" + "\n"
  {
  }

  lemma Regroup(t: string, n: string, h: string, d: string, l: string, p: string)
    ensures t + (n + n + h + n) + d + (n + n) + l + n + p
            == t + n + (n + (h + n + (d + n + (n + l + n + p))))
  {
  }

  /** The split of the copied text, over its parts. */
  lemma SplitCopyShape(t: string, d: string, l: string, p: string)
    requires '\n' !in t && '\n' !in l && '\n' !in p
    ensures Split(t + "\n\nDescription:\n" + d + "\n\n" + l + "\n" + p, '\n')
            == [t, "", "Description:"] + Split(d, '\n') + ["", l, p]
  {
    var x := d + "\n" + ("\n" + l + "\n" + p);
    CopyPieces();
    Regroup(t, "\n", "Description:", d, l, p);
    assert '\n' !in "Description:";
    SplitCopyHead(t, "Description:", x);
    SplitCopyTail(d, l, p);
  }

  /** Line by line: the title line, a blank line, the heading, the
      description's own lines, a blank line, then labels and priority. */
  lemma CopyAllLines(title: string, description: string, labels: string, priority: string)
    requires '\n' !in title && '\n' !in labels && '\n' !in priority
    ensures Split(CopyAllText(title, description, labels, priority), '\n')
            == ["Title: " + title, "", "Description:"] + Split(description, '\n')
               + ["", "Labels: " + labels, "Priority: " + priority]
  {
    var t, l, p := "Title: " + title, "Labels: " + labels, "Priority: " + priority;
    NoBreakConcat("Title: ", title);
    NoBreakConcat("Labels: ", labels);
    NoBreakConcat("Priority: ", priority);
    assert CopyAllText(title, description, labels, priority)
           == t + "\n\nDescription:\n" + description + "\n\n" + l + "\n" + p;
    SplitCopyShape(t, description, l, p);
  }
}
