/** The browser extension's background worker: the prompt it sends, the
    line-by-line reading of the model's answer, and the test for a Jira
    page. */
module Background {
  import opened Wrappers
  import opened Text

  // ------------------------------------------------------------------ prompt

  const PROMPT_OPEN := "Create a Jira task in category \""
  const PROMPT_MIDDLE := "\".\n\nDescription: "
  const PROMPT_CLOSE :=
    "\n\nCreate:\n"
    + "1. Task title (brief and clear)\n"
    + "2. Detailed description with sections:\n"
    + "   - Goal\n"
    + "   - What needs to be done\n"
    + "   - Acceptance criteria\n"
    + "3. Labels (comma-separated)\n"
    + "4. Priority (High/Medium/Low)\n\n"
    + "Response format:\n"
    + "TITLE: [title]\n"
    + "DESCRIPTION: [description]\n"
    + "LABELS: [labels]\n"
    + "PRIORITY: [priority]"

  /** `buildPrompt(description, category)`. */
  function BuildPrompt(description: string, category: string): string {
    PROMPT_OPEN + category + PROMPT_MIDDLE + description + PROMPT_CLOSE
  }

  /** The prompt quotes the category, carries the description as given, and
      closes with the response format the answer reader expects. */
  lemma BuildPromptEmbeds(description: string, category: string)
    ensures Contains(BuildPrompt(description, category), category)
    ensures Contains(BuildPrompt(description, category), description)
    ensures StartsWith(BuildPrompt(description, category), PROMPT_OPEN + category + PROMPT_MIDDLE)
    ensures EndsWith(BuildPrompt(description, category), PROMPT_CLOSE)
  {
    EmbedsSecondAndFourth(PROMPT_OPEN, category, PROMPT_MIDDLE, description, PROMPT_CLOSE);
    EndsWithLast(PROMPT_OPEN + category + PROMPT_MIDDLE + description, PROMPT_CLOSE);
  }

  // ---------------------------------------------------------------- answer

  /** The four fields read from the answer. */
  datatype Draft = Draft(title: string, description: string, labels: string, priority: string)

  const EMPTY_DRAFT := Draft("", "", "", "")

  datatype Field = Title | Description | Labels | Priority

  /** Fields in the order the markers are tried. */
  function Rank(f: Field): nat {
    match f
    case Title => 0
    case Description => 1
    case Labels => 2
    case Priority => 3
  }

  function EnglishMarker(f: Field): string {
    match f
    case Title => "TITLE:"
    case Description => "DESCRIPTION:"
    case Labels => "LABELS:"
    case Priority => "PRIORITY:"
  }

  function RussianMarker(f: Field): string {
    match f
    case Title => "НАЗВАНИЕ:"
    case Description => "ОПИСАНИЕ:"
    case Labels => "МЕТКИ:"
    case Priority => "ПРИОРИТЕТ:"
  }

  /** The line begins, case-sensitively, with one of the field's markers. */
  predicate Marks(line: string, f: Field) {
    StartsWith(line, EnglishMarker(f)) || StartsWith(line, RussianMarker(f))
  }

  /** The field a line sets: the first whose marker begins it. */
  function LineField(line: string): (r: Option<Field>)
    ensures r.Some? ==> Marks(line, r.value)
    ensures r.Some? ==> forall g: Field :: Rank(g) < Rank(r.value) ==> !Marks(line, g)
    ensures r.None? ==> forall g: Field :: !Marks(line, g)
  {
    if Marks(line, Title) then Some(Title)
    else if Marks(line, Description) then Some(Description)
    else if Marks(line, Labels) then Some(Labels)
    else if Marks(line, Priority) then Some(Priority)
    else None
  }

  /** `line.replace(/EN:|RU:/, '').trim()` on a line beginning with one of
      the two markers: the leftmost match is that marker. */
  function StripMarker(line: string, english: string, russian: string): string
    requires StartsWith(line, english) || StartsWith(line, russian)
  {
    if StartsWith(line, english) then Trim(line[|english|..]) else Trim(line[|russian|..])
  }

  function FieldValue(line: string, f: Field): string
    requires Marks(line, f)
  {
    StripMarker(line, EnglishMarker(f), RussianMarker(f))
  }

  function Get(d: Draft, f: Field): string {
    match f
    case Title => d.title
    case Description => d.description
    case Labels => d.labels
    case Priority => d.priority
  }

  function Set(d: Draft, f: Field, v: string): (r: Draft)
    ensures Get(r, f) == v
    ensures forall g: Field :: g != f ==> Get(r, g) == Get(d, g)
  {
    match f
    case Title => d.(title := v)
    case Description => d.(description := v)
    case Labels => d.(labels := v)
    case Priority => d.(priority := v)
  }

  /** One step of the `forEach` over the lines. */
  function ApplyLine(d: Draft, line: string): Draft {
    match LineField(line)
    case None => d
    case Some(f) => Set(d, f, FieldValue(line, f))
  }

  function ParseLines(lines: seq<string>): Draft {
    if lines == [] then EMPTY_DRAFT else ApplyLine(ParseLines(lines[..|lines| - 1]), lines[|lines| - 1])
  }

  /** `parseOpenAIResponse`. */
  method ParseOpenAIResponse(content: string) returns (result: Draft)
    ensures result == ParseLines(Split(content, '\n'))
  {
    var lines := Split(content, '\n');
    result := EMPTY_DRAFT;
    for i := 0 to |lines|
      invariant result == ParseLines(lines[..i])
    {
      assert lines[..i + 1][..i] == lines[..i];
      result := ReadLine(result, lines[i]);
    }
    assert lines[..|lines|] == lines;
  }

  /** The body of the `forEach`: the first marker that begins the line picks
      the field it overwrites. */
  method ReadLine(d: Draft, line: string) returns (result: Draft)
    ensures result == ApplyLine(d, line)
  {
    result := d;
    if StartsWith(line, "TITLE:") || StartsWith(line, "НАЗВАНИЕ:") {
      result := result.(title := StripMarker(line, "TITLE:", "НАЗВАНИЕ:"));
    } else if StartsWith(line, "DESCRIPTION:") || StartsWith(line, "ОПИСАНИЕ:") {
      result := result.(description := StripMarker(line, "DESCRIPTION:", "ОПИСАНИЕ:"));
    } else if StartsWith(line, "LABELS:") || StartsWith(line, "МЕТКИ:") {
      result := result.(labels := StripMarker(line, "LABELS:", "МЕТКИ:"));
    } else if StartsWith(line, "PRIORITY:") || StartsWith(line, "ПРИОРИТЕТ:") {
      result := result.(priority := StripMarker(line, "PRIORITY:", "ПРИОРИТЕТ:"));
    }
  }

  /** A line carrying a field's marker sets that field to its value. */
  lemma ApplyLineSets(d: Draft, line: string, f: Field)
    requires LineField(line) == Some(f)
    ensures Get(ApplyLine(d, line), f) == FieldValue(line, f)
  {
  }

  /** A line carrying no marker of a field leaves that field alone. */
  lemma ApplyLineKeeps(d: Draft, line: string, f: Field)
    requires LineField(line) != Some(f)
    ensures Get(ApplyLine(d, line), f) == Get(d, f)
  {
  }

  /** The last line carrying a field's marker decides that field. */
  lemma {:induction false} LastMarkerWins(lines: seq<string>, f: Field, i: int)
    requires 0 <= i < |lines| && LineField(lines[i]) == Some(f)
    requires forall j :: i < j < |lines| ==> LineField(lines[j]) != Some(f)
    ensures Get(ParseLines(lines), f) == FieldValue(lines[i], f)
  {
    var init, last := lines[..|lines| - 1], lines[|lines| - 1];
    assert ParseLines(lines) == ApplyLine(ParseLines(init), last);
    if i < |lines| - 1 {
      assert init[i] == lines[i];
      forall j | i < j < |init| ensures LineField(init[j]) != Some(f) {
        assert init[j] == lines[j];
      }
      LastMarkerWins(init, f, i);
      ApplyLineKeeps(ParseLines(init), last, f);
    } else {
      ApplyLineSets(ParseLines(init), last, f);
    }
  }

  /** A field no line carries stays empty. */
  lemma {:induction false} UnmarkedFieldEmpty(lines: seq<string>, f: Field)
    requires forall j :: 0 <= j < |lines| ==> LineField(lines[j]) != Some(f)
    ensures Get(ParseLines(lines), f) == ""
  {
    if lines != [] {
      UnmarkedFieldEmpty(lines[..|lines| - 1], f);
    }
  }

  /** A line beginning with anything but the first letter of a marker
      (indentation, a lower-case marker) sets nothing. */
  lemma OtherLinesIgnored(line: string)
    requires line == [] || line[0] !in "TDLPНОМП"
    ensures LineField(line).None?
  {
    if line != [] {
      forall g: Field ensures !Marks(line, g) {
        assert EnglishMarker(g)[0] in "TDLPНОМП";
        assert RussianMarker(g)[0] in "TDLPНОМП";
      }
    }
  }

  lemma TrimNoBreak(s: string)
    requires '\n' !in s
    ensures '\n' !in Trim(s)
  {
    var t := TrimStart(s);
    assert t == s[|s| - |t|..];
    forall k | 0 <= k < |t| ensures t[k] != '\n' {
      assert t[k] == s[|s| - |t| + k];
    }
    var r := TrimEnd(t);
    forall k | 0 <= k < |r| ensures r[k] != '\n' {
      assert r[k] == t[k];
    }
  }

  /** The value read from a line without a break holds no break. */
  lemma ValueNoBreak(line: string, f: Field)
    requires '\n' !in line && Marks(line, f)
    ensures '\n' !in FieldValue(line, f)
  {
    var m := if StartsWith(line, EnglishMarker(f)) then EnglishMarker(f) else RussianMarker(f);
    var rest := line[|m|..];
    forall k | 0 <= k < |rest| ensures rest[k] != '\n' {
      assert rest[k] == line[|m| + k];
    }
    TrimNoBreak(rest);
  }

  /** Every field holds the rest of a single line: none spans two lines. */
  lemma {:induction false} FieldsSingleLine(lines: seq<string>, f: Field)
    requires forall j :: 0 <= j < |lines| ==> '\n' !in lines[j]
    ensures '\n' !in Get(ParseLines(lines), f)
  {
    if lines != [] {
      var last := lines[|lines| - 1];
      FieldsSingleLine(lines[..|lines| - 1], f);
      if LineField(last).Some? {
        ValueNoBreak(last, LineField(last).value);
      }
    }
  }

  /** Read from a whole answer, no field holds a line break. */
  lemma AnswerFieldsSingleLine(content: string, f: Field)
    ensures '\n' !in Get(ParseLines(Split(content, '\n')), f)
  {
    var lines := Split(content, '\n');
    SplitPartsNoSep(content, '\n');
    FieldsSingleLine(lines, f);
  }

  // --------------------------------------------------------------- Jira page

  /** The address fragments of a Jira page, matched ignoring ASCII case. */
  const JIRA_PATTERNS: seq<string> := ["atlassian.net", "atlassian.com", "jira.com", "/jira/"]

  /** `isJiraUrl(url)`: false for a missing or empty address. */
  function IsJiraUrl(url: Option<string>): (r: bool)
    ensures r ==> Truthy(url)
  {
    Truthy(url) && ContainsAny(FoldAscii(url.value), JIRA_PATTERNS)
  }

  /** ASCII case does not matter. */
  lemma IsJiraUrlIgnoresCase(url: string)
    ensures IsJiraUrl(Some(url)) == IsJiraUrl(Some(FoldAscii(url)))
  {
    assert FoldAscii(FoldAscii(url)) == FoldAscii(url);
  }

  /** Any page of an Atlassian cloud site is a Jira page. */
  lemma CloudSiteIsJira(site: string, path: string)
    ensures IsJiraUrl(Some("https://" + site + ".atlassian.net" + path))
  {
    var url := "https://" + site + ".atlassian.net" + path;
    var folded := FoldAscii(url);
    var i := |"https://" + site| + 1;
    assert url[i..i + 13] == "atlassian.net";
    assert folded[i..i + 13] == "atlassian.net";
    ContainsAt(folded, JIRA_PATTERNS[0], i);
  }
}
