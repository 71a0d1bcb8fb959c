/** The project analyzer: counts categories, priorities, statuses, labels
    and terms over a project's issues, and picks its top labels, common
    terms and best-described example issues. */
module Project {
  import opened Wrappers
  import opened Text
  import opened Seqs
  import opened Order
  import opened Counter

  /** A Jira description: missing, a plain string, or a document object
      whose `content` (if any) is given already serialized as JSON. */
  datatype Description = Missing | Plain(text: string) | Document(content: Option<string>)

  /** The fields of an issue the analyzer reads; `None` is a missing field. */
  datatype Issue = Issue(
    key: string,
    summary: string,
    description: Description,
    priority: Option<string>,
    status: Option<string>,
    labels: Option<seq<string>>)

  /** `extractDescription`. */
  function ExtractDescription(d: Description): (r: string)
    ensures d.Missing? ==> r == ""
    ensures d.Plain? ==> r == d.text
    ensures d.Document? && d.content.None? ==> r == ""
  {
    match d
    case Missing => ""
    case Plain(s) => s
    case Document(c) => match c { case Some(json) => json case None => "" }
  }

  /** `` `${summary} ${extractDescription(description)}` ``. */
  function IssueText(issue: Issue): string {
    issue.summary + " " + ExtractDescription(issue.description)
  }

  function PriorityName(issue: Issue): string {
    OrElse(issue.priority, "None")
  }

  function StatusName(issue: Issue): string {
    OrElse(issue.status, "Unknown")
  }

  function LabelsOf(issue: Issue): seq<string> {
    match issue.labels
    case Some(ls) => ls
    case None => []
  }

  // ---------------------------------------------------------------- category

  /** The alternatives of the five category regular expressions, in the
      order they are tried. */
  const CATEGORY_KEYWORDS: seq<seq<string>> := [
    ["backend", "api", "server", "database"],
    ["frontend", "ui", "ux", "interface"],
    ["devops", "ci/cd", "deploy", "docker"],
    ["analytics", "dashboard", "metrics"],
    ["infrastructure", "system", "security"]]

  const CATEGORY_NAMES: seq<string> := ["Backend", "Frontend", "DevOps", "Analytics", "Infrastructure"]

  const OTHER := "Other"

  /** The regular expression of group `g` matches the lowercased issue text. */
  predicate Matches(issue: Issue, g: int)
    requires 0 <= g < 5
  {
    ContainsAny(ToLower(IssueText(issue)), CATEGORY_KEYWORDS[g])
  }

  function DetectCategory(issue: Issue): (r: string)
    ensures r in CATEGORY_NAMES || r == OTHER
    ensures r == OTHER <==> forall g :: 0 <= g < 5 ==> !Matches(issue, g)
  {
    if Matches(issue, 0) then CATEGORY_NAMES[0]
    else if Matches(issue, 1) then CATEGORY_NAMES[1]
    else if Matches(issue, 2) then CATEGORY_NAMES[2]
    else if Matches(issue, 3) then CATEGORY_NAMES[3]
    else if Matches(issue, 4) then CATEGORY_NAMES[4]
    else OTHER
  }

  /** The first group whose expression matches decides the category. */
  lemma DetectFirstMatch(issue: Issue, g: int)
    requires 0 <= g < 5 && Matches(issue, g)
    requires forall h :: 0 <= h < g ==> !Matches(issue, h)
    ensures DetectCategory(issue) == CATEGORY_NAMES[g]
  {
    if g > 0 { assert !Matches(issue, 0); }
    if g > 1 { assert !Matches(issue, 1); }
    if g > 2 { assert !Matches(issue, 2); }
    if g > 3 { assert !Matches(issue, 3); }
  }

  // ------------------------------------------------------------------- terms

  /** `\w`. */
  predicate IsWordChar(c: char) {
    ('a' <= c <= 'z') || ('A' <= c <= 'Z') || ('0' <= c <= '9') || c == '_'
  }

  /** `s[a..b]` is a whole run of word characters: `\b\w+\b`. */
  predicate MaximalRun(s: string, a: int, b: int) {
    && 0 <= a < b <= |s|
    && (forall k :: a <= k < b ==> IsWordChar(s[k]))
    && (a == 0 || !IsWordChar(s[a - 1]))
    && (b == |s| || !IsWordChar(s[b]))
  }

  /** Position `i` does not fall strictly inside a run of word characters. */
  predicate AtBoundary(s: string, i: int)
    requires 0 <= i <= |s|
  {
    i == 0 || i == |s| || !IsWordChar(s[i - 1]) || !IsWordChar(s[i])
  }

  /** The end of the run of word characters starting at `i`. */
  function RunEnd(s: string, i: nat): (r: nat)
    requires i <= |s|
    ensures i <= r <= |s|
    ensures forall k :: i <= k < r ==> IsWordChar(s[k])
    ensures r == |s| || !IsWordChar(s[r])
    decreases |s| - i
  {
    if i == |s| || !IsWordChar(s[i]) then i else RunEnd(s, i + 1)
  }

  datatype Span = Span(start: nat, end: nat)

  /** The runs of word characters at or after `i`, left to right. */
  function SpansFrom(s: string, i: nat): (r: seq<Span>)
    requires i <= |s|
    ensures forall k :: 0 <= k < |r| ==> i <= r[k].start < r[k].end <= |s|
    ensures forall k, l :: 0 <= k < l < |r| ==> r[k].end <= r[l].start
    decreases |s| - i
  {
    if i == |s| then []
    else if !IsWordChar(s[i]) then SpansFrom(s, i + 1)
    else
      var j := RunEnd(s, i);
      [Span(i, j)] + SpansFrom(s, j)
  }

  lemma {:induction false} SpansSound(s: string, i: nat)
    requires i <= |s| && AtBoundary(s, i)
    ensures forall k :: 0 <= k < |SpansFrom(s, i)| ==>
              MaximalRun(s, SpansFrom(s, i)[k].start, SpansFrom(s, i)[k].end)
    decreases |s| - i
  {
    if i < |s| {
      if !IsWordChar(s[i]) {
        SpansSound(s, i + 1);
      } else {
        SpansSound(s, RunEnd(s, i));
      }
    }
  }

  lemma {:induction false} SpansComplete(s: string, i: nat, a: int, b: int)
    requires i <= |s| && AtBoundary(s, i)
    requires MaximalRun(s, a, b) && i <= a
    ensures Span(a, b) in SpansFrom(s, i)
    decreases |s| - i
  {
    if !IsWordChar(s[i]) {
      assert a != i;
      SpansComplete(s, i + 1, a, b);
    } else {
      var j := RunEnd(s, i);
      if a != i {
        SpansComplete(s, j, a, b);
      }
    }
  }

  /** The scan lists every maximal run of word characters exactly once, left
      to right, and nothing else. */
  lemma SpansAreRuns(s: string, a: nat, b: nat)
    ensures Span(a, b) in SpansFrom(s, 0) <==> MaximalRun(s, a, b)
  {
    SpansSound(s, 0);
    if MaximalRun(s, a, b) {
      SpansComplete(s, 0, a, b);
    }
  }

  /** The text of the spans at least four characters long: `\b\w{4,}\b`. */
  function LongWords(s: string, spans: seq<Span>): (r: seq<string>)
    requires forall k :: 0 <= k < |spans| ==> spans[k].start <= spans[k].end <= |s|
  {
    if spans == [] then []
    else
      var sp := spans[|spans| - 1];
      LongWords(s, spans[..|spans| - 1])
      + (if sp.end - sp.start >= 4 then [s[sp.start..sp.end]] else [])
  }

  lemma {:induction false} LongWordsMembers(s: string, spans: seq<Span>, w: string)
    requires forall k :: 0 <= k < |spans| ==> spans[k].start <= spans[k].end <= |s|
    ensures w in LongWords(s, spans) <==>
              exists k :: 0 <= k < |spans| && spans[k].end - spans[k].start >= 4
                          && w == s[spans[k].start..spans[k].end]
  {
    if spans != [] {
      var init := spans[..|spans| - 1];
      LongWordsMembers(s, init, w);
      var sp := spans[|spans| - 1];
      if exists k :: 0 <= k < |spans| && spans[k].end - spans[k].start >= 4
                     && w == s[spans[k].start..spans[k].end] {
        var k :| 0 <= k < |spans| && spans[k].end - spans[k].start >= 4
                 && w == s[spans[k].start..spans[k].end];
        if k < |init| {
          assert init[k] == spans[k];
        }
      }
      if exists k :: 0 <= k < |init| && init[k].end - init[k].start >= 4
                     && w == s[init[k].start..init[k].end] {
        var k :| 0 <= k < |init| && init[k].end - init[k].start >= 4
                 && w == s[init[k].start..init[k].end];
        assert spans[k] == init[k];
      }
    }
  }

  /** `s.match(/\b\w{4,}\b/g) || []`. */
  function Words(s: string): seq<string> {
    LongWords(s, SpansFrom(s, 0))
  }

  /** A word is found exactly when it is a whole run of at least four word characters. */
  lemma WordsAreRuns(s: string, w: string)
    ensures w in Words(s) <==> exists a, b :: MaximalRun(s, a, b) && b - a >= 4 && w == s[a..b]
  {
    if w in Words(s) {
      WordIsRun(s, w);
    }
    if exists a, b :: MaximalRun(s, a, b) && b - a >= 4 && w == s[a..b] {
      var a, b :| MaximalRun(s, a, b) && b - a >= 4 && w == s[a..b];
      RunIsWord(s, a, b);
    }
  }

  lemma WordIsRun(s: string, w: string)
    requires w in Words(s)
    ensures exists a, b :: MaximalRun(s, a, b) && b - a >= 4 && w == s[a..b]
  {
    var spans := SpansFrom(s, 0);
    LongWordsMembers(s, spans, w);
    var k :| 0 <= k < |spans| && spans[k].end - spans[k].start >= 4
             && w == s[spans[k].start..spans[k].end];
    var a, b := spans[k].start, spans[k].end;
    assert Span(a, b) in spans;
    SpansAreRuns(s, a, b);
  }

  lemma RunIsWord(s: string, a: nat, b: nat)
    requires MaximalRun(s, a, b) && b - a >= 4
    ensures s[a..b] in Words(s)
  {
    var spans := SpansFrom(s, 0);
    SpansAreRuns(s, a, b);
    var k :| 0 <= k < |spans| && spans[k] == Span(a, b);
    LongWordsMembers(s, spans, s[a..b]);
  }

  const STOP_WORDS: seq<string> := ["the", "a", "to", "of", "and", "in", "is", "for", "on", "with"]

  predicate NotStopWord(w: string) {
    w !in STOP_WORDS
  }

  /** The words of a text that `extractTerms` counts. */
  function Terms(text: string): seq<string> {
    Filter(Words(ToLower(text)), NotStopWord)
  }

  /** Every counted term is a whole run of four or more word characters of the
      lowercased text, and never the stop word "with". */
  lemma TermsAreWords(text: string, w: string)
    ensures w in Terms(text) <==>
              w != "with" && exists a, b :: MaximalRun(ToLower(text), a, b) && b - a >= 4 && w == ToLower(text)[a..b]
  {
    FilterIn(Words(ToLower(text)), NotStopWord, w);
    WordsAreRuns(ToLower(text), w);
  }

  lemma CountStep(t: Tally, words: seq<string>, i: int)
    requires 0 <= i < |words|
    ensures BumpAll(t, Filter(words[..i + 1], NotStopWord))
            == if NotStopWord(words[i]) then Bump(BumpAll(t, Filter(words[..i], NotStopWord)), words[i])
               else BumpAll(t, Filter(words[..i], NotStopWord))
  {
    assert words[..i + 1] == words[..i] + [words[i]];
    FilterSnoc(words[..i], words[i], NotStopWord);
    var f := Filter(words[..i], NotStopWord);
    if NotStopWord(words[i]) {
      assert (f + [words[i]])[..|f|] == f;
    } else {
      assert f + [] == f;
    }
  }

  /** The term-frequency object that `extractTerms` fills in place. */
  class TermFrequency {
    var counts: Tally

    constructor()
      ensures counts == []
    {
      counts := [];
    }

    /** `extractTerms(text, this)`. */
    method ExtractTerms(text: string)
      modifies this
      ensures counts == BumpAll(old(counts), Terms(text))
    {
      var words := Words(ToLower(text));
      var i := 0;
      while i < |words|
        invariant 0 <= i <= |words|
        invariant counts == BumpAll(old(counts), Filter(words[..i], NotStopWord))
      {
        var word := words[i];
        CountStep(old(counts), words, i);
        if NotStopWord(word) {
          counts := Bump(counts, word);
        }
        assert counts == BumpAll(old(counts), Filter(words[..i + 1], NotStopWord));
        i := i + 1;
      }
      assert words[..i] == words;
    }
  }

  /** Extracting terms adds each found term's number of occurrences and leaves
      the count of "with" as it was. */
  lemma ExtractTermsCounts(t: Tally, text: string, w: string)
    ensures Get(BumpAll(t, Terms(text)), w) == Get(t, w) + multiset(Terms(text))[w]
    ensures Get(BumpAll(t, Terms(text)), "with") == Get(t, "with")
  {
    BumpAllGet(t, Terms(text), w);
    BumpAllGet(t, Terms(text), "with");
    FilterIn(Words(ToLower(text)), NotStopWord, "with");
  }

  // --------------------------------------------------------------- analysis

  function IssueTerms(issue: Issue): seq<string> {
    Terms(IssueText(issue))
  }

  function AllLabels(issues: seq<Issue>): seq<string> {
    Flatten(Map(issues, LabelsOf))
  }

  function AllTerms(issues: seq<Issue>): seq<string> {
    Flatten(Map(issues, IssueTerms))
  }

  /** The five counter objects of `performAnalysis`. */
  datatype Counts = Counts(categories: Tally, priorities: Tally, statuses: Tally, labels: Tally, terms: Tally)

  function AddIssue(c: Counts, issue: Issue): Counts {
    Counts(
      Bump(c.categories, DetectCategory(issue)),
      Bump(c.priorities, PriorityName(issue)),
      Bump(c.statuses, StatusName(issue)),
      BumpAll(c.labels, LabelsOf(issue)),
      BumpAll(c.terms, IssueTerms(issue)))
  }

  function CountsOf(issues: seq<Issue>): Counts {
    if issues == [] then Counts([], [], [], [], [])
    else AddIssue(CountsOf(issues[..|issues| - 1]), issues[|issues| - 1])
  }

  lemma {:induction false} CategoriesCounted(issues: seq<Issue>)
    ensures CountsOf(issues).categories == TallyOf(Map(issues, DetectCategory))
  {
    if issues != [] {
      var init, issue := issues[..|issues| - 1], issues[|issues| - 1];
      CategoriesCounted(init);
      TallySnoc(Map(init, DetectCategory), DetectCategory(issue));
    }
  }

  lemma {:induction false} PrioritiesCounted(issues: seq<Issue>)
    ensures CountsOf(issues).priorities == TallyOf(Map(issues, PriorityName))
  {
    if issues != [] {
      var init, issue := issues[..|issues| - 1], issues[|issues| - 1];
      PrioritiesCounted(init);
      TallySnoc(Map(init, PriorityName), PriorityName(issue));
    }
  }

  lemma {:induction false} StatusesCounted(issues: seq<Issue>)
    ensures CountsOf(issues).statuses == TallyOf(Map(issues, StatusName))
  {
    if issues != [] {
      var init, issue := issues[..|issues| - 1], issues[|issues| - 1];
      StatusesCounted(init);
      TallySnoc(Map(init, StatusName), StatusName(issue));
    }
  }

  lemma {:induction false} LabelsCounted(issues: seq<Issue>)
    ensures CountsOf(issues).labels == TallyOf(AllLabels(issues))
  {
    if issues != [] {
      var init, issue := issues[..|issues| - 1], issues[|issues| - 1];
      LabelsCounted(init);
      FlattenSnoc(Map(init, LabelsOf), LabelsOf(issue));
      BumpAllTally(AllLabels(init), LabelsOf(issue));
    }
  }

  lemma {:induction false} TermsCounted(issues: seq<Issue>)
    ensures CountsOf(issues).terms == TallyOf(AllTerms(issues))
  {
    if issues != [] {
      var init, issue := issues[..|issues| - 1], issues[|issues| - 1];
      TermsCounted(init);
      FlattenSnoc(Map(init, IssueTerms), IssueTerms(issue));
      BumpAllTally(AllTerms(init), IssueTerms(issue));
    }
  }

  // ----------------------------------------------------------- best examples

  /** Sort key of `findBestExamples`: the description's `length`, in UTF-16 units. */
  function DescriptionLength(issue: Issue): int {
    Utf16Length(ExtractDescription(issue.description))
  }

  predicate WellDescribed(issue: Issue) {
    DescriptionLength(issue) > 100
  }

  /** The issues `findBestExamples` keeps, before they are summarized. */
  function BestIssues(issues: seq<Issue>): (r: seq<Issue>)
    ensures |r| <= 5
    ensures Descending(r, DescriptionLength)
    ensures multiset(r) <= multiset(issues)
    ensures forall i :: 0 <= i < |r| ==> WellDescribed(r[i])
  {
    var candidates := Filter(issues, WellDescribed);
    var r := TopN(candidates, DescriptionLength, 5);
    FilterSubmultiset(issues, WellDescribed);
    forall i | 0 <= i < |r| ensures WellDescribed(r[i]) {
      assert r[i] in multiset(candidates);
      FilterIn(issues, WellDescribed, r[i]);
    }
    r
  }

  /** No well-described issue left out has a longer description than one kept,
      and fewer than five are kept only when there are no more to keep. */
  lemma BestIssuesDominate(issues: seq<Issue>, y: Issue, i: int)
    requires y in multiset(Filter(issues, WellDescribed)) - multiset(BestIssues(issues))
    requires 0 <= i < |BestIssues(issues)|
    ensures DescriptionLength(y) <= DescriptionLength(BestIssues(issues)[i])
    ensures |BestIssues(issues)| == 5
  {
    var candidates := Filter(issues, WellDescribed);
    TopNDominates(candidates, DescriptionLength, 5, y, i);
    TopNFull(candidates, DescriptionLength, 5, y);
  }

  datatype Example = Example(key: string, summary: string, category: string, priority: string, status: string)

  function ToExample(issue: Issue): Example {
    Example(issue.key, issue.summary, DetectCategory(issue), PriorityName(issue), StatusName(issue))
  }

  function FindBestExamples(issues: seq<Issue>): (r: seq<Example>)
    ensures |r| <= 5
    ensures |r| == |BestIssues(issues)|
    ensures forall i :: 0 <= i < |r| ==> r[i] == ToExample(BestIssues(issues)[i])
  {
    Map(BestIssues(issues), ToExample)
  }

  // ---------------------------------------------------------------- analysis

  datatype Analysis = Analysis(
    projectKey: string,
    totalIssues: nat,
    categories: Tally,
    priorities: Tally,
    statuses: Tally,
    topLabels: seq<string>,
    commonTerms: seq<Entry>,
    bestExamples: seq<Example>)

  /** The `issues.forEach` of `performAnalysis`, filling the five counters. */
  method CountIssues(issues: seq<Issue>) returns (c: Counts)
    ensures c == CountsOf(issues)
  {
    var categories, priorities, statuses, labels := [], [], [], [];
    var termFrequency := new TermFrequency();
    var i := 0;
    while i < |issues|
      invariant 0 <= i <= |issues|
      invariant Counts(categories, priorities, statuses, labels, termFrequency.counts) == CountsOf(issues[..i])
    {
      var issue := issues[i];
      ghost var before := CountsOf(issues[..i]);
      assert CountsOf(issues[..i + 1]) == AddIssue(before, issue) by {
        assert issues[..i + 1][..i] == issues[..i];
      }
      categories := Bump(categories, DetectCategory(issue));
      priorities := Bump(priorities, PriorityName(issue));
      statuses := Bump(statuses, StatusName(issue));
      labels := CountAll(labels, LabelsOf(issue));
      termFrequency.ExtractTerms(IssueText(issue));
      assert Counts(categories, priorities, statuses, labels, termFrequency.counts) == AddIssue(before, issue);
      i := i + 1;
    }
    assert issues[..i] == issues;
    c := Counts(categories, priorities, statuses, labels, termFrequency.counts);
  }

  method PerformAnalysis(issues: seq<Issue>, projectKey: string) returns (a: Analysis)
    ensures a.projectKey == projectKey && a.totalIssues == |issues|
    ensures a.categories == TallyOf(Map(issues, DetectCategory))
    ensures a.priorities == TallyOf(Map(issues, PriorityName))
    ensures a.statuses == TallyOf(Map(issues, StatusName))
    ensures a.topLabels == Keys(TopN(TallyOf(AllLabels(issues)), CountOf, 20))
    ensures a.commonTerms == TopN(TallyOf(AllTerms(issues)), CountOf, 30)
    ensures a.bestExamples == FindBestExamples(issues)
  {
    var c := CountIssues(issues);
    CategoriesCounted(issues);
    PrioritiesCounted(issues);
    StatusesCounted(issues);
    LabelsCounted(issues);
    TermsCounted(issues);
    var topLabels := Keys(TopN(c.labels, CountOf, 20));
    var commonTerms := TopN(c.terms, CountOf, 30);
    a := Analysis(projectKey, |issues|, c.categories, c.priorities, c.statuses, topLabels, commonTerms,
                  FindBestExamples(issues));
  }

  /** The category, priority and status counts each add up to the number of
      issues, and every issue is counted under its own category, priority and
      status, with "None" and "Unknown" standing for a missing priority or status. */
  lemma AnalysisTotals(issues: seq<Issue>, k: string)
    ensures Total(TallyOf(Map(issues, DetectCategory))) == |issues|
    ensures Total(TallyOf(Map(issues, PriorityName))) == |issues|
    ensures Total(TallyOf(Map(issues, StatusName))) == |issues|
    ensures Get(TallyOf(Map(issues, PriorityName)), k) == multiset(Map(issues, PriorityName))[k]
  {
    TallyTotal(Map(issues, DetectCategory));
    TallyTotal(Map(issues, PriorityName));
    TallyTotal(Map(issues, StatusName));
    TallyCounts(Map(issues, PriorityName), k);
  }

  /** At most 20 top labels and 30 common terms, each drawn from the labels or
      terms of the issues. */
  lemma TopListsBounded(issues: seq<Issue>)
    ensures |Keys(TopN(TallyOf(AllLabels(issues)), CountOf, 20))| <= 20
    ensures forall l :: l in Keys(TopN(TallyOf(AllLabels(issues)), CountOf, 20)) ==> l in AllLabels(issues)
    ensures |TopN(TallyOf(AllTerms(issues)), CountOf, 30)| <= 30
  {
    TopOfTally(AllLabels(issues), 20);
  }
}
