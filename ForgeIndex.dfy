/** The Forge plugin's entry point: which issues it improves, the category
    it files an issue under, and the labels and summary of the issues it
    writes back or clones. */
module ForgeIndex {
  import opened Wrappers
  import opened Text
  import opened Categories

  // ---------------------------------------------------------- enhancement

  const AI_ENHANCE := "ai-enhance"
  const AUTO_GENERATE := "auto-generate"

  /** `shouldEnhanceIssue`: missing labels count as none. */
  function ShouldEnhanceIssue(labels: Option<seq<string>>): (r: bool)
    ensures r ==> labels.Some?
    ensures labels.Some? && AI_ENHANCE in labels.value ==> r
  {
    var ls := labels.GetOr([]);
    AI_ENHANCE in ls || AUTO_GENERATE in ls
  }

  /** Exactly the issues carrying one of the two trigger labels. */
  lemma ShouldEnhanceIff(labels: seq<string>)
    ensures ShouldEnhanceIssue(Some(labels)) <==> exists i :: 0 <= i < |labels| && labels[i] in [AI_ENHANCE, AUTO_GENERATE]
  {
    if ShouldEnhanceIssue(Some(labels)) {
      var i :| 0 <= i < |labels| && (labels[i] == AI_ENHANCE || labels[i] == AUTO_GENERATE);
      assert labels[i] in [AI_ENHANCE, AUTO_GENERATE];
    }
  }

  /** Adding labels never withdraws an issue from enhancement. */
  lemma ShouldEnhanceMonotone(labels: seq<string>, more: seq<string>)
    requires ShouldEnhanceIssue(Some(labels))
    ensures ShouldEnhanceIssue(Some(labels + more))
  {
    var ls := labels + more;
    assert labels == ls[..|labels|];
    if AI_ENHANCE in labels {
      var i :| 0 <= i < |labels| && labels[i] == AI_ENHANCE;
      assert ls[i] == AI_ENHANCE;
    } else {
      var i :| 0 <= i < |labels| && labels[i] == AUTO_GENERATE;
      assert ls[i] == AUTO_GENERATE;
    }
  }

  // ------------------------------------------------------------- category

  /** The keyword each category is recognised by, in the order tried. */
  const CATEGORY_KEYWORDS: seq<string> := ["devops", "analytics", "backend", "frontend", "infrastructure"]

  function LowerAll(labels: seq<string>): (r: seq<string>)
    ensures |r| == |labels|
    ensures forall i :: 0 <= i < |r| ==> r[i] == ToLower(labels[i])
  {
    if labels == [] then [] else [ToLower(labels[0])] + LowerAll(labels[1..])
  }

  /** The lowered summary contains the keyword, or a lowered label equals it. */
  predicate Hits(summary: string, labels: seq<string>, keyword: string) {
    Contains(summary, keyword) || keyword in labels
  }

  /** `determineCategory(issueDetails)`: the first category whose keyword
      the summary contains or a label equals, ignoring case; Backend when
      none does. */
  function DetermineCategory(summary: string, labels: Option<seq<string>>): (r: string)
    ensures r in CATEGORIES
  {
    var s := ToLower(summary);
    var ls := LowerAll(labels.GetOr([]));
    if Hits(s, ls, "devops") then DEVOPS
    else if Hits(s, ls, "analytics") then ANALYTICS
    else if Hits(s, ls, "backend") then BACKEND
    else if Hits(s, ls, "frontend") then FRONTEND
    else if Hits(s, ls, "infrastructure") then INFRASTRUCTURE
    else BACKEND
  }

  /** The first keyword hit decides, in the order of `CATEGORY_KEYWORDS`. */
  lemma DetermineCategoryFirstHit(summary: string, labels: Option<seq<string>>, i: nat)
    requires i < |CATEGORY_KEYWORDS|
    requires Hits(ToLower(summary), LowerAll(labels.GetOr([])), CATEGORY_KEYWORDS[i])
    requires forall j :: 0 <= j < i ==> !Hits(ToLower(summary), LowerAll(labels.GetOr([])), CATEGORY_KEYWORDS[j])
    ensures DetermineCategory(summary, labels) == CATEGORIES[i]
  {
    var s, ls := ToLower(summary), LowerAll(labels.GetOr([]));
    if i > 0 { assert !Hits(s, ls, CATEGORY_KEYWORDS[0]); }
    if i > 1 { assert !Hits(s, ls, CATEGORY_KEYWORDS[1]); }
    if i > 2 { assert !Hits(s, ls, CATEGORY_KEYWORDS[2]); }
    if i > 3 { assert !Hits(s, ls, CATEGORY_KEYWORDS[3]); }
  }

  /** With no keyword anywhere, the issue is Backend. */
  lemma DetermineCategoryDefault(summary: string, labels: Option<seq<string>>)
    requires forall j :: 0 <= j < |CATEGORY_KEYWORDS| ==> !Hits(ToLower(summary), LowerAll(labels.GetOr([])), CATEGORY_KEYWORDS[j])
    ensures DetermineCategory(summary, labels) == BACKEND
  {
    var s, ls := ToLower(summary), LowerAll(labels.GetOr([]));
    assert !Hits(s, ls, CATEGORY_KEYWORDS[0]) && !Hits(s, ls, CATEGORY_KEYWORDS[1]);
    assert !Hits(s, ls, CATEGORY_KEYWORDS[2]) && !Hits(s, ls, CATEGORY_KEYWORDS[3]);
    assert !Hits(s, ls, CATEGORY_KEYWORDS[4]);
  }

  /** A label matches whatever its case: `DevOps` files an issue under
      DevOps, ahead of any later keyword in the summary. */
  lemma LabelCaseIgnored(summary: string)
    ensures DetermineCategory(summary, Some(["DevOps"])) == DEVOPS
  {
    assert ToLower("DevOps") == "devops";
    assert LowerAll(["DevOps"]) == ["devops"];
  }

  // ------------------------------------------------------ written-back issue

  /** The labels written back: the issue's own, then the generated ones. */
  function EnhancedLabels(original: Option<seq<string>>, generated: seq<string>): (r: seq<string>)
    ensures |r| == |original.GetOr([])| + |generated|
    ensures r[..|original.GetOr([])|] == original.GetOr([])
    ensures r[|original.GetOr([])|..] == generated
  {
    original.GetOr([]) + generated
  }

  /** Enhancing twice keeps the first round's labels in front. */
  lemma EnhancedLabelsTwice(original: Option<seq<string>>, first: seq<string>, second: seq<string>)
    ensures EnhancedLabels(Some(EnhancedLabels(original, first)), second)
            == EnhancedLabels(original, first + second)
  {
  }

  /** The summary of a cloned issue: `[category] sourceSummary`. */
  function CloneSummary(category: string, sourceSummary: string): string {
    "[" + category + "] " + sourceSummary
  }

  datatype Tagged = Tagged(category: string, summary: string)

  /** Reads a cloned summary back: the text between the opening bracket
      and the first `] `, and what follows it. */
  function ParseCloneSummary(s: string): (r: Option<Tagged>)
    ensures r.Some? ==> CloneSummary(r.value.category, r.value.summary) == s
  {
    if !StartsWith(s, "[") then None
    else match IndexOf(s, "] ")
      case None => None
      case Some(j) =>
        IndexOfFromLeftmost(s, "] ", 0);
        if j < 1 then None
        else
          assert s == s[..1] + s[1..j] + s[j..j + 2] + s[j + 2..];
          Some(Tagged(s[1..j], s[j + 2..]))
  }

  /** A category without `]` is recovered from the clone's summary. */
  lemma CloneSummaryRoundTrip(category: string, sourceSummary: string)
    requires ']' !in category
    ensures ParseCloneSummary(CloneSummary(category, sourceSummary)) == Some(Tagged(category, sourceSummary))
  {
    var s := CloneSummary(category, sourceSummary);
    var k := |category| + 1;
    assert s[k..k + 2] == "] ";
    assert OccursAt(s, "] ", k);
    IndexOfFromLeftmost(s, "] ", 0);
    forall j | 0 <= j < k ensures !OccursAt(s, "] ", j) {
      assert s[j..j + 2][0] == s[j];
      if j > 0 {
        assert s[j] == category[j - 1] && category[j - 1] in category;
      }
    }
    assert IndexOf(s, "] ") == Some(k);
    assert s[1..k] == category;
    assert s[k + 2..] == sourceSummary;
  }

  /** Every category the plugin chooses survives the round trip. */
  lemma ChosenCategoryRoundTrip(summary: string, labels: Option<seq<string>>, sourceSummary: string)
    ensures var c := DetermineCategory(summary, labels);
            ParseCloneSummary(CloneSummary(c, sourceSummary)) == Some(Tagged(c, sourceSummary))
  {
    var c := DetermineCategory(summary, labels);
    assert ']' !in c;
    CloneSummaryRoundTrip(c, sourceSummary);
  }

  /** The fields `cloneTask` gives the new issue. */
  datatype ClonedIssue = ClonedIssue(summary: string, description: string, labels: seq<string>, issueType: string)

  function CloneTask(sourceSummary: string, sourceLabels: Option<seq<string>>, generatedDescription: string,
                     generatedLabels: seq<string>, issueType: Option<string>): (r: ClonedIssue)
    ensures StartsWith(r.summary, "[" + DetermineCategory(sourceSummary, sourceLabels) + "] ")
    ensures ParseCloneSummary(r.summary) == Some(Tagged(DetermineCategory(sourceSummary, sourceLabels), sourceSummary))
    ensures r.description == generatedDescription
    ensures r.labels == EnhancedLabels(sourceLabels, generatedLabels)
    ensures sourceLabels.GetOr([]) <= r.labels
    ensures Truthy(issueType) ==> r.issueType == issueType.value
    ensures !Truthy(issueType) ==> r.issueType == "Task"
    ensures r.issueType != ""
  {
    var category := DetermineCategory(sourceSummary, sourceLabels);
    var summary := CloneSummary(category, sourceSummary);
    assert summary == ("[" + category + "] ") + sourceSummary;
    ChosenCategoryRoundTrip(sourceSummary, sourceLabels, sourceSummary);
    ClonedIssue(summary, generatedDescription,
                EnhancedLabels(sourceLabels, generatedLabels), OrElse(issueType, "Task"))
  }
}
