/** The historical-task analyzer: categorizes processed Jira issues, scores
    their quality, aggregates a batch into counters and quality buckets, and
    synthesizes one task template per category from the high-quality issues. */
module History {
  import opened Wrappers
  import opened Text
  import opened Seqs
  import opened Order
  import opened Counter
  import opened Categories

  /** Substrings looked for in the lowercased summary and description. */
  const TEXT_KEYWORDS: seq<seq<string>> := [
    ["devops", "ci/cd", "deploy", "monitoring"],
    ["analytics", "dashboard", "metrics", "report"],
    ["backend", "api", "server", "database"],
    ["frontend", "ui", "ux", "interface"],
    ["infrastructure", "system", "security"]]

  /** Exact lowercased labels. */
  const LABEL_KEYWORDS: seq<seq<string>> := [
    ["devops", "ci-cd", "deployment", "monitoring"],
    ["analytics", "dashboard", "metrics", "reporting"],
    ["backend", "api", "server", "database"],
    ["frontend", "ui", "ux", "interface"],
    ["infrastructure", "system", "security"]]

  /** Placeholder assignee of an issue with no assignee display name. */
  const UNASSIGNED := "Не назначен"

  const STRUCTURE_MARKERS: seq<string> := [
    "цель:", "goal:", "задача:", "task:", "критерии:", "criteria:",
    "требования:", "requirements:", "шаги:", "steps:", "результат:", "result:"]

  const CRITERIA_MARKERS: seq<string> := [
    "критерии готовности", "acceptance criteria", "критерии приемки",
    "definition of done", "готово когда", "done when"]

  const TECHNICAL_MARKERS: seq<string> := [
    "api", "database", "server", "config", "технические", "technical",
    "архитектура", "architecture", "performance", "производительность"]

  /** The fields of a Jira issue the analyzer reads; `None` is a missing
      (null or absent) field. */
  datatype Issue = Issue(
    key: string,
    summary: string,
    description: Option<string>,
    status: string,
    priority: string,
    labels: Option<seq<string>>,
    assigneeName: Option<string>,
    issueType: string)

  datatype Quality = Quality(
    hasDescription: bool,
    descriptionLength: nat,
    hasLabels: bool,
    labelCount: nat,
    summaryLength: nat,
    isWellStructured: bool,
    hasAcceptanceCriteria: bool,
    hasTechnicalDetails: bool,
    qualityScore: nat)

  /** A processed historical task. */
  datatype Task = Task(
    key: string,
    summary: string,
    description: Option<string>,
    status: string,
    priority: string,
    labels: seq<string>,
    assignee: string,
    issueType: string,
    url: string,
    category: string,
    quality: Quality)

  /** `description || ''`. */
  function DescriptionText(d: Option<string>): string {
    match d
    case Some(s) => s
    case None => ""
  }

  /** `labels || []`. */
  function LabelList(l: Option<seq<string>>): seq<string> {
    match l
    case Some(ls) => ls
    case None => []
  }

  // ---------------------------------------------------------------- category

  /** The text the category rules search. */
  function CategoryText(issue: Issue): string {
    ToLower(ToLower(issue.summary) + " " + ToLower(DescriptionText(issue.description)))
  }

  function LowerLabels(issue: Issue): seq<string> {
    Map(LabelList(issue.labels), ToLower)
  }

  predicate TextRule(issue: Issue, g: int)
    requires 0 <= g < 5
  {
    ContainsAny(CategoryText(issue), TEXT_KEYWORDS[g])
  }

  predicate LabelRule(issue: Issue, g: int)
    requires 0 <= g < 5
  {
    SomeLabelIn(LowerLabels(issue), LABEL_KEYWORDS[g])
  }

  function DetermineCategoryFromTask(issue: Issue): (r: string)
    ensures r in CATEGORIES
  {
    if TextRule(issue, 0) then DEVOPS
    else if TextRule(issue, 1) then ANALYTICS
    else if TextRule(issue, 2) then BACKEND
    else if TextRule(issue, 3) then FRONTEND
    else if TextRule(issue, 4) then INFRASTRUCTURE
    else if LabelRule(issue, 0) then DEVOPS
    else if LabelRule(issue, 1) then ANALYTICS
    else if LabelRule(issue, 2) then BACKEND
    else if LabelRule(issue, 3) then FRONTEND
    else if LabelRule(issue, 4) then INFRASTRUCTURE
    else BACKEND
  }

  /** The first keyword group found in the text decides, whatever the labels say. */
  lemma CategoryByText(issue: Issue, g: int)
    requires 0 <= g < 5 && TextRule(issue, g)
    requires forall h :: 0 <= h < g ==> !TextRule(issue, h)
    ensures DetermineCategoryFromTask(issue) == CATEGORIES[g]
  {
    if g > 0 { assert !TextRule(issue, 0); }
    if g > 1 { assert !TextRule(issue, 1); }
    if g > 2 { assert !TextRule(issue, 2); }
    if g > 3 { assert !TextRule(issue, 3); }
  }

  /** With no text hit, the first label group with an exact match decides. */
  lemma CategoryByLabel(issue: Issue, g: int)
    requires forall h :: 0 <= h < 5 ==> !TextRule(issue, h)
    requires 0 <= g < 5 && LabelRule(issue, g)
    requires forall h :: 0 <= h < g ==> !LabelRule(issue, h)
    ensures DetermineCategoryFromTask(issue) == CATEGORIES[g]
  {
    assert !TextRule(issue, 0) && !TextRule(issue, 1) && !TextRule(issue, 2);
    assert !TextRule(issue, 3) && !TextRule(issue, 4);
    if g > 0 { assert !LabelRule(issue, 0); }
    if g > 1 { assert !LabelRule(issue, 1); }
    if g > 2 { assert !LabelRule(issue, 2); }
    if g > 3 { assert !LabelRule(issue, 3); }
  }

  /** With no hit at all the category is Backend. */
  lemma CategoryDefault(issue: Issue)
    requires forall h :: 0 <= h < 5 ==> !TextRule(issue, h) && !LabelRule(issue, h)
    ensures DetermineCategoryFromTask(issue) == BACKEND
  {
    assert !TextRule(issue, 0) && !TextRule(issue, 1) && !TextRule(issue, 2);
    assert !TextRule(issue, 3) && !TextRule(issue, 4);
    assert !LabelRule(issue, 0) && !LabelRule(issue, 1) && !LabelRule(issue, 2);
    assert !LabelRule(issue, 3) && !LabelRule(issue, 4);
  }

  // ----------------------------------------------------------------- quality

  predicate IsWellStructured(description: string) {
    ContainsAny(ToLower(description), STRUCTURE_MARKERS)
  }

  predicate HasAcceptanceCriteria(description: string) {
    ContainsAny(ToLower(description), CRITERIA_MARKERS)
  }

  predicate HasTechnicalDetails(description: string) {
    ContainsAny(ToLower(description), TECHNICAL_MARKERS)
  }

  /** The three description checks ignore letter case. */
  lemma MarkersIgnoreCase(description: string)
    ensures IsWellStructured(ToLower(description)) == IsWellStructured(description)
    ensures HasAcceptanceCriteria(ToLower(description)) == HasAcceptanceCriteria(description)
    ensures HasTechnicalDetails(ToLower(description)) == HasTechnicalDetails(description)
  {
    LowerIdempotent(description);
  }

  function Bonus(condition: bool, points: nat): nat {
    if condition then points else 0
  }

  /** The sum of the eight bonuses, before the cap at 100. */
  function Bonuses(description: string, labelCount: nat): nat {
    var length := Utf16Length(description);
    Bonus(length > 0, 20) + Bonus(length > 100, 10) + Bonus(length > 500, 10)
    + Bonus(labelCount > 0, 10) + Bonus(labelCount > 2, 10)
    + Bonus(IsWellStructured(description), 15) + Bonus(HasAcceptanceCriteria(description), 15)
    + Bonus(HasTechnicalDetails(description), 10)
  }

  /** `Math.min(score, 100)`. */
  function QualityScore(issue: Issue): (r: nat)
    ensures r <= 100
  {
    var b := Bonuses(DescriptionText(issue.description), |LabelList(issue.labels)|);
    if b < 100 then b else 100
  }

  method CalculateQualityScore(issue: Issue) returns (score: nat)
    ensures score == QualityScore(issue)
    ensures score == Bonuses(DescriptionText(issue.description), |LabelList(issue.labels)|)
  {
    score := 0;
    var description := DescriptionText(issue.description);
    var labels := LabelList(issue.labels);
    if Utf16Length(description) > 0 { score := score + 20; }
    if Utf16Length(description) > 100 { score := score + 10; }
    if Utf16Length(description) > 500 { score := score + 10; }
    if |labels| > 0 { score := score + 10; }
    if |labels| > 2 { score := score + 10; }
    if IsWellStructured(description) { score := score + 15; }
    if HasAcceptanceCriteria(description) { score := score + 15; }
    if HasTechnicalDetails(description) { score := score + 10; }
    score := if score < 100 then score else 100;
  }

  /** Lengths are JavaScript's UTF-16 `length`: a character outside the
      Basic Multilingual Plane counts twice, so one such character and 99
      others already earn the bonus for more than 100. */
  lemma WideCharacterCountsTwice(c: char, rest: string, labelCount: nat)
    requires Utf16Width(c) == 2 && |rest| == 99
    ensures Bonuses([c] + rest, labelCount) >= 30
  {
    var d := [c] + rest;
    assert d[1..] == rest;
    assert Utf16Length(d) == 2 + Utf16Length(rest);
  }

  /** The bonuses add up to at most 100, so the cap never changes the score. */
  lemma CapNeverBinds(issue: Issue)
    ensures QualityScore(issue) == Bonuses(DescriptionText(issue.description), |LabelList(issue.labels)|)
  {
  }

  /** Without a description only the label bonuses can be earned. */
  lemma NoDescriptionScoresLow(issue: Issue)
    requires DescriptionText(issue.description) == ""
    ensures QualityScore(issue) <= 20
  {
    assert !IsWellStructured("") by { NothingInEmpty(STRUCTURE_MARKERS); }
    assert !HasAcceptanceCriteria("") by { NothingInEmpty(CRITERIA_MARKERS); }
    assert !HasTechnicalDetails("") by { NothingInEmpty(TECHNICAL_MARKERS); }
  }

  lemma NothingInEmpty(keys: seq<string>)
    requires forall i :: 0 <= i < |keys| ==> |keys[i]| > 0
    ensures !ContainsAny(ToLower(""), keys)
  {
    forall i | 0 <= i < |keys| ensures !Contains(ToLower(""), keys[i]) {
      NotContainsShort(ToLower(""), keys[i]);
    }
  }

  function AnalyzeTaskQuality(issue: Issue): (r: Quality)
    ensures r.hasDescription <==> r.descriptionLength > 0
    ensures r.hasLabels <==> r.labelCount > 0
    ensures r.qualityScore <= 100
    ensures r.qualityScore > 20 ==> r.hasDescription
  {
    var description := DescriptionText(issue.description);
    var labels := LabelList(issue.labels);
    if description == "" then NoDescriptionScoresLow(issue); Quality(false, 0, |labels| > 0, |labels|, Utf16Length(issue.summary),
      IsWellStructured(description), HasAcceptanceCriteria(description), HasTechnicalDetails(description),
      QualityScore(issue))
    else Quality(true, Utf16Length(description), |labels| > 0, |labels|, Utf16Length(issue.summary),
      IsWellStructured(description), HasAcceptanceCriteria(description), HasTechnicalDetails(description),
      QualityScore(issue))
  }

  /** `processHistoricalTask`; `baseUrl` is the configured Jira address. */
  function ProcessHistoricalTask(baseUrl: string, issue: Issue): (r: Task)
    ensures r.category in CATEGORIES
    ensures r.quality.qualityScore > 20 ==> r.description.Some? && r.description.value != ""
    ensures r.assignee != UNASSIGNED ==> issue.assigneeName == Some(r.assignee)
  {
    var assignee := match issue.assigneeName
      case Some(n) => if n != "" then n else UNASSIGNED
      case None => UNASSIGNED;
    Task(issue.key, issue.summary, issue.description, issue.status, issue.priority,
      LabelList(issue.labels), assignee, issue.issueType, baseUrl + "/browse/" + issue.key,
      DetermineCategoryFromTask(issue), AnalyzeTaskQuality(issue))
  }

  // ---------------------------------------------------------------- patterns

  function CategoryOf(t: Task): string { t.category }
  function PriorityOf(t: Task): string { t.priority }
  function AssigneeOf(t: Task): string { t.assignee }
  function LabelsOf(t: Task): seq<string> { t.labels }

  predicate IsAssigned(a: string) { a != UNASSIGNED }

  predicate IsHigh(t: Task) { t.quality.qualityScore >= 80 }
  predicate IsMedium(t: Task) { 60 <= t.quality.qualityScore < 80 }
  predicate IsLow(t: Task) { t.quality.qualityScore < 60 }

  /** Every label occurrence of every task, in order. */
  function AllLabels(tasks: seq<Task>): seq<string> {
    Flatten(Map(tasks, LabelsOf))
  }

  function AssignedOf(tasks: seq<Task>): seq<string> {
    Filter(Map(tasks, AssigneeOf), IsAssigned)
  }

  datatype Patterns = Patterns(
    categories: Tally,
    priorities: Tally,
    labels: Tally,
    assignees: Tally,
    high: seq<Task>,
    medium: seq<Task>,
    low: seq<Task>)

  /** The counters after `counts[k] = (counts[k] || 0) + 1` for each item, in order. */
  const NO_PATTERNS := Patterns([], [], [], [], [], [], [])

  /** One step of the `forEach` in `analyzePatterns`. */
  function AddTask(p: Patterns, task: Task): Patterns {
    var assignees := if task.assignee != UNASSIGNED then Bump(p.assignees, task.assignee) else p.assignees;
    var score := task.quality.qualityScore;
    Patterns(
      Bump(p.categories, task.category),
      Bump(p.priorities, task.priority),
      BumpAll(p.labels, task.labels),
      assignees,
      if score >= 80 then p.high + [task] else p.high,
      if score < 80 && score >= 60 then p.medium + [task] else p.medium,
      if score < 60 then p.low + [task] else p.low)
  }

  function PatternsOf(tasks: seq<Task>): Patterns {
    if tasks == [] then NO_PATTERNS else AddTask(PatternsOf(tasks[..|tasks| - 1]), tasks[|tasks| - 1])
  }

  method AnalyzePatterns(tasks: seq<Task>) returns (p: Patterns)
    ensures p == PatternsOf(tasks)
    ensures p.categories == TallyOf(Map(tasks, CategoryOf))
    ensures p.priorities == TallyOf(Map(tasks, PriorityOf))
    ensures p.labels == TallyOf(AllLabels(tasks))
    ensures p.assignees == TallyOf(AssignedOf(tasks))
    ensures p.high == Filter(tasks, IsHigh)
    ensures p.medium == Filter(tasks, IsMedium)
    ensures p.low == Filter(tasks, IsLow)
  {
    var categories, priorities, labels, assignees := [], [], [], [];
    var high, medium, low := [], [], [];
    var i := 0;
    while i < |tasks|
      invariant 0 <= i <= |tasks|
      invariant Patterns(categories, priorities, labels, assignees, high, medium, low) == PatternsOf(tasks[..i])
    {
      var task := tasks[i];
      assert tasks[..i + 1][..i] == tasks[..i];
      assert PatternsOf(tasks[..i + 1]) == AddTask(PatternsOf(tasks[..i]), task);
      categories := Bump(categories, task.category);
      priorities := Bump(priorities, task.priority);
      labels := CountAll(labels, task.labels);
      if task.assignee != UNASSIGNED {
        assignees := Bump(assignees, task.assignee);
      }
      if task.quality.qualityScore >= 80 {
        high := high + [task];
      } else if task.quality.qualityScore >= 60 {
        medium := medium + [task];
      } else {
        low := low + [task];
      }
      i := i + 1;
    }
    assert tasks[..i] == tasks;
    p := Patterns(categories, priorities, labels, assignees, high, medium, low);
    PatternsOfCounters(tasks);
    PatternsOfBuckets(tasks);
  }

  lemma AllLabelsSnoc(tasks: seq<Task>, task: Task)
    ensures AllLabels(tasks + [task]) == AllLabels(tasks) + task.labels
  {
    MapSnoc(tasks, task, LabelsOf);
    FlattenSnoc(Map(tasks, LabelsOf), task.labels);
  }

  lemma AssignedSnoc(tasks: seq<Task>, task: Task)
    ensures AssignedOf(tasks + [task])
            == AssignedOf(tasks) + (if task.assignee != UNASSIGNED then [task.assignee] else [])
  {
    MapSnoc(tasks, task, AssigneeOf);
    FilterSnoc(Map(tasks, AssigneeOf), task.assignee, IsAssigned);
  }

  /** The four counters of `analyzePatterns` count categories, priorities,
      label occurrences and real assignees. */
  lemma PatternsOfCounters(tasks: seq<Task>)
    ensures PatternsOf(tasks).categories == TallyOf(Map(tasks, CategoryOf))
    ensures PatternsOf(tasks).priorities == TallyOf(Map(tasks, PriorityOf))
    ensures PatternsOf(tasks).labels == TallyOf(AllLabels(tasks))
    ensures PatternsOf(tasks).assignees == TallyOf(AssignedOf(tasks))
  {
    CategoriesCounted(tasks);
    PrioritiesCounted(tasks);
    LabelsCounted(tasks);
    AssigneesCounted(tasks);
  }

  lemma {:induction false} CategoriesCounted(tasks: seq<Task>)
    ensures PatternsOf(tasks).categories == TallyOf(Map(tasks, CategoryOf))
  {
    if tasks != [] {
      var init, task := tasks[..|tasks| - 1], tasks[|tasks| - 1];
      CategoriesCounted(init);
      TallySnoc(Map(init, CategoryOf), task.category);
    }
  }

  lemma {:induction false} PrioritiesCounted(tasks: seq<Task>)
    ensures PatternsOf(tasks).priorities == TallyOf(Map(tasks, PriorityOf))
  {
    if tasks != [] {
      var init, task := tasks[..|tasks| - 1], tasks[|tasks| - 1];
      PrioritiesCounted(init);
      TallySnoc(Map(init, PriorityOf), task.priority);
    }
  }

  lemma {:induction false} LabelsCounted(tasks: seq<Task>)
    ensures PatternsOf(tasks).labels == TallyOf(AllLabels(tasks))
  {
    if tasks != [] {
      var init, task := tasks[..|tasks| - 1], tasks[|tasks| - 1];
      LabelsCounted(init);
      FlattenSnoc(Map(init, LabelsOf), task.labels);
      BumpAllTally(AllLabels(init), task.labels);
    }
  }

  lemma {:induction false} AssigneesCounted(tasks: seq<Task>)
    ensures PatternsOf(tasks).assignees == TallyOf(AssignedOf(tasks))
  {
    if tasks != [] {
      var init, task := tasks[..|tasks| - 1], tasks[|tasks| - 1];
      AssigneesCounted(init);
      FilterSnoc(Map(init, AssigneeOf), task.assignee, IsAssigned);
      if task.assignee != UNASSIGNED {
        TallySnoc(AssignedOf(init), task.assignee);
      } else {
        assert AssignedOf(init) + [] == AssignedOf(init);
      }
    }
  }

  /** The buckets hold the tasks scoring at least 80, from 60 to 79 and
      below 60, each in input order. */
  lemma {:induction false} PatternsOfBuckets(tasks: seq<Task>)
    ensures PatternsOf(tasks).high == Filter(tasks, IsHigh)
    ensures PatternsOf(tasks).medium == Filter(tasks, IsMedium)
    ensures PatternsOf(tasks).low == Filter(tasks, IsLow)
  {
    if tasks != [] {
      var init, task := tasks[..|tasks| - 1], tasks[|tasks| - 1];
      PatternsOfBuckets(init);
    }
  }

  /** Category and priority counts each add up to the number of tasks. */
  lemma PatternTotals(tasks: seq<Task>)
    ensures Total(TallyOf(Map(tasks, CategoryOf))) == |tasks|
    ensures Total(TallyOf(Map(tasks, PriorityOf))) == |tasks|
    ensures Total(TallyOf(AllLabels(tasks))) == SumLengths(Map(tasks, LabelsOf))
  {
    TallyTotal(Map(tasks, CategoryOf));
    TallyTotal(Map(tasks, PriorityOf));
    TallyTotal(AllLabels(tasks));
    FlattenLength(Map(tasks, LabelsOf));
  }

  /** The placeholder assignee is never counted. */
  lemma UnassignedNotCounted(tasks: seq<Task>)
    ensures Get(TallyOf(AssignedOf(tasks)), UNASSIGNED) == 0
  {
    TallyCounts(AssignedOf(tasks), UNASSIGNED);
    FilterIn(Map(tasks, AssigneeOf), IsAssigned, UNASSIGNED);
  }

  /** The three quality buckets split the tasks. */
  lemma BucketsPartition(tasks: seq<Task>)
    ensures |Filter(tasks, IsHigh)| + |Filter(tasks, IsMedium)| + |Filter(tasks, IsLow)| == |tasks|
    ensures multiset(Filter(tasks, IsHigh)) + multiset(Filter(tasks, IsMedium))
            + multiset(Filter(tasks, IsLow)) == multiset(tasks)
  {
    FilterPartition(tasks, IsHigh, IsMedium, IsLow);
    var h, m, l := Filter(tasks, IsHigh), Filter(tasks, IsMedium), Filter(tasks, IsLow);
    assert |multiset(h) + multiset(m) + multiset(l)| == |h| + |m| + |l|;
  }

  // ------------------------------------------------------- common attributes

  /** Entries counted in at least half of `n` tasks (`count >= n * 0.5`). */
  function AtLeastHalf(t: Tally, n: nat): (r: Tally)
    ensures forall e :: e in r <==> e in t && 2 * e.count >= n
    ensures multiset(r) <= multiset(t)
  {
    if t == [] then []
    else
      var init, last := t[..|t| - 1], t[|t| - 1];
      assert t == init + [last];
      AtLeastHalf(init, n) + (if 2 * last.count >= n then [last] else [])
  }

  function CommonLabels(tasks: seq<Task>): seq<string> {
    Keys(SortDesc(AtLeastHalf(TallyOf(AllLabels(tasks)), |tasks|), CountOf))
  }

  method GetCommonLabels(tasks: seq<Task>) returns (r: seq<string>)
    ensures r == CommonLabels(tasks)
  {
    var counts := [];
    var i := 0;
    while i < |tasks|
      invariant 0 <= i <= |tasks|
      invariant counts == TallyOf(AllLabels(tasks[..i]))
    {
      counts := CountAll(counts, tasks[i].labels);
      assert tasks[..i + 1][..i] == tasks[..i];
      FlattenSnoc(Map(tasks[..i], LabelsOf), tasks[i].labels);
      BumpAllTally(AllLabels(tasks[..i]), tasks[i].labels);
      i := i + 1;
    }
    assert tasks[..i] == tasks;
    var kept := AtLeastHalf(counts, |tasks|);
    r := Keys(SortDesc(kept, CountOf));
  }

  /** A key survives the cut and the sort exactly when its count reaches half of `n`. */
  lemma KeptKeys(t: Tally, n: nat, k: string)
    requires WellFormed(t)
    ensures k in Keys(SortDesc(AtLeastHalf(t, n), CountOf)) <==> k in Keys(t) && 2 * Get(t, k) >= n
  {
    if k in Keys(t) && 2 * Get(t, k) >= n {
      KeptKeysIf(t, n, k);
    }
    if k in Keys(SortDesc(AtLeastHalf(t, n), CountOf)) {
      KeptKeysOnlyIf(t, n, k);
    }
  }

  lemma KeptKeysIf(t: Tally, n: nat, k: string)
    requires WellFormed(t) && k in Keys(t) && 2 * Get(t, k) >= n
    ensures k in Keys(SortDesc(AtLeastHalf(t, n), CountOf))
  {
    var kept := AtLeastHalf(t, n);
    var s := SortDesc(kept, CountOf);
    var j :| 0 <= j < |t| && Keys(t)[j] == k;
    GetAt(t, j);
    var e := t[j];
    assert e in kept;
    assert e in multiset(s) by {
      assert multiset(s) == multiset(kept);
    }
    KeyOfMember(s, e);
  }

  lemma KeyOfMember(s: Tally, e: Entry)
    requires e in multiset(s)
    ensures e.key in Keys(s)
  {
    var i :| 0 <= i < |s| && s[i] == e;
    assert Keys(s)[i] == e.key;
  }

  lemma KeptKeysOnlyIf(t: Tally, n: nat, k: string)
    requires WellFormed(t) && k in Keys(SortDesc(AtLeastHalf(t, n), CountOf))
    ensures k in Keys(t) && 2 * Get(t, k) >= n
  {
    var kept := AtLeastHalf(t, n);
    var s := SortDesc(kept, CountOf);
    var i :| 0 <= i < |s| && Keys(s)[i] == k;
    assert s[i] in multiset(kept);
    var j :| 0 <= j < |t| && t[j] == s[i];
    assert Keys(t)[j] == k;
    GetAt(t, j);
  }

  /** A label is common exactly when it occurs in at least half as many
      places as there are tasks. */
  lemma CommonLabelsMembers(tasks: seq<Task>, name: string)
    ensures name in CommonLabels(tasks) <==>
              name in AllLabels(tasks) && 2 * multiset(AllLabels(tasks))[name] >= |tasks|
  {
    var xs := AllLabels(tasks);
    TallyKeySet(xs);
    TallyWellFormed(xs);
    TallyCounts(xs, name);
    KeptKeys(TallyOf(xs), |tasks|, name);
  }

  /** Common labels come by non-increasing count. */
  lemma CommonLabelsOrdered(tasks: seq<Task>)
    ensures var s := SortDesc(AtLeastHalf(TallyOf(AllLabels(tasks)), |tasks|), CountOf);
            Keys(s) == CommonLabels(tasks) && Descending(s, CountOf)
  {
  }

  /** Equally frequent common labels keep the order of the counter, which is
      the order in which they first occur. */
  lemma CommonLabelsTies(tasks: seq<Task>, c: int)
    ensures var kept := AtLeastHalf(TallyOf(AllLabels(tasks)), |tasks|);
            WithKey(SortDesc(kept, CountOf), CountOf, c) == WithKey(kept, CountOf, c)
  {
    SortStable(AtLeastHalf(TallyOf(AllLabels(tasks)), |tasks|), CountOf, c);
  }

  method GetCommonPriority(tasks: seq<Task>) returns (r: Option<string>)
    ensures r == Mode(TallyOf(Map(tasks, PriorityOf)))
  {
    var counts := [];
    var i := 0;
    while i < |tasks|
      invariant 0 <= i <= |tasks|
      invariant counts == TallyOf(Map(tasks[..i], PriorityOf))
    {
      assert tasks[..i + 1][..i] == tasks[..i];
      TallySnoc(Map(tasks[..i], PriorityOf), tasks[i].priority);
      counts := Bump(counts, tasks[i].priority);
      i := i + 1;
    }
    assert tasks[..i] == tasks;
    r := Mode(counts);
  }

  /** The common priority is a most frequent one, the first seen among equals;
      there is none only for an empty list. */
  lemma CommonPriorityIsMode(tasks: seq<Task>, q: string)
    ensures Mode(TallyOf(Map(tasks, PriorityOf))).None? <==> tasks == []
    ensures tasks != [] ==>
              var ps := Map(tasks, PriorityOf);
              var m := Mode(TallyOf(ps)).value;
              m in ps && multiset(ps)[q] <= multiset(ps)[m]
              && (multiset(ps)[q] == multiset(ps)[m] ==> FirstIndex(ps, m) <= FirstIndex(ps, q))
  {
    var ps := Map(tasks, PriorityOf);
    if tasks != [] {
      ModeOfItems(ps, q);
    } else {
      assert ps == [];
    }
  }

  /** `commonAssignee || 'auto-assign'`. */
  function AssigneeRule(m: Option<string>): string {
    match m
    case Some(a) => if a != "" then a else "auto-assign"
    case None => "auto-assign"
  }

  lemma AssignedStep(tasks: seq<Task>, i: int)
    requires 0 <= i < |tasks|
    ensures tasks[i].assignee != UNASSIGNED ==>
              AssignedOf(tasks[..i + 1]) == AssignedOf(tasks[..i]) + [tasks[i].assignee]
    ensures tasks[i].assignee == UNASSIGNED ==> AssignedOf(tasks[..i + 1]) == AssignedOf(tasks[..i])
  {
    assert tasks[..i + 1][..i] == tasks[..i];
    FilterSnoc(Map(tasks[..i], AssigneeOf), tasks[i].assignee, IsAssigned);
    assert AssignedOf(tasks[..i]) + [] == AssignedOf(tasks[..i]);
  }

  method GetCommonAssignee(tasks: seq<Task>) returns (r: string)
    ensures r == AssigneeRule(Mode(TallyOf(AssignedOf(tasks))))
  {
    var counts := [];
    var i := 0;
    while i < |tasks|
      invariant 0 <= i <= |tasks|
      invariant counts == TallyOf(AssignedOf(tasks[..i]))
    {
      AssignedStep(tasks, i);
      if tasks[i].assignee != UNASSIGNED {
        TallySnoc(AssignedOf(tasks[..i]), tasks[i].assignee);
        counts := Bump(counts, tasks[i].assignee);
      }
      i := i + 1;
    }
    assert tasks[..i] == tasks;
    r := AssigneeRule(Mode(counts));
  }

  /** With nobody assigned the rule is 'auto-assign'; otherwise it is the
      most frequent real assignee (first seen among equals). */
  lemma CommonAssigneeRule(tasks: seq<Task>, a: string)
    ensures (forall i :: 0 <= i < |tasks| ==> tasks[i].assignee == UNASSIGNED) ==>
              AssigneeRule(Mode(TallyOf(AssignedOf(tasks)))) == "auto-assign"
    ensures AssignedOf(tasks) != [] ==>
              var xs := AssignedOf(tasks);
              var m := Mode(TallyOf(xs)).value;
              m != UNASSIGNED && multiset(xs)[a] <= multiset(xs)[m]
  {
    var xs := AssignedOf(tasks);
    if forall i :: 0 <= i < |tasks| ==> tasks[i].assignee == UNASSIGNED {
      if xs != [] {
        FilterIn(Map(tasks, AssigneeOf), IsAssigned, xs[0]);
        assert xs[0] in xs;
      }
    }
    if xs != [] {
      ModeOfItems(xs, a);
      FilterIn(Map(tasks, AssigneeOf), IsAssigned, Mode(TallyOf(xs)).value);
    }
  }

  // ------------------------------------------------------ description layout

  /** Which sections a description has, and every section hit in line order. */
  datatype Structure = Structure(
    hasGoal: bool,
    hasTasks: bool,
    hasCriteria: bool,
    hasTechnical: bool,
    sections: seq<string>)

  datatype CommonStructure = CommonStructure(
    hasGoal: bool,
    hasTasks: bool,
    hasCriteria: bool,
    hasTechnical: bool)

  predicate GoalLine(lower: string) { Contains(lower, "цель") || Contains(lower, "goal") }
  predicate TasksLine(lower: string) {
    Contains(lower, "задача") || Contains(lower, "task") || Contains(lower, "что нужно")
  }
  predicate CriteriaLine(lower: string) { Contains(lower, "критерии") || Contains(lower, "criteria") }
  predicate TechnicalLine(lower: string) { Contains(lower, "технические") || Contains(lower, "technical") }

  const NO_STRUCTURE := Structure(false, false, false, false, [])

  /** One step of the `lines.forEach`: the four tests, in order, on the lowercased line. */
  function AddLine(s: Structure, line: string): Structure {
    var lower := ToLower(line);
    Push(s, GoalLine(lower), TasksLine(lower), CriteriaLine(lower), TechnicalLine(lower))
  }

  /** Records the sections a line mentions, in the order goal, tasks, criteria, technical. */
  function Push(s: Structure, goal: bool, tasks: bool, criteria: bool, technical: bool): Structure {
    var s1 := if goal then s.(hasGoal := true, sections := s.sections + ["goal"]) else s;
    var s2 := if tasks then s1.(hasTasks := true, sections := s1.sections + ["tasks"]) else s1;
    var s3 := if criteria then s2.(hasCriteria := true, sections := s2.sections + ["criteria"]) else s2;
    if technical then s3.(hasTechnical := true, sections := s3.sections + ["technical"]) else s3
  }

  /** The structure of a list of lines, line by line. */
  function StructureOf(lines: seq<string>): Structure {
    if lines == [] then NO_STRUCTURE else AddLine(StructureOf(lines[..|lines| - 1]), lines[|lines| - 1])
  }

  method ExtractDescriptionStructure(description: string) returns (s: Structure)
    ensures s == StructureOf(Split(description, '\n'))
  {
    var lines := Split(description, '\n');
    s := NO_STRUCTURE;
    var i := 0;
    while i < |lines|
      invariant 0 <= i <= |lines|
      invariant s == StructureOf(lines[..i])
    {
      assert lines[..i + 1][..i] == lines[..i];
      var lowerLine := ToLower(lines[i]);
      if GoalLine(lowerLine) {
        s := s.(hasGoal := true, sections := s.sections + ["goal"]);
      }
      if TasksLine(lowerLine) {
        s := s.(hasTasks := true, sections := s.sections + ["tasks"]);
      }
      if CriteriaLine(lowerLine) {
        s := s.(hasCriteria := true, sections := s.sections + ["criteria"]);
      }
      if TechnicalLine(lowerLine) {
        s := s.(hasTechnical := true, sections := s.sections + ["technical"]);
      }
      i := i + 1;
    }
    assert lines[..i] == lines;
  }

  predicate FlagsAgree(s: Structure) {
    && (s.hasGoal <==> "goal" in s.sections)
    && (s.hasTasks <==> "tasks" in s.sections)
    && (s.hasCriteria <==> "criteria" in s.sections)
    && (s.hasTechnical <==> "technical" in s.sections)
  }

  lemma SectionNamesDistinct()
    ensures "goal" != "tasks" && "goal" != "criteria" && "goal" != "technical"
    ensures "tasks" != "criteria" && "tasks" != "technical" && "criteria" != "technical"
  {
    assert "goal"[0] != "tasks"[0] && "goal"[0] != "criteria"[0] && "goal"[0] != "technical"[0];
    assert "tasks"[0] != "criteria"[0] && "tasks"[1] != "technical"[1] && "criteria"[0] != "technical"[0];
  }

  lemma PushFlags(s: Structure, goal: bool, tasks: bool, criteria: bool, technical: bool)
    requires FlagsAgree(s)
    ensures FlagsAgree(Push(s, goal, tasks, criteria, technical))
  {
    SectionNamesDistinct();
  }

  /** A flag is set exactly when its section name was pushed. */
  lemma {:induction false} StructureFlags(lines: seq<string>)
    ensures FlagsAgree(StructureOf(lines))
  {
    if lines != [] {
      StructureFlags(lines[..|lines| - 1]);
      var lower := ToLower(lines[|lines| - 1]);
      PushFlags(StructureOf(lines[..|lines| - 1]),
        GoalLine(lower), TasksLine(lower), CriteriaLine(lower), TechnicalLine(lower));
    }
  }

  predicate MentionsGoal(line: string) { GoalLine(ToLower(line)) }

  lemma PushGoal(s: Structure, goal: bool, tasks: bool, criteria: bool, technical: bool)
    ensures Push(s, goal, tasks, criteria, technical).hasGoal == (s.hasGoal || goal)
  {
  }

  /** The goal flag is set exactly when some line mentions a goal. */
  lemma {:induction false} StructureGoal(lines: seq<string>)
    ensures StructureOf(lines).hasGoal <==> exists i :: 0 <= i < |lines| && MentionsGoal(lines[i])
  {
    if lines != [] {
      StructureGoal(lines[..|lines| - 1]);
      GoalStep(lines);
      ExistsSnoc(lines, lines[..|lines| - 1], lines[|lines| - 1], MentionsGoal);
    }
  }

  /** The last line adds the goal flag exactly when it mentions a goal. */
  lemma GoalStep(lines: seq<string>)
    requires lines != []
    ensures StructureOf(lines).hasGoal == (StructureOf(lines[..|lines| - 1]).hasGoal || MentionsGoal(lines[|lines| - 1]))
  {
    var lower := ToLower(lines[|lines| - 1]);
    PushGoal(StructureOf(lines[..|lines| - 1]), GoalLine(lower), TasksLine(lower), CriteriaLine(lower), TechnicalLine(lower));
  }

  predicate GoalFlag(s: Structure) { s.hasGoal }
  predicate TasksFlag(s: Structure) { s.hasTasks }
  predicate CriteriaFlag(s: Structure) { s.hasCriteria }
  predicate TechnicalFlag(s: Structure) { s.hasTechnical }

  /** `ss.filter(f).length > ss.length * 0.5`. */
  predicate Majority(ss: seq<Structure>, f: Structure -> bool) {
    2 * |Filter(ss, f)| > |ss|
  }

  function FindCommonStructure(ss: seq<Structure>): CommonStructure {
    CommonStructure(
      Majority(ss, GoalFlag), Majority(ss, TasksFlag),
      Majority(ss, CriteriaFlag), Majority(ss, TechnicalFlag))
  }

  /** A majority flag needs at least one structure with it, a unanimous one
      among a non-empty list is always a majority, and an exact half is not. */
  lemma MajorityBounds(ss: seq<Structure>, f: Structure -> bool)
    ensures Majority(ss, f) ==> exists i :: 0 <= i < |ss| && f(ss[i])
    ensures ss != [] && (forall i :: 0 <= i < |ss| ==> f(ss[i])) ==> Majority(ss, f)
    ensures 2 * |Filter(ss, f)| == |ss| ==> !Majority(ss, f)
  {
    if Majority(ss, f) {
      var r := Filter(ss, f);
      assert r[0] in r;
      FilterIn(ss, f, r[0]);
    }
    if forall i :: 0 <= i < |ss| ==> f(ss[i]) {
      FilterAll(ss, f);
    }
  }

  /** Fixed section texts of the description skeleton, each opened by its emoji. */
  const GOAL_SECTION := ['\U{1F3AF}'] + " **Цель:** {{goal}}\n\n"
  const TASKS_SECTION := ['\U{1F4CC}'] + " **Что нужно сделать:**\n\n{{tasks}}\n\n"
  const CRITERIA_SECTION := ['\U{2705}'] + " **Критерии готовности:**\n\n{{acceptance_criteria}}\n\n"
  const TECHNICAL_SECTION := ['\U{1F527}'] + " **Технические требования:**\n\n{{technical_requirements}}\n\n"
  const PRIORITY_LINE := ['\U{1F3F7}', '\U{FE0F}'] + " **Приоритет:** {{priority}}\n\n"
  const ASSIGNEE_LINE := ['\U{1F465}'] + " **Исполнитель:** {{assignee}}"

  /** The sections a common structure selects, in their fixed order. */
  function SelectedSections(c: CommonStructure): (r: seq<string>)
    ensures |r| == (if c.hasGoal then 1 else 0) + (if c.hasTasks then 1 else 0)
                   + (if c.hasCriteria then 1 else 0) + (if c.hasTechnical then 1 else 0)
  {
    (if c.hasGoal then [GOAL_SECTION] else [])
    + (if c.hasTasks then [TASKS_SECTION] else [])
    + (if c.hasCriteria then [CRITERIA_SECTION] else [])
    + (if c.hasTechnical then [TECHNICAL_SECTION] else [])
  }

  method BuildDescriptionTemplate(c: CommonStructure) returns (template: string)
    ensures template == Flatten(SelectedSections(c)) + PRIORITY_LINE + ASSIGNEE_LINE
  {
    ghost var g := if c.hasGoal then [GOAL_SECTION] else [];
    ghost var t := if c.hasTasks then [TASKS_SECTION] else [];
    ghost var a := if c.hasCriteria then [CRITERIA_SECTION] else [];
    ghost var h := if c.hasTechnical then [TECHNICAL_SECTION] else [];
    template := "";
    ghost var chosen: seq<string> := [];
    if c.hasGoal {
      FlattenSnoc(chosen, GOAL_SECTION);
      template := template + GOAL_SECTION;
      chosen := chosen + [GOAL_SECTION];
    }
    assert chosen == g && template == Flatten(chosen);
    if c.hasTasks {
      FlattenSnoc(chosen, TASKS_SECTION);
      template := template + TASKS_SECTION;
      chosen := chosen + [TASKS_SECTION];
    }
    assert chosen == g + t && template == Flatten(chosen);
    if c.hasCriteria {
      FlattenSnoc(chosen, CRITERIA_SECTION);
      template := template + CRITERIA_SECTION;
      chosen := chosen + [CRITERIA_SECTION];
    }
    assert chosen == g + t + a && template == Flatten(chosen);
    if c.hasTechnical {
      FlattenSnoc(chosen, TECHNICAL_SECTION);
      template := template + TECHNICAL_SECTION;
      chosen := chosen + [TECHNICAL_SECTION];
    }
    assert chosen == g + t + a + h == SelectedSections(c);
    template := template + PRIORITY_LINE;
    template := template + ASSIGNEE_LINE;
  }

  /** The skeleton always ends with the priority line and then the assignee
      line, and opens with the goal section exactly when goals are common. */
  lemma DescriptionTemplateShape(c: CommonStructure)
    ensures var t := Flatten(SelectedSections(c)) + PRIORITY_LINE + ASSIGNEE_LINE;
            EndsWith(t, PRIORITY_LINE + ASSIGNEE_LINE)
            && (t[0] == '\U{1F3AF}' <==> c.hasGoal)
  {
    var ss := SelectedSections(c);
    var t := Flatten(ss) + PRIORITY_LINE + ASSIGNEE_LINE;
    assert t == Flatten(ss) + (PRIORITY_LINE + ASSIGNEE_LINE);
    assert GOAL_SECTION[0] == '\U{1F3AF}' && TASKS_SECTION[0] == '\U{1F4CC}';
    assert CRITERIA_SECTION[0] == '\U{2705}' && TECHNICAL_SECTION[0] == '\U{1F527}';
    assert PRIORITY_LINE[0] == '\U{1F3F7}';
    if ss != [] {
      FlattenHead(ss);
      assert t[0] == ss[0][0];
      if c.hasGoal {
        assert ss[0] == GOAL_SECTION;
      } else {
        assert ss[0] in [TASKS_SECTION, CRITERIA_SECTION, TECHNICAL_SECTION];
      }
    } else {
      assert t[0] == PRIORITY_LINE[0];
    }
  }

  /** A section list flattens to a string starting with its first section. */
  lemma {:induction false} FlattenHead(ss: seq<string>)
    requires ss != [] && ss[0] != []
    ensures |Flatten(ss)| > 0 && Flatten(ss)[0] == ss[0][0]
  {
    if |ss| > 1 {
      FlattenHead(ss[..|ss| - 1]);
    } else {
      FlattenSnoc([], ss[0]);
      assert [] + [ss[0]] == ss;
    }
  }

  /** `createDescriptionTemplate`: descriptions of the given tasks must be strings. */
  method CreateDescriptionTemplate(tasks: seq<Task>) returns (template: string)
    requires forall i :: 0 <= i < |tasks| ==> tasks[i].description.Some?
    ensures template == Flatten(SelectedSections(FindCommonStructure(StructuresOf(tasks))))
                        + PRIORITY_LINE + ASSIGNEE_LINE
  {
    var structures: seq<Structure> := [];
    var i := 0;
    while i < |tasks|
      invariant 0 <= i <= |tasks|
      invariant structures == StructuresOf(tasks[..i])
    {
      var s := ExtractDescriptionStructure(tasks[i].description.value);
      assert tasks[..i + 1][..i] == tasks[..i];
      structures := structures + [s];
      i := i + 1;
    }
    assert tasks[..i] == tasks;
    var common := FindCommonStructure(structures);
    template := BuildDescriptionTemplate(common);
  }

  /** The structure of each task's description. */
  function StructuresOf(tasks: seq<Task>): seq<Structure> {
    if tasks == [] then []
    else StructuresOf(tasks[..|tasks| - 1])
         + [StructureOf(Split(DescriptionText(tasks[|tasks| - 1].description), '\n'))]
  }

  // ---------------------------------------------------------------- templates

  function ScoreOf(t: Task): int { t.quality.qualityScore }

  /** `Math.round(total / n)`; `None` stands for the `NaN` of an empty list. */
  function CalculateAverageQuality(tasks: seq<Task>): (r: Option<int>)
    ensures r.None? <==> tasks == []
    ensures r.Some? ==> var n, total := |tasks|, Sum(Map(tasks, ScoreOf));
              2 * n * r.value <= 2 * total + n < 2 * n * r.value + 2 * n
  {
    if tasks == [] then None
    else
      var n, total := |tasks|, Sum(Map(tasks, ScoreOf));
      DivBounds(2 * total + n, 2 * n);
      Some((2 * total + n) / (2 * n))
  }

  /** Euclidean division leaves a remainder in `[0, d)`. */
  lemma DivBounds(a: int, d: int)
    requires d > 0
    ensures d * (a / d) <= a < d * (a / d) + d
  {
    assert a == d * (a / d) + a % d;
  }

  /** The rounded mean of scores that are at most 100 is at most 100. */
  lemma AverageQualityBounds(tasks: seq<Task>)
    requires tasks != []
    requires forall i :: 0 <= i < |tasks| ==> tasks[i].quality.qualityScore <= 100
    ensures 0 <= CalculateAverageQuality(tasks).value <= 100
  {
    var n, total := |tasks|, Sum(Map(tasks, ScoreOf));
    var r := CalculateAverageQuality(tasks).value;
    SumBounds(Map(tasks, ScoreOf), 100);
    MulCompare(2 * n, r, 100);
    MulCompare(2 * n, r, -1);
  }

  lemma {:induction false} MulMonotone(n: nat, a: int, b: int)
    requires a <= b
    ensures n * a <= n * b
  {
    if n > 0 {
      MulMonotone(n - 1, a, b);
      assert n * a == (n - 1) * a + a;
      assert n * b == (n - 1) * b + b;
    }
  }

  /** Multiplying by a natural keeps the side of `k` that `r` is on. */
  lemma MulCompare(n: nat, r: int, k: int)
    ensures r > k ==> n * (k + 1) <= n * r
    ensures r <= k ==> n * r <= n * k
  {
    if r > k {
      MulMonotone(n, k + 1, r);
    } else {
      MulMonotone(n, r, k);
    }
  }

  lemma {:induction false} SumBounds(xs: seq<int>, hi: int)
    requires forall i :: 0 <= i < |xs| ==> 0 <= xs[i] <= hi
    ensures 0 <= Sum(xs) <= |xs| * hi
  {
    if xs != [] {
      SumBounds(xs[..|xs| - 1], hi);
    }
  }

  datatype Template = Template(
    name: string,
    priority: Option<string>,
    labels: seq<string>,
    assigneeRule: string,
    title: string,
    description: string,
    basedOn: nat,
    qualityScore: Option<int>)

  method CreateTemplateFromTasks(category: string, tasks: seq<Task>) returns (t: Template)
    requires forall i :: 0 <= i < |tasks| ==> tasks[i].description.Some?
    ensures t.name == category && t.basedOn == |tasks|
    ensures t.title == "[" + category + "] {{task_summary}}"
    ensures t.labels == CommonLabels(tasks)
    ensures t.priority == Mode(TallyOf(Map(tasks, PriorityOf)))
    ensures t.assigneeRule == AssigneeRule(Mode(TallyOf(AssignedOf(tasks))))
    ensures t.description == Flatten(SelectedSections(FindCommonStructure(StructuresOf(tasks))))
                             + PRIORITY_LINE + ASSIGNEE_LINE
    ensures t.qualityScore == CalculateAverageQuality(tasks)
    ensures t == TemplateSpec(category, tasks)
  {
    var labels := GetCommonLabels(tasks);
    var priority := GetCommonPriority(tasks);
    var assignee := GetCommonAssignee(tasks);
    var description := CreateDescriptionTemplate(tasks);
    t := Template(category, priority, labels, assignee, "[" + category + "] {{task_summary}}",
      description, |tasks|, CalculateAverageQuality(tasks));
  }

  /** `tasks.filter(task => task.category === category)`. */
  function InCategory(tasks: seq<Task>, category: string): (r: seq<Task>)
    ensures forall i :: 0 <= i < |r| ==> r[i].category == category
    ensures forall t :: t in r <==> t in tasks && t.category == category
  {
    if tasks == [] then []
    else
      var init, last := tasks[..|tasks| - 1], tasks[|tasks| - 1];
      assert tasks == init + [last];
      InCategory(init, category) + (if last.category == category then [last] else [])
  }

  /** Tasks can only score 80 with a description; processed tasks satisfy it. */
  predicate DescribedWhenHigh(tasks: seq<Task>) {
    forall i :: 0 <= i < |tasks| ==> IsHigh(tasks[i]) ==> tasks[i].description.Some?
  }

  lemma ProcessedTasksDescribed(baseUrl: string, issues: seq<Issue>)
    ensures DescribedWhenHigh(Map(issues, i => ProcessHistoricalTask(baseUrl, i)))
  {
  }

  /** The high-quality tasks of one category. */
  function HighInCategory(tasks: seq<Task>, category: string): seq<Task> {
    Filter(InCategory(tasks, category), IsHigh)
  }

  /** What `createTemplateFromTasks` produces for a category and its tasks. */
  function TemplateSpec(category: string, tasks: seq<Task>): Template {
    Template(category, Mode(TallyOf(Map(tasks, PriorityOf))), CommonLabels(tasks),
      AssigneeRule(Mode(TallyOf(AssignedOf(tasks)))), "[" + category + "] {{task_summary}}",
      Flatten(SelectedSections(FindCommonStructure(StructuresOf(tasks)))) + PRIORITY_LINE + ASSIGNEE_LINE,
      |tasks|, CalculateAverageQuality(tasks))
  }

  /** A category together with its high-quality tasks. */
  datatype Group = Group(category: string, tasks: seq<Task>)

  /** The categories, walked in order, that have high-quality tasks. */
  function GroupsFor(tasks: seq<Task>, categories: seq<string>): seq<Group> {
    if categories == [] then []
    else GroupsFor(tasks, categories[..|categories| - 1]) + GroupOf(tasks, categories[|categories| - 1])
  }

  lemma HighDescribed(tasks: seq<Task>, c: string)
    requires DescribedWhenHigh(tasks)
    ensures forall m :: 0 <= m < |HighInCategory(tasks, c)| ==> HighInCategory(tasks, c)[m].description.Some?
  {
    var high := HighInCategory(tasks, c);
    forall m | 0 <= m < |high| ensures high[m].description.Some? {
      FilterIn(InCategory(tasks, c), IsHigh, high[m]);
      var k :| 0 <= k < |tasks| && tasks[k] == high[m];
    }
  }

  /** One template per group, each built from the group's tasks. */
  predicate TemplatesOfGroups(templates: seq<Template>, groups: seq<Group>) {
    |templates| == |groups|
    && forall j :: 0 <= j < |groups| ==> templates[j] == TemplateSpec(groups[j].category, groups[j].tasks)
  }

  lemma GroupsForStep(tasks: seq<Task>, categories: seq<string>, i: int)
    requires 0 <= i < |categories|
    ensures GroupsFor(tasks, categories[..i + 1]) == GroupsFor(tasks, categories[..i]) + GroupOf(tasks, categories[i])
  {
    assert categories[..i + 1][..i] == categories[..i];
  }

  lemma TemplateOfGroup(t: Template, g: Group)
    requires t == TemplateSpec(g.category, g.tasks)
    ensures TemplatesOfGroups([t], [g])
  {
  }

  lemma TemplatesOfGroupsAppend(templates: seq<Template>, groups: seq<Group>, more: seq<Template>, gs: seq<Group>)
    requires TemplatesOfGroups(templates, groups)
    requires TemplatesOfGroups(more, gs)
    ensures TemplatesOfGroups(templates + more, groups + gs)
  {
    var ts, ss := templates + more, groups + gs;
    forall j | 0 <= j < |ss| ensures ts[j] == TemplateSpec(ss[j].category, ss[j].tasks) {
      if j >= |groups| {
        assert ts[j] == more[j - |groups|] && ss[j] == gs[j - |groups|];
      }
    }
  }

  /** One pass of that loop: a template for the category when it has
      high-quality tasks, none otherwise. */
  method TemplatesForCategory(tasks: seq<Task>, category: string) returns (made: seq<Template>)
    requires DescribedWhenHigh(tasks)
    ensures TemplatesOfGroups(made, GroupOf(tasks, category))
  {
    var categoryTasks := InCategory(tasks, category);
    var highQualityTasks := Filter(categoryTasks, IsHigh);
    assert highQualityTasks == HighInCategory(tasks, category);
    if |highQualityTasks| > 0 {
      HighDescribed(tasks, category);
      var t := CreateTemplateFromTasks(category, highQualityTasks);
      TemplateOfGroup(t, Group(category, highQualityTasks));
      made := [t];
      assert GroupOf(tasks, category) == [Group(category, highQualityTasks)];
    } else {
      made := [];
      assert GroupOf(tasks, category) == [];
    }
  }

  /** The loop of `createTemplatesFromHistory` over the counted categories. */
  method TemplatesForCategories(tasks: seq<Task>, categories: seq<string>) returns (templates: seq<Template>)
    requires DescribedWhenHigh(tasks)
    ensures TemplatesOfGroups(templates, GroupsFor(tasks, categories))
  {
    templates := [];
    var i := 0;
    while i < |categories|
      invariant 0 <= i <= |categories|
      invariant TemplatesOfGroups(templates, GroupsFor(tasks, categories[..i]))
    {
      GroupsForStep(tasks, categories, i);
      var made := TemplatesForCategory(tasks, categories[i]);
      TemplatesOfGroupsAppend(templates, GroupsFor(tasks, categories[..i]), made, GroupOf(tasks, categories[i]));
      templates := templates + made;
      i := i + 1;
    }
    assert categories[..i] == categories;
  }

  method CreateTemplatesFromHistory(tasks: seq<Task>) returns (templates: seq<Template>)
    requires DescribedWhenHigh(tasks)
    ensures TemplatesOfGroups(templates, GroupsFor(tasks, Keys(TallyOf(Map(tasks, CategoryOf)))))
  {
    var patterns := AnalyzePatterns(tasks);
    templates := TemplatesForCategories(tasks, Keys(patterns.categories));
  }

  predicate HasGroup(groups: seq<Group>, c: string) {
    exists j :: 0 <= j < |groups| && groups[j].category == c
  }

  predicate HasHighTask(tasks: seq<Task>, c: string) {
    exists m :: 0 <= m < |tasks| && tasks[m].category == c && IsHigh(tasks[m])
  }

  lemma HasGroupAppend(gs: seq<Group>, hs: seq<Group>, c: string)
    ensures HasGroup(gs + hs, c) <==> HasGroup(gs, c) || HasGroup(hs, c)
  {
    if HasGroup(gs + hs, c) {
      var j :| 0 <= j < |gs + hs| && (gs + hs)[j].category == c;
      if j >= |gs| {
        assert hs[j - |gs|].category == c;
      }
    }
    if HasGroup(hs, c) {
      var j :| 0 <= j < |hs| && hs[j].category == c;
      assert (gs + hs)[|gs| + j].category == c;
    }
    if HasGroup(gs, c) {
      var j :| 0 <= j < |gs| && gs[j].category == c;
      assert (gs + hs)[j].category == c;
    }
  }

  /** The group one category contributes, if any. */
  function GroupOf(tasks: seq<Task>, c: string): seq<Group> {
    var high := HighInCategory(tasks, c);
    if |high| > 0 then [Group(c, high)] else []
  }

  lemma GroupOfMembers(tasks: seq<Task>, last: string, c: string)
    ensures HasGroup(GroupOf(tasks, last), c) <==> c == last && HasHighTask(tasks, c)
  {
    HighInCategoryIff(tasks, last);
    var tail := GroupOf(tasks, last);
    if HasGroup(tail, c) {
      var j :| 0 <= j < |tail| && tail[j].category == c;
    }
    if c == last && HasHighTask(tasks, c) {
      assert tail[0].category == c;
    }
  }

  /** Walking a list of categories yields a group for exactly the listed
      categories that have a high-quality task. */
  lemma {:induction false} GroupsForMembers(tasks: seq<Task>, categories: seq<string>, c: string)
    ensures HasGroup(GroupsFor(tasks, categories), c) <==> c in categories && HasHighTask(tasks, c)
  {
    if categories != [] {
      var init, last := categories[..|categories| - 1], categories[|categories| - 1];
      assert categories == init + [last];
      assert c in categories <==> c in init || c == last;
      assert GroupsFor(tasks, categories) == GroupsFor(tasks, init) + GroupOf(tasks, last);
      GroupsForMembers(tasks, init, c);
      GroupOfMembers(tasks, last, c);
      HasGroupAppend(GroupsFor(tasks, init), GroupOf(tasks, last), c);
    }
  }

  /** Every group's category is one of those walked. */
  lemma {:induction false} GroupsForFrom(tasks: seq<Task>, categories: seq<string>)
    ensures forall j :: 0 <= j < |GroupsFor(tasks, categories)| ==>
              GroupsFor(tasks, categories)[j].category in categories
  {
    if categories != [] {
      var init, last := categories[..|categories| - 1], categories[|categories| - 1];
      GroupsForFrom(tasks, init);
      var prev: seq<Group>, tail: seq<Group> := GroupsFor(tasks, init), GroupOf(tasks, last);
      forall j | 0 <= j < |prev + tail| ensures (prev + tail)[j].category in categories {
        if j < |prev| {
          assert (prev + tail)[j] == prev[j];
          assert prev[j].category in init;
        } else {
          assert (prev + tail)[j] == tail[j - |prev|];
        }
      }
    }
  }

  /** Each group holds its category's high-quality tasks, and at least one. */
  lemma {:induction false} GroupsForTasks(tasks: seq<Task>, categories: seq<string>)
    ensures forall j :: 0 <= j < |GroupsFor(tasks, categories)| ==>
              GroupsFor(tasks, categories)[j].tasks == HighInCategory(tasks, GroupsFor(tasks, categories)[j].category)
              && GroupsFor(tasks, categories)[j].tasks != []
  {
    if categories != [] {
      var init, last := categories[..|categories| - 1], categories[|categories| - 1];
      GroupsForTasks(tasks, init);
      var prev: seq<Group>, tail: seq<Group> := GroupsFor(tasks, init), GroupOf(tasks, last);
      forall j | 0 <= j < |prev + tail|
        ensures (prev + tail)[j].tasks == HighInCategory(tasks, (prev + tail)[j].category)
        ensures (prev + tail)[j].tasks != []
      {
        if j < |prev| {
          assert (prev + tail)[j] == prev[j];
        } else {
          assert (prev + tail)[j] == tail[j - |prev|];
        }
      }
    }
  }

  predicate GroupsDistinct(gs: seq<Group>) {
    forall i, j :: 0 <= i < j < |gs| ==> gs[i].category != gs[j].category
  }

  /** Distinct categories give groups with distinct categories. */
  lemma {:induction false} GroupsForDistinct(tasks: seq<Task>, categories: seq<string>)
    requires forall i, j :: 0 <= i < j < |categories| ==> categories[i] != categories[j]
    ensures GroupsDistinct(GroupsFor(tasks, categories))
  {
    if categories != [] {
      var init, last := categories[..|categories| - 1], categories[|categories| - 1];
      GroupsForDistinct(tasks, init);
      GroupsForFrom(tasks, init);
      var prev: seq<Group>, tail: seq<Group> := GroupsFor(tasks, init), GroupOf(tasks, last);
      assert last !in init;
      forall i, j | 0 <= i < j < |prev + tail| ensures (prev + tail)[i].category != (prev + tail)[j].category {
        if j < |prev| {
          assert (prev + tail)[i] == prev[i] && (prev + tail)[j] == prev[j];
          assert prev[i].category != prev[j].category;
        } else {
          assert |tail| == 1 && tail[0].category == last;
          assert (prev + tail)[i] == prev[i];
          assert prev[i].category in init;
          assert (prev + tail)[j] == tail[0];
          assert last != prev[i].category;
        }
      }
    }
  }

  /** `createTemplatesFromHistory` yields one template per category that has
      a task scoring at least 80, and none for any other category; each is
      built from, and based on the number of, that category's high-quality tasks. */
  lemma TemplatesFromHistory(tasks: seq<Task>, c: string)
    ensures var gs := GroupsFor(tasks, Keys(TallyOf(Map(tasks, CategoryOf))));
            && (HasGroup(gs, c) <==> HasHighTask(tasks, c))
            && GroupsDistinct(gs)
            && (forall j :: 0 <= j < |gs| ==> gs[j].tasks == HighInCategory(tasks, gs[j].category) && gs[j].tasks != [])
  {
    var cats := Keys(TallyOf(Map(tasks, CategoryOf)));
    GroupsForMembers(tasks, cats, c);
    TallyKeySet(Map(tasks, CategoryOf));
    TallyWellFormed(Map(tasks, CategoryOf));
    GroupsForDistinct(tasks, cats);
    GroupsForFrom(tasks, cats);
    GroupsForTasks(tasks, cats);
    if HasHighTask(tasks, c) {
      var m :| 0 <= m < |tasks| && tasks[m].category == c && IsHigh(tasks[m]);
      assert Map(tasks, CategoryOf)[m] == c;
    }
  }

  lemma HighInCategoryIff(tasks: seq<Task>, c: string)
    ensures HighInCategory(tasks, c) != [] <==>
              exists m :: 0 <= m < |tasks| && tasks[m].category == c && IsHigh(tasks[m])
  {
    var r := HighInCategory(tasks, c);
    if r != [] {
      assert r[0] in r;
      FilterIn(InCategory(tasks, c), IsHigh, r[0]);
    }
    if exists m :: 0 <= m < |tasks| && tasks[m].category == c && IsHigh(tasks[m]) {
      var m :| 0 <= m < |tasks| && tasks[m].category == c && IsHigh(tasks[m]);
      FilterIn(InCategory(tasks, c), IsHigh, tasks[m]);
    }
  }
}
