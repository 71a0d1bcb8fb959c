/** The historical-data controller: the context of good past tasks it adds
    to a generation prompt, the recommendations it derives from the
    patterns of a project, and the statistics it reports. */
module HistoryController {
  import opened Wrappers
  import opened Text
  import opened Seqs
  import opened Order
  import opened Counter
  import opened History

  // ------------------------------------------------------ historical context

  const CONTEXT_HEADER := "Примеры качественных задач из истории:\n\n"
  const EXCERPT_PREFIX := "   Описание: "

  /** A task good enough to be shown as an example. */
  predicate Qualifies(t: Task) {
    t.quality.qualityScore >= 70
  }

  /** `tasks.filter(task => task.quality.qualityScore >= 70).slice(0, 5)`. */
  function Selected(tasks: seq<Task>): (r: seq<Task>)
    ensures |r| <= 5
    ensures forall i :: 0 <= i < |r| ==> Qualifies(r[i])
    ensures |r| == 5 || r == Filter(tasks, Qualifies)
  {
    FirstFive(Filter(tasks, Qualifies))
  }

  /** `slice(0, 5)`. */
  function FirstFive<T>(q: seq<T>): (r: seq<T>)
    ensures |r| <= 5 && r <= q
    ensures |r| == 5 || r == q
  {
    if |q| <= 5 then q else q[..5]
  }

  /** Items appended after five items leave the slice unchanged; before that
      they only extend it. */
  lemma FirstFiveAppend<T>(q: seq<T>, more: seq<T>)
    ensures |q| >= 5 ==> FirstFive(q + more) == FirstFive(q)
    ensures FirstFive(q) <= FirstFive(q + more)
  {
    if |q| >= 5 {
      assert (q + more)[..5] == q[..5];
    } else if |q + more| > 5 {
      assert (q + more)[..5][..|q|] == q;
    }
  }

  /** The decimal numeral of an entry number; there are at most five. */
  function Numeral(n: nat): (r: string)
    requires n <= 9
    ensures |r| == 1 && '0' <= r[0] <= '9'
  {
    [(48 + n) as char]
  }

  function SummaryLine(t: Task, number: nat): string
    requires number <= 9
  {
    Numeral(number) + ". " + t.summary + "\n"
  }

  function PriorityLine(t: Task): string {
    "   Приоритет: " + t.priority + "\n"
  }

  function LabelsLine(t: Task): string {
    "   Метки: " + Join(t.labels, ", ") + "\n"
  }

  predicate LongDescription(d: Option<string>) {
    Truthy(d) && Utf16Length(d.value) > 50
  }

  /** The first 200 UTF-16 units of a description longer than 50 units. */
  function Excerpt(d: Option<string>): string {
    if LongDescription(d) then EXCERPT_PREFIX + TakeUnits(d.value, 200) + "...\n" else ""
  }

  /** The lines one task adds to the context. */
  function EntryText(t: Task, number: nat): string
    requires number <= 9
  {
    SummaryLine(t, number) + PriorityLine(t) + LabelsLine(t) + Excerpt(t.description) + "\n"
  }

  /** The entries of `ts`, numbered from 1. */
  function EntriesText(ts: seq<Task>): string
    requires |ts| <= 9
  {
    if ts == [] then "" else EntriesText(ts[..|ts| - 1]) + EntryText(ts[|ts| - 1], |ts|)
  }

  function HistoricalContext(tasks: seq<Task>): string {
    var s := Selected(tasks);
    if s == [] then "" else CONTEXT_HEADER + EntriesText(s)
  }

  /** `buildHistoricalContext`. */
  method BuildHistoricalContext(tasks: seq<Task>) returns (context: string)
    ensures context == HistoricalContext(tasks)
  {
    var highQualityTasks := Selected(tasks);
    if |highQualityTasks| == 0 {
      return "";
    }
    context := AppendEntries(CONTEXT_HEADER, highQualityTasks);
  }

  /** The `forEach` over the selected tasks. */
  method AppendEntries(header: string, ts: seq<Task>) returns (context: string)
    requires |ts| <= 5
    ensures context == header + EntriesText(ts)
  {
    context := header;
    for i := 0 to |ts|
      invariant context == header + EntriesText(ts[..i])
    {
      EntriesSnoc(ts, i);
      context := AppendEntry(context, ts[i], i + 1);
      ConcatAssoc(header, EntriesText(ts[..i]), EntryText(ts[i], i + 1));
    }
    assert ts[..|ts|] == ts;
  }

  lemma EntriesSnoc(ts: seq<Task>, i: nat)
    requires i < |ts| <= 9
    ensures EntriesText(ts[..i + 1]) == EntriesText(ts[..i]) + EntryText(ts[i], i + 1)
  {
    assert ts[..i + 1][..i] == ts[..i];
  }

  /** The body of the `forEach`: one task's lines appended to the context. */
  method AppendEntry(context0: string, task: Task, number: nat) returns (context: string)
    requires number <= 9
    ensures context == context0 + EntryText(task, number)
  {
    context := context0 + SummaryLine(task, number);
    context := context + PriorityLine(task);
    context := context + LabelsLine(task);
    if LongDescription(task.description) {
      context := context + EXCERPT_PREFIX + TakeUnits(task.description.value, 200) + "...\n";
    }
    context := context + "\n";
    Appended(context0, SummaryLine(task, number), PriorityLine(task), LabelsLine(task),
             Excerpt(task.description), context);
  }

  lemma Appended(before: string, a: string, b: string, c: string, e: string, after: string)
    requires after == before + a + b + c + e + "\n"
    ensures after == before + (a + b + c + e + "\n")
  {
  }

  /** The context is empty exactly when no task scores 70 or more. */
  lemma ContextEmptyIff(tasks: seq<Task>)
    ensures HistoricalContext(tasks) == "" <==> forall t :: t in tasks ==> !Qualifies(t)
  {
    var q := Filter(tasks, Qualifies);
    forall t | t in tasks ensures t in q <==> Qualifies(t) {
      FilterIn(tasks, Qualifies, t);
    }
    if q != [] {
      assert q[0] in q;
      FilterIn(tasks, Qualifies, q[0]);
      assert |HistoricalContext(tasks)| >= |CONTEXT_HEADER| > 0;
    }
  }

  /** Tasks are taken in input order, not ranked: once five good tasks have
      been seen, later ones change nothing; before that, later ones only add
      entries after the earlier ones. */
  lemma SelectedInInputOrder(a: seq<Task>, b: seq<Task>)
    ensures |Filter(a, Qualifies)| >= 5 ==> Selected(a + b) == Selected(a)
    ensures Selected(a) <= Selected(a + b)
  {
    FilterAppend(a, b, Qualifies);
    FirstFiveAppend(Filter(a, Qualifies), Filter(b, Qualifies));
  }

  /** The entries are numbered from 1: the context opens with the header and
      the first good task's summary. */
  lemma ContextOpening(tasks: seq<Task>)
    requires exists t :: t in tasks && Qualifies(t)
    ensures var s := Selected(tasks);
            s != [] && StartsWith(HistoricalContext(tasks), CONTEXT_HEADER + "1. " + s[0].summary + "\n")
  {
    var s := Selected(tasks);
    var t :| t in tasks && Qualifies(t);
    FilterIn(tasks, Qualifies, t);
    assert s != [];
    EntriesFirst(s);
    var e := EntriesText(s);
    var first := SummaryLine(s[0], 1);
    EntryOpening(s[0]);
    StartsWithTrans(e, EntryText(s[0], 1), first);
    StartsWithBoth(CONTEXT_HEADER, e, first);
    assert CONTEXT_HEADER + first == CONTEXT_HEADER + "1. " + s[0].summary + "\n";
  }

  lemma EntryOpening(t: Task)
    ensures SummaryLine(t, 1) == "1. " + t.summary + "\n"
    ensures StartsWith(EntryText(t, 1), SummaryLine(t, 1))
  {
    var first := SummaryLine(t, 1);
    var rest := PriorityLine(t) + LabelsLine(t) + Excerpt(t.description) + "\n";
    assert EntryText(t, 1) == first + rest;
    assert (first + rest)[..|first|] == first;
  }

  lemma {:induction false} EntriesFirst(ts: seq<Task>)
    requires 0 < |ts| <= 9
    ensures StartsWith(EntriesText(ts), EntryText(ts[0], 1))
  {
    if |ts| > 1 {
      var init := ts[..|ts| - 1];
      EntriesFirst(init);
      assert init[0] == ts[0];
    } else {
      assert ts[..0] == [];
    }
  }

  /** A description excerpt appears exactly for a description longer than
      50 units, and holds a prefix of it no longer than 200 units. */
  lemma ExcerptShape(d: Option<string>)
    ensures Excerpt(d) != "" <==> d.Some? && Utf16Length(d.value) > 50
    ensures Excerpt(d) != "" ==>
              exists x :: Excerpt(d) == EXCERPT_PREFIX + x + "...\n"
                          && StartsWith(d.value, x) && Utf16Length(x) <= 200
  {
    if d.Some? && Utf16Length(d.value) > 50 {
      assert d.value != "";
      var x := TakeUnits(d.value, 200);
      assert Excerpt(d) == EXCERPT_PREFIX + x + "...\n";
    }
  }

  // --------------------------------------------------------- recommendations

  /** A recommendation: a top list of a counter, or the quality buckets. */
  datatype Recommendation =
    | Top(kind: string, message: string, data: Tally)
    | QualityNote(high: nat, medium: nat, low: nat)

  /** `Object.entries(counts).sort(([, a], [, b]) => b - a).slice(0, n)` and
      the recommendation listing its keys, when there is any entry. */
  function TopNote(kind: string, lead: string, counts: Tally, n: nat): (r: seq<Recommendation>)
    ensures |r| <= 1
  {
    var top := TopN(counts, CountOf, n);
    if |top| > 0 then [Top(kind, lead + Join(Keys(top), ", "), top)] else []
  }

  const CATEGORIES_LEAD := "Наиболее активные категории: "
  const PRIORITIES_LEAD := "Наиболее используемые приоритеты: "
  const LABELS_LEAD := "Популярные метки: "

  function RecommendationsOf(p: Patterns): seq<Recommendation> {
    TopNote("categories", CATEGORIES_LEAD, p.categories, 3)
    + TopNote("priorities", PRIORITIES_LEAD, p.priorities, 2)
    + TopNote("labels", LABELS_LEAD, p.labels, 5)
    + [QualityNote(|p.high|, |p.medium|, |p.low|)]
  }

  /** `generateRecommendations`; the quality percentage is not modelled. */
  method GenerateRecommendations(p: Patterns) returns (recommendations: seq<Recommendation>)
    ensures recommendations == RecommendationsOf(p)
  {
    ghost var c := TopNote("categories", CATEGORIES_LEAD, p.categories, 3);
    ghost var r := TopNote("priorities", PRIORITIES_LEAD, p.priorities, 2);
    ghost var l := TopNote("labels", LABELS_LEAD, p.labels, 5);
    ghost var q := [QualityNote(|p.high|, |p.medium|, |p.low|)];
    recommendations := [];
    recommendations := PushTop(recommendations, "categories", CATEGORIES_LEAD, p.categories, 3);
    assert recommendations == c;
    recommendations := PushTop(recommendations, "priorities", PRIORITIES_LEAD, p.priorities, 2);
    assert recommendations == c + r;
    recommendations := PushTop(recommendations, "labels", LABELS_LEAD, p.labels, 5);
    assert recommendations == c + r + l;
    recommendations := recommendations + [QualityNote(|p.high|, |p.medium|, |p.low|)];
    assert recommendations == c + r + l + q;
  }

  /** One of the three top-list blocks of `generateRecommendations`. */
  method PushTop(recommendations0: seq<Recommendation>, kind: string, lead: string, counts: Tally, n: nat)
    returns (recommendations: seq<Recommendation>)
    ensures recommendations == recommendations0 + TopNote(kind, lead, counts, n)
  {
    recommendations := recommendations0;
    var top := TopN(counts, CountOf, n);
    if |top| > 0 {
      recommendations := recommendations + [Top(kind, lead + Join(Keys(top), ", "), top)];
    }
  }

  /** A top note exists exactly for a non-empty counter, and holds at most
      `n` entries by non-increasing count. */
  lemma TopNoteShape(kind: string, lead: string, counts: Tally, n: nat)
    requires n > 0
    ensures |TopNote(kind, lead, counts, n)| == 1 <==> counts != []
    ensures forall r :: r in TopNote(kind, lead, counts, n) ==>
              r.Top? && r.kind == kind && |r.data| <= n && Descending(r.data, CountOf)
              && multiset(r.data) <= multiset(counts)
  {
  }

  /** For the patterns of a batch of tasks: the category note is there
      exactly when there are tasks, and the quality note, always last,
      accounts for every task. */
  lemma RecommendationsOfTasks(tasks: seq<Task>)
    ensures var r := RecommendationsOf(PatternsOf(tasks));
            && 1 <= |r| <= 4
            && r[|r| - 1] == QualityNote(|Filter(tasks, IsHigh)|, |Filter(tasks, IsMedium)|, |Filter(tasks, IsLow)|)
            && r[|r| - 1].high + r[|r| - 1].medium + r[|r| - 1].low == |tasks|
            && (r[0].Top? && r[0].kind == "categories" <==> tasks != [])
  {
    var p := PatternsOf(tasks);
    PatternsOfBuckets(tasks);
    BucketsPartition(tasks);
    PatternsOfCounters(tasks);
    TallyTotal(Map(tasks, CategoryOf));
    TopNoteShape("categories", CATEGORIES_LEAD, p.categories, 3);
    TopNoteShape("priorities", PRIORITIES_LEAD, p.priorities, 2);
    TopNoteShape("labels", LABELS_LEAD, p.labels, 5);
    if tasks == [] {
      assert p.categories == [];
    } else {
      assert Total(p.categories) > 0;
      assert p.categories != [];
    }
  }

  // -------------------------------------------------------------- statistics

  datatype Stats = Stats(
    totalTasks: nat,
    categories: Tally,
    priorities: Tally,
    topLabels: Tally,
    high: nat,
    medium: nat,
    low: nat,
    templates: nat,
    recommendations: seq<Recommendation>)

  /** The data part of `getHistoricalStats`' answer; `templateCount` is the
      number of templates built from the same tasks. */
  function HistoricalStats(tasks: seq<Task>, templateCount: nat): Stats {
    var p := PatternsOf(tasks);
    Stats(|tasks|, p.categories, p.priorities, TopN(p.labels, CountOf, 10),
          |p.high|, |p.medium|, |p.low|, templateCount, RecommendationsOf(p))
  }

  /** The quality buckets add up to the number of tasks, and so do the
      category counts. */
  lemma StatsTotals(tasks: seq<Task>, templateCount: nat)
    ensures var s := HistoricalStats(tasks, templateCount);
            && s.totalTasks == |tasks|
            && s.high + s.medium + s.low == s.totalTasks
            && Total(s.categories) == s.totalTasks
  {
    PatternsOfBuckets(tasks);
    BucketsPartition(tasks);
    PatternsOfCounters(tasks);
    PatternTotals(tasks);
  }

  /** The top labels are at most ten counted labels, by non-increasing
      count. */
  lemma StatsTopLabels(tasks: seq<Task>, templateCount: nat)
    ensures var s := HistoricalStats(tasks, templateCount);
            && |s.topLabels| <= 10 && Descending(s.topLabels, CountOf)
            && forall i :: 0 <= i < |s.topLabels| ==> s.topLabels[i].key in AllLabels(tasks)
  {
    var p := PatternsOf(tasks);
    PatternsOfCounters(tasks);
    TopOfTally(AllLabels(tasks), 10);
  }
}
