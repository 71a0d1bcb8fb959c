/** The Jira URL parser service: reads the keys out of an issue or board URL,
    categorizes an existing issue, writes the description of a task created
    from it, and maps Jira priorities onto the generator's three levels. */
module JiraUrl {
  import opened Wrappers
  import opened Text
  import opened Seqs
  import opened Categories
  import opened UrlKeys

  /** What `new URL(url)` yields: its protocol and host, or the message of
      the error it throws. */
  datatype UrlParts = UrlParts(protocol: string, host: string)

  datatype UrlInfo = UrlInfo(
    issueKey: Option<string>,
    projectKey: Option<string>,
    rapidViewId: Option<string>,
    baseUrl: string,
    originalUrl: string,
    isValid: bool)

  const URL_ERROR_PREFIX := "Ошибка парсинга URL: "

  /** `parseJiraUrl`: an unparsable URL is an error; otherwise the URL is
      valid exactly when it holds an issue key or a project key. */
  function ParseJiraUrl(url: string, parsed: Result<UrlParts, string>): (r: Result<UrlInfo, string>)
    ensures parsed.Err? ==> r == Err(URL_ERROR_PREFIX + parsed.error)
    ensures parsed.Ok? ==> r.Ok? && r.value.originalUrl == url
    ensures parsed.Ok? ==> r.value.baseUrl == parsed.value.protocol + "//" + parsed.value.host
    ensures r.Ok? ==> (r.value.isValid <==> IssueKey(url).Some? || ProjectKey(url).Some?)
    ensures r.Ok? ==> r.value.issueKey == IssueKey(url) && r.value.projectKey == ProjectKey(url)
                      && r.value.rapidViewId == RapidViewId(url)
  {
    match parsed
    case Err(message) => Err(URL_ERROR_PREFIX + message)
    case Ok(parts) =>
      var issueKey := IssueKey(url);
      var projectKey := ProjectKey(url);
      Ok(UrlInfo(issueKey, projectKey, RapidViewId(url), parts.protocol + "//" + parts.host, url,
                 issueKey.Some? || projectKey.Some?))
  }

  /** A browse URL of an issue is valid and names that issue; a board URL
      naming only a project is valid too. */
  lemma ParseBrowseUrl(base: string, key: string, parts: UrlParts)
    requires IsKey(key)
    requires forall c :: c in base ==> !InClass(c, Upper)
    ensures var r := ParseJiraUrl(base + "/browse/" + key, Ok(parts));
            r.Ok? && r.value.isValid && r.value.issueKey == Some(key)
  {
    var p := base + "/browse/";
    forall c | c in p ensures !InClass(c, Upper) {
      if c !in base {
        assert c in "/browse/";
      }
    }
    IssueKeyAfter(p, key, "");
    assert p + key + "" == base + "/browse/" + key;
  }

  lemma ParseBoardUrl(key: string, rest: string, parts: UrlParts)
    requires key != [] && AllIn(key, Upper)
    requires rest == [] || !InClass(rest[0], Upper)
    ensures var r := ParseJiraUrl(PROJECT_KEY_MARKER + key + rest, Ok(parts));
            r.Ok? && r.value.isValid && r.value.projectKey == Some(key)
  {
    CaptureFront(PROJECT_KEY_MARKER, key, Upper, rest);
  }

  // ---------------------------------------------------------------- category

  /** The fields of a fetched issue; `description` is `None` when Jira has
      none, and `labels` is already defaulted to `[]`. */
  datatype IssueInfo = IssueInfo(
    key: string,
    summary: string,
    description: Option<string>,
    status: string,
    priority: string,
    assignee: string,
    labels: seq<string>,
    issueType: string)

  /** Substrings of the lowercased summary, group by group. */
  const SUMMARY_KEYWORDS: seq<seq<string>> := [
    ["devops", "ci/cd", "deploy"],
    ["analytics", "dashboard", "metrics"],
    ["backend", "api", "server"],
    ["frontend", "ui", "ux"],
    ["infrastructure", "server", "system"]]

  /** Exact lowercased labels, group by group. */
  const LABEL_KEYWORDS: seq<seq<string>> := [
    ["devops", "ci-cd", "deployment"],
    ["analytics", "dashboard", "metrics"],
    ["backend", "api", "server"],
    ["frontend", "ui", "ux"],
    ["infrastructure", "system"]]

  predicate SummaryRule(issue: IssueInfo, g: int)
    requires 0 <= g < 5
  {
    ContainsAny(ToLower(issue.summary), SUMMARY_KEYWORDS[g])
  }

  predicate LabelRule(issue: IssueInfo, g: int)
    requires 0 <= g < 5
  {
    SomeLabelIn(Map(issue.labels, ToLower), LABEL_KEYWORDS[g])
  }

  /** `determineCategory`: the summary groups first, then the label groups,
      then Backend. The issue type is read but not used. */
  function DetermineCategory(issue: IssueInfo): (r: string)
    ensures r in CATEGORIES
  {
    if SummaryRule(issue, 0) then DEVOPS
    else if SummaryRule(issue, 1) then ANALYTICS
    else if SummaryRule(issue, 2) then BACKEND
    else if SummaryRule(issue, 3) then FRONTEND
    else if SummaryRule(issue, 4) then INFRASTRUCTURE
    else if LabelRule(issue, 0) then DEVOPS
    else if LabelRule(issue, 1) then ANALYTICS
    else if LabelRule(issue, 2) then BACKEND
    else if LabelRule(issue, 3) then FRONTEND
    else if LabelRule(issue, 4) then INFRASTRUCTURE
    else BACKEND
  }

  /** The first summary group that matches decides, whatever the labels say. */
  lemma CategoryBySummary(issue: IssueInfo, g: int)
    requires 0 <= g < 5 && SummaryRule(issue, g)
    requires forall h :: 0 <= h < g ==> !SummaryRule(issue, h)
    ensures DetermineCategory(issue) == CATEGORIES[g]
  {
    if g > 0 { assert !SummaryRule(issue, 0); }
    if g > 1 { assert !SummaryRule(issue, 1); }
    if g > 2 { assert !SummaryRule(issue, 2); }
    if g > 3 { assert !SummaryRule(issue, 3); }
  }

  /** With no summary hit, the first label group with an exact match decides;
      with no hit at all the category is Backend. */
  lemma CategoryByLabel(issue: IssueInfo, g: int)
    requires forall h :: 0 <= h < 5 ==> !SummaryRule(issue, h)
    requires 0 <= g < 5 && LabelRule(issue, g)
    requires forall h :: 0 <= h < g ==> !LabelRule(issue, h)
    ensures DetermineCategory(issue) == CATEGORIES[g]
  {
    assert !SummaryRule(issue, 0) && !SummaryRule(issue, 1) && !SummaryRule(issue, 2);
    assert !SummaryRule(issue, 3) && !SummaryRule(issue, 4);
    if g > 0 { assert !LabelRule(issue, 0); }
    if g > 1 { assert !LabelRule(issue, 1); }
    if g > 2 { assert !LabelRule(issue, 2); }
    if g > 3 { assert !LabelRule(issue, 3); }
  }

  /** A summary mentioning `server` is Backend before the infrastructure
      group is reached, so that group's `server` never decides. */
  lemma ServerIsBackend(issue: IssueInfo)
    requires Contains(ToLower(issue.summary), "server")
    requires !SummaryRule(issue, 0) && !SummaryRule(issue, 1)
    ensures DetermineCategory(issue) == BACKEND
  {
    assert SUMMARY_KEYWORDS[2][2] == "server";
  }

  /** Infrastructure comes only from `infrastructure` or `system`, in the
      summary or among the labels. */
  lemma InfrastructureSource(issue: IssueInfo)
    requires DetermineCategory(issue) == INFRASTRUCTURE
    ensures ContainsAny(ToLower(issue.summary), ["infrastructure", "system"])
            || SomeLabelIn(Map(issue.labels, ToLower), ["infrastructure", "system"])
  {
    var s := ToLower(issue.summary);
    if SummaryRule(issue, 4) {
      assert !SummaryRule(issue, 2);
      assert !Contains(s, SUMMARY_KEYWORDS[2][2]);
      var i :| 0 <= i < 3 && Contains(s, SUMMARY_KEYWORDS[4][i]);
      assert i != 1;
      if i == 0 {
        assert Contains(s, ["infrastructure", "system"][0]);
      } else {
        assert Contains(s, ["infrastructure", "system"][1]);
      }
    }
  }

  // ------------------------------------------------------------- description

  function Header(key: string): string {
    "Создано на основе задачи: " + key + "\n\n"
  }

  function OriginalBlock(description: string): string {
    "**Исходное описание:**\n" + description + "\n\n"
  }

  function StatusLine(status: string): string {
    "**Статус:** " + status + "\n"
  }

  function PriorityLine(priority: string): string {
    "**Приоритет:** " + priority + "\n"
  }

  function AssigneeLine(assignee: string): string {
    "**Исполнитель:** " + assignee + "\n"
  }

  function LabelsLine(labels: seq<string>): string {
    "**Метки:** " + Join(labels, ", ") + "\n"
  }

  function AdditionalBlock(info: string): string {
    "\n**Дополнительная информация:**\n" + info
  }

  /** The description the `+=` steps build: the header, the original
      description if any, the three fixed lines, the labels line if any and
      the additional information if any. */
  function DescriptionOf(issue: IssueInfo, additionalInfo: Option<string>): string {
    Header(issue.key) + OriginalPart(issue) + FixedLines(issue) + LabelsPart(issue)
    + AdditionalPart(additionalInfo)
  }

  function OriginalPart(issue: IssueInfo): string {
    if Truthy(issue.description) then OriginalBlock(issue.description.value) else ""
  }

  function FixedLines(issue: IssueInfo): string {
    StatusLine(issue.status) + PriorityLine(issue.priority) + AssigneeLine(issue.assignee)
  }

  function LabelsPart(issue: IssueInfo): string {
    if |issue.labels| > 0 then LabelsLine(issue.labels) else ""
  }

  function AdditionalPart(additionalInfo: Option<string>): string {
    if Truthy(additionalInfo) then AdditionalBlock(additionalInfo.value) else ""
  }

  /** `createDescriptionFromIssue`. */
  method CreateDescriptionFromIssue(issue: IssueInfo, additionalInfo: Option<string>)
    returns (description: string)
    ensures description == DescriptionOf(issue, additionalInfo)
  {
    description := Header(issue.key);
    if Truthy(issue.description) {
      description := description + OriginalBlock(issue.description.value);
    }
    assert description == Header(issue.key) + OriginalPart(issue);
    ghost var opening := description;
    description := description + StatusLine(issue.status);
    description := description + PriorityLine(issue.priority);
    description := description + AssigneeLine(issue.assignee);
    assert description == opening + FixedLines(issue);
    ghost var fixed := description;
    if |issue.labels| > 0 {
      description := description + LabelsLine(issue.labels);
    }
    assert description == fixed + LabelsPart(issue);
    ghost var labelled := description;
    if Truthy(additionalInfo) {
      description := description + AdditionalBlock(additionalInfo.value);
    }
    assert description == labelled + AdditionalPart(additionalInfo);
  }

  /** The original description follows the header exactly when it is truthy;
      otherwise the status line does. */
  lemma DescriptionOpening(issue: IssueInfo, additionalInfo: Option<string>)
    ensures var d := DescriptionOf(issue, additionalInfo);
            && (Truthy(issue.description) <==>
                  StartsWith(d, Header(issue.key) + OriginalBlock(issue.description.GetOr(""))))
            && (!Truthy(issue.description) <==>
                  StartsWith(d, Header(issue.key) + StatusLine(issue.status)))
  {
    if Truthy(issue.description) {
      OpeningWithOriginal(issue, additionalInfo);
    } else {
      OpeningWithoutOriginal(issue, additionalInfo);
    }
  }

  lemma OpeningWithOriginal(issue: IssueInfo, additionalInfo: Option<string>)
    requires Truthy(issue.description)
    ensures var d := DescriptionOf(issue, additionalInfo);
            && StartsWith(d, Header(issue.key) + OriginalBlock(issue.description.GetOr("")))
            && !StartsWith(d, Header(issue.key) + StatusLine(issue.status))
  {
    var o := OriginalBlock(issue.description.GetOr(""));
    assert OriginalPart(issue) == o;
    PrefixOfFive(Header(issue.key), o, FixedLines(issue), LabelsPart(issue), AdditionalPart(additionalInfo));
    BlocksDiffer(issue.description.GetOr(""), issue.status);
    SecondBlockDecides(DescriptionOf(issue, additionalInfo), Header(issue.key), o, StatusLine(issue.status));
  }

  lemma OpeningWithoutOriginal(issue: IssueInfo, additionalInfo: Option<string>)
    requires !Truthy(issue.description)
    ensures var d := DescriptionOf(issue, additionalInfo);
            && !StartsWith(d, Header(issue.key) + OriginalBlock(issue.description.GetOr("")))
            && StartsWith(d, Header(issue.key) + StatusLine(issue.status))
  {
    var st := StatusLine(issue.status);
    assert OriginalPart(issue) == "";
    PrefixPastEmpty(Header(issue.key), st, PriorityLine(issue.priority), AssigneeLine(issue.assignee),
                    LabelsPart(issue), AdditionalPart(additionalInfo));
    BlocksDiffer(issue.description.GetOr(""), issue.status);
    SecondBlockDecides(DescriptionOf(issue, additionalInfo), Header(issue.key), st,
                       OriginalBlock(issue.description.GetOr("")));
  }

  lemma PrefixOfFive(h: string, o: string, f: string, l: string, a: string)
    ensures StartsWith(h + o + f + l + a, h + o)
  {
    assert (h + o + f + l + a)[..|h + o|] == h + o;
  }

  lemma PrefixPastEmpty(h: string, st: string, p: string, q: string, l: string, a: string)
    ensures StartsWith(h + "" + (st + p + q) + l + a, h + st)
  {
    assert (h + "" + (st + p + q) + l + a)[..|h + st|] == h + st;
  }

  /** Of two blocks that differ in their third character, a text that
      continues its head with the first does not continue it with the second. */
  lemma SecondBlockDecides(d: string, h: string, x: string, y: string)
    requires StartsWith(d, h + x) && |x| > 2 && |y| > 2 && x[2] != y[2]
    ensures !StartsWith(d, h + y)
  {
    assert d[|h| + 2] == (h + x)[|h| + 2] == x[2];
    assert (h + y)[|h| + 2] == y[2];
  }

  lemma BlocksDiffer(description: string, status: string)
    ensures |OriginalBlock(description)| > 2 && |StatusLine(status)| > 2
    ensures OriginalBlock(description)[2] != StatusLine(status)[2]
  {
    var o := "**Исходное описание:**\n";
    var st := "**Статус:** ";
    assert o[2] == 'И' && st[2] == 'С';
    assert OriginalBlock(description)[2] == o[2];
    assert StatusLine(status)[2] == st[2];
  }

  /** The additional information, when given, comes last; without it the
      text ends with the labels line, or with the assignee line when there
      are no labels. */
  lemma DescriptionClosing(issue: IssueInfo, additionalInfo: Option<string>)
    ensures var d := DescriptionOf(issue, additionalInfo);
            && (Truthy(additionalInfo) ==> EndsWith(d, AdditionalBlock(additionalInfo.value)))
            && (!Truthy(additionalInfo) && |issue.labels| > 0 ==> EndsWith(d, LabelsLine(issue.labels)))
            && (!Truthy(additionalInfo) && |issue.labels| == 0 ==> EndsWith(d, AssigneeLine(issue.assignee)))
  {
    var d := DescriptionOf(issue, additionalInfo);
    var front := Header(issue.key) + OriginalPart(issue) + StatusLine(issue.status)
      + PriorityLine(issue.priority);
    var labels := LabelsPart(issue);
    var extra := AdditionalPart(additionalInfo);
    assert d == front + AssigneeLine(issue.assignee) + labels + extra;
    EndsWithSuffix(front + AssigneeLine(issue.assignee) + labels, extra);
    if extra == [] {
      assert d == front + AssigneeLine(issue.assignee) + labels;
      EndsWithSuffix(front + AssigneeLine(issue.assignee), labels);
      if labels == [] {
        EndsWithSuffix(front, AssigneeLine(issue.assignee));
      }
    }
  }

  lemma EndsWithSuffix(a: string, b: string)
    ensures EndsWith(a + b, b)
  {
    assert (a + b)[|a + b| - |b|..] == b;
  }

  // ----------------------------------------------------------------- tables

  /** `getDefaultAssignee`: every category, and the fallback, name the same
      placeholder address. */
  function GetDefaultAssignee(category: string): (r: string)
    ensures r == "user@example.com"
  {
    var assignees := map[
      DEVOPS := "user@example.com",
      ANALYTICS := "user@example.com",
      BACKEND := "user@example.com",
      FRONTEND := "user@example.com",
      INFRASTRUCTURE := "user@example.com"];
    if category in assignees && assignees[category] != "" then assignees[category]
    else "user@example.com"
  }

  /** `mapPriority`: Jira's five priorities onto High, Medium and Low. */
  function MapPriority(jiraPriority: string): (r: string)
    ensures r in {"High", "Medium", "Low"}
    ensures r == "High" <==> jiraPriority in {"Highest", "High"}
    ensures r == "Low" <==> jiraPriority in {"Low", "Lowest"}
  {
    var priorityMap := map[
      "Highest" := "High",
      "High" := "High",
      "Medium" := "Medium",
      "Low" := "Low",
      "Lowest" := "Low"];
    if jiraPriority in priorityMap then priorityMap[jiraPriority] else "Medium"
  }

  /** `extractLabels`: the labels, or none. */
  function ExtractLabels(labels: Option<seq<string>>): (r: seq<string>)
    ensures labels.Some? ==> r == labels.value
    ensures labels.None? ==> r == []
  {
    labels.GetOr([])
  }
}
