/** The simplified OpenAI service: it reads an issue key and a category out
    of a Jira URL, builds the prompt for the model and checks the fields of
    the model's answer. */
module SimpleAi {
  import opened Wrappers
  import opened Text
  import opened Categories
  import opened UrlKeys
  import GeneratedContent
  import JiraUrl

  // ---------------------------------------------------------------- category

  /** Substrings of the lowercased URL, group by group in `CATEGORIES` order. */
  const URL_KEYWORDS: seq<seq<string>> := [
    ["devops", "ci-cd"],
    ["analytics", "dashboard"],
    ["backend", "api"],
    ["frontend", "ui"],
    ["infrastructure", "system"]]

  predicate UrlRule(url: string, g: int)
    requires 0 <= g < 5
  {
    ContainsAny(ToLower(url), URL_KEYWORDS[g])
  }

  /** `determineCategoryFromUrl`. */
  function CategoryFromUrl(url: string): (r: string)
    ensures r in CATEGORIES
  {
    if UrlRule(url, 0) then DEVOPS
    else if UrlRule(url, 1) then ANALYTICS
    else if UrlRule(url, 2) then BACKEND
    else if UrlRule(url, 3) then FRONTEND
    else if UrlRule(url, 4) then INFRASTRUCTURE
    else BACKEND
  }

  /** The first group with a keyword in the URL decides. */
  lemma CategoryFromUrlFirst(url: string, g: int)
    requires 0 <= g < 5 && UrlRule(url, g)
    requires forall h :: 0 <= h < g ==> !UrlRule(url, h)
    ensures CategoryFromUrl(url) == CATEGORIES[g]
  {
    if g > 0 { assert !UrlRule(url, 0); }
    if g > 1 { assert !UrlRule(url, 1); }
    if g > 2 { assert !UrlRule(url, 2); }
    if g > 3 { assert !UrlRule(url, 3); }
  }

  /** A URL with no keyword of any group is Backend. */
  lemma CategoryFromUrlDefault(url: string)
    requires forall h :: 0 <= h < 5 ==> !UrlRule(url, h)
    ensures CategoryFromUrl(url) == BACKEND
  {
    assert !UrlRule(url, 0) && !UrlRule(url, 1) && !UrlRule(url, 2);
    assert !UrlRule(url, 3) && !UrlRule(url, 4);
  }

  // ---------------------------------------------------------------- URL keys

  datatype UrlInfo = UrlInfo(
    issueKey: Option<string>,
    projectKey: Option<string>,
    baseUrl: string,
    originalUrl: string,
    isValid: bool)

  /** `parseJiraUrl`: unlike the Jira URL parser service, only an issue key
      makes the URL valid, and the board id is not read. */
  function ParseJiraUrl(url: string, parsed: Result<JiraUrl.UrlParts, string>): (r: Result<UrlInfo, string>)
    ensures parsed.Err? ==> r == Err(JiraUrl.URL_ERROR_PREFIX + parsed.error)
    ensures parsed.Ok? ==> r.Ok? && r.value.originalUrl == url
    ensures parsed.Ok? ==> r.value.baseUrl == parsed.value.protocol + "//" + parsed.value.host
    ensures r.Ok? ==> (r.value.isValid <==> IssueKey(url).Some?)
    ensures r.Ok? ==> r.value.issueKey == IssueKey(url) && r.value.projectKey == ProjectKey(url)
  {
    match parsed
    case Err(message) => Err(JiraUrl.URL_ERROR_PREFIX + message)
    case Ok(parts) =>
      var issueKey := IssueKey(url);
      Ok(UrlInfo(issueKey, ProjectKey(url), parts.protocol + "//" + parts.host, url, issueKey.Some?))
  }

  /** Text without a dash holds no issue key. */
  lemma NoDashNoKey(s: string)
    requires '-' !in s
    ensures IssueKey(s).None?
  {
    forall i: nat ensures !KeyAt(s, i) {
      if i < |s| {
        var j := ClassEnd(s, i, Upper);
        if j < |s| {
          assert s[j] in s;
        }
      }
    }
    IssueKeyLeftmost(s);
  }

  /** A board URL naming only a project is valid for the Jira URL parser
      service but not here. */
  lemma ProjectKeyAloneInvalid(key: string, rest: string, parts: JiraUrl.UrlParts)
    requires key != [] && AllIn(key, Upper)
    requires rest == [] || !InClass(rest[0], Upper)
    requires '-' !in rest
    ensures var url := PROJECT_KEY_MARKER + key + rest;
            var simple := ParseJiraUrl(url, Ok(parts));
            var full := JiraUrl.ParseJiraUrl(url, Ok(parts));
            simple.Ok? && !simple.value.isValid && full.Ok? && full.value.isValid
  {
    var url := PROJECT_KEY_MARKER + key + rest;
    CaptureFront(PROJECT_KEY_MARKER, key, Upper, rest);
    assert '-' !in PROJECT_KEY_MARKER;
    assert '-' !in key;
    assert '-' !in url;
    NoDashNoKey(url);
  }

  // ------------------------------------------------------------------ prompt

  const PROMPT_OPEN := "\nСоздай техническое задание для задачи категории \""
  const PROMPT_MIDDLE := "\".\n\nИсходное описание: \""
  const PROMPT_CLOSE :=
    "\"\n\nВерни результат в формате JSON:\n\n{\n"
    + "  \"title\": \"Название задачи\",\n"
    + "  \"description\": \"Подробное описание задачи в формате Jira\",\n"
    + "  \"priority\": \"Low/Medium/High\",\n"
    + "  \"labels\": [\"метка1\", \"метка2\"],\n"
    + "  \"assignee_suggestion\": \"Предложение исполнителя\",\n"
    + "  \"acceptance_criteria\": [\n    \"критерий 1\",\n    \"критерий 2\",\n    \"критерий 3\"\n  ],\n"
    + "  \"technical_notes\": \"Технические заметки (только для Backend/DevOps)\",\n"
    + "  \"ui_notes\": \"UI/UX заметки (только для Frontend)\",\n"
    + "  \"infrastructure_notes\": \"Инфраструктурные заметки (только для Инфраструктура)\",\n"
    + "  \"analytics_notes\": \"Аналитические заметки (только для Аналитика)\"\n}\n\n"
    + "Важно:\n"
    + "- Используй профессиональную терминологию\n"
    + "- Описание должно быть готово для копирования в Jira\n"
    + "- Критерии готовности должны быть измеримыми\n"
    + "- Приоритет должен соответствовать важности задачи\n"
    + "- Добавь релевантные метки\n"
    + "- Заполни только те поля, которые соответствуют категории задачи\n"

  /** `buildPrompt(description, category)`. */
  function BuildPrompt(description: string, category: string): string {
    PROMPT_OPEN + category + PROMPT_MIDDLE + description + PROMPT_CLOSE
  }

  /** The prompt quotes the category and the description as given. */
  lemma BuildPromptEmbeds(description: string, category: string)
    ensures Contains(BuildPrompt(description, category), category)
    ensures Contains(BuildPrompt(description, category), description)
    ensures StartsWith(BuildPrompt(description, category), PROMPT_OPEN + category + PROMPT_MIDDLE)
  {
    EmbedsSecondAndFourth(PROMPT_OPEN, category, PROMPT_MIDDLE, description, PROMPT_CLOSE);
  }

  // -------------------------------------------------------- generated answer

  /** The fields this service requires of the model's answer. */
  const REQUIRED_FIELDS := ["title", "description", "priority", "labels"]

  /** `parseGeneratedContent`, with this service's required fields. */
  function ParseGeneratedContent(content: string, decode: string -> Result<GeneratedContent.JsonObject, string>)
    : (r: Result<GeneratedContent.JsonObject, string>)
    ensures r.Ok? ==> forall f :: f in REQUIRED_FIELDS ==> GeneratedContent.TruthyValue(GeneratedContent.Field(r.value, f))
  {
    GeneratedContent.ParseGeneratedContent(content, decode, REQUIRED_FIELDS)
  }

  /** An answer with a title and a description but no priority and no labels
      is refused, naming the two missing fields in order. */
  lemma MissingPriorityAndLabels(content: string, decode: string -> Result<GeneratedContent.JsonObject, string>,
                                 obj: GeneratedContent.JsonObject)
    requires GeneratedContent.JsonSpan(content).Some?
    requires decode(GeneratedContent.JsonSpan(content).value) == Ok(obj)
    requires GeneratedContent.TruthyValue(GeneratedContent.Field(obj, "title"))
    requires GeneratedContent.TruthyValue(GeneratedContent.Field(obj, "description"))
    requires "priority" !in obj && "labels" !in obj
    ensures ParseGeneratedContent(content, decode) ==
              Err(GeneratedContent.PARSE_ERROR_PREFIX + GeneratedContent.MISSING_PREFIX + "priority, labels")
  {
    MissingPriorityAndLabelsFields(obj);
    assert Join(["priority", "labels"], ", ") == "priority, labels";
  }

  lemma MissingPriorityAndLabelsFields(obj: GeneratedContent.JsonObject)
    requires GeneratedContent.TruthyValue(GeneratedContent.Field(obj, "title"))
    requires GeneratedContent.TruthyValue(GeneratedContent.Field(obj, "description"))
    requires "priority" !in obj && "labels" !in obj
    ensures GeneratedContent.MissingFields(obj, REQUIRED_FIELDS) == ["priority", "labels"]
  {
    GeneratedContent.MissingLastTwo(obj, "title", "description", "priority", "labels");
  }

  // ----------------------------------------------------- generation request

  const NO_KEY_ERROR := "Не удалось извлечь ключ задачи из URL"

  /** Separates the caller's description from the issue key in the prompt. */
  const KEY_TAG := " Задача: "

  /** What `generateTaskFromUrl` hands to the generator, and tags the
      generated task with. */
  datatype Request = Request(prompt: string, sourceUrl: string, sourceIssueKey: string, category: string)

  /** The steps of `generateTaskFromUrl` before the model is called. */
  function RequestFromUrl(url: string, description: string, parsed: Result<JiraUrl.UrlParts, string>)
    : (r: Result<Request, string>)
    ensures parsed.Err? ==> r == Err(JiraUrl.URL_ERROR_PREFIX + parsed.error)
    ensures parsed.Ok? ==> (r.Err? <==> IssueKey(url).None?)
    ensures parsed.Ok? && IssueKey(url).None? ==> r == Err(NO_KEY_ERROR)
    ensures r.Ok? ==> Some(r.value.sourceIssueKey) == IssueKey(url) && r.value.sourceUrl == url
    ensures r.Ok? ==> r.value.category == CategoryFromUrl(url)
    ensures r.Ok? ==> r.value.prompt == BuildPrompt(description + KEY_TAG + r.value.sourceIssueKey, r.value.category)
  {
    match ParseJiraUrl(url, parsed)
    case Err(message) => Err(message)
    case Ok(info) =>
      match info.issueKey
      case None => Err(NO_KEY_ERROR)
      case Some(key) =>
        var category := CategoryFromUrl(url);
        Ok(Request(BuildPrompt(description + KEY_TAG + key, category), url, key, category))
  }

  /** The prompt of a request names the issue key. */
  lemma RequestNamesKey(url: string, description: string, parsed: Result<JiraUrl.UrlParts, string>)
    requires RequestFromUrl(url, description, parsed).Ok?
    ensures var r := RequestFromUrl(url, description, parsed).value;
            Contains(r.prompt, r.sourceIssueKey) && Contains(r.prompt, r.category)
  {
    var r := RequestFromUrl(url, description, parsed).value;
    PromptNamesKey(description, r.sourceIssueKey, r.category);
  }

  /** The prompt built for a key names both the key and the category. */
  lemma PromptNamesKey(description: string, key: string, category: string)
    ensures var p := BuildPrompt(description + KEY_TAG + key, category);
            Contains(p, key) && Contains(p, category)
  {
    EmbedsTaggedKey(PROMPT_OPEN, category, PROMPT_MIDDLE, description + KEY_TAG, key, PROMPT_CLOSE);
  }
}
