/** The Forge plugin's template service: per-category task templates and
    default assignees, kept in the app's key-value storage under one key,
    with built-in defaults used while nothing is stored. */
module Templates {
  import opened Wrappers
  import opened Text
  import opened Categories

  datatype TemplateText = TemplateText(title: string, description: string)

  datatype CategoryTemplate = CategoryTemplate(
    name: string, priority: string, labels: seq<string>, assigneeRule: string, template: TemplateText)

  /** The stored object: templates by category, assignees by team. */
  datatype TemplateSet = TemplateSet(categories: map<string, CategoryTemplate>, defaultAssignees: map<string, string>)

  const STORAGE_KEY := "templates"
  const BACKEND_TEAM := "backend-team"
  const DEFAULT_EMAIL := "user@example.com"

  // --------------------------------------------------------------- defaults

  const DESCRIPTION_HEAD :=
    "🎯 **Цель:** {{goal}}\n\n📌 **Что нужно сделать:**\n\n{{tasks}}\n\n"
    + "✅ **Критерии готовности:**\n\n{{acceptance_criteria}}\n\n"

  /** Every default description closes with the priority and then the
      assignee placeholders. */
  const DESCRIPTION_TAIL := "🏷️ **Приоритет:** {{priority}}\n\n👥 **Исполнитель:** {{assignee}}"

  /** The section each category adds between the common head and tail. */
  const ANALYTICS_SECTION := "📊 **Метрики для отслеживания:**\n\n{{metrics}}\n\n"
  const BACKEND_SECTION := "🔧 **Технические требования:**\n\n{{technical_requirements}}\n\n"
  const FRONTEND_SECTION := "🎨 **UI/UX требования:**\n\n{{ui_requirements}}\n\n"
  const INFRASTRUCTURE_SECTION := "🛠️ **Инфраструктурные требования:**\n\n{{infrastructure_requirements}}\n\n"

  /** A default template: `[name] {{task_summary}}` as title, and the
      common description with the category's own section, if any. */
  function DefaultEntry(name: string, priority: string, labels: seq<string>, team: string, section: string): CategoryTemplate {
    CategoryTemplate(name, priority, labels, team,
      TemplateText("[" + name + "] {{task_summary}}", DESCRIPTION_HEAD + section + DESCRIPTION_TAIL))
  }

  /** `getDefaultTemplates()`. */
  function DefaultTemplates(): TemplateSet {
    TemplateSet(
      map[
        DEVOPS := DefaultEntry(DEVOPS, "Medium", ["devops", "infrastructure"], "devops-team", ""),
        ANALYTICS := DefaultEntry(ANALYTICS, "High", ["analytics", "data"], "analytics-team", ANALYTICS_SECTION),
        BACKEND := DefaultEntry(BACKEND, "Medium", ["backend", "development"], BACKEND_TEAM, BACKEND_SECTION),
        FRONTEND := DefaultEntry(FRONTEND, "Medium", ["frontend", "ui", "ux"], "frontend-team", FRONTEND_SECTION),
        INFRASTRUCTURE := DefaultEntry(INFRASTRUCTURE, "High", ["infrastructure", "system"], "infrastructure-team", INFRASTRUCTURE_SECTION)
      ],
      map[
        "devops-team" := DEFAULT_EMAIL,
        "analytics-team" := DEFAULT_EMAIL,
        BACKEND_TEAM := DEFAULT_EMAIL,
        "infrastructure-team" := DEFAULT_EMAIL,
        "frontend-team" := DEFAULT_EMAIL
      ])
  }

  lemma DefaultEntryShape(name: string, priority: string, labels: seq<string>, team: string, section: string)
    ensures var t := DefaultEntry(name, priority, labels, team, section);
            t.name == name && t.assigneeRule == team && EndsWith(t.template.description, DESCRIPTION_TAIL)
  {
    var desc := DESCRIPTION_HEAD + section + DESCRIPTION_TAIL;
    assert desc[|desc| - |DESCRIPTION_TAIL|..] == DESCRIPTION_TAIL;
  }

  /** The defaults hold exactly the five categories. */
  lemma DefaultTemplatesKeys()
    ensures DefaultTemplates().categories.Keys == set c | c in CATEGORIES
  {
  }

  /** Each default is named after its key, titled `[name] {{task_summary}}`,
      ends its description with the priority and assignee placeholders, and
      names a team that has a default assignee. */
  lemma DefaultTemplatesShape()
    ensures forall c :: c in DefaultTemplates().categories ==>
              var t := DefaultTemplates().categories[c];
              && t.name == c
              && t.template.title == "[" + c + "] {{task_summary}}"
              && EndsWith(t.template.description, DESCRIPTION_TAIL)
              && t.assigneeRule in DefaultTemplates().defaultAssignees
  {
    var d := DefaultTemplates();
    forall c | c in d.categories
      ensures var t := d.categories[c];
              && t.name == c
              && t.template.title == "[" + c + "] {{task_summary}}"
              && EndsWith(t.template.description, DESCRIPTION_TAIL)
              && t.assigneeRule in d.defaultAssignees
    {
      if c == DEVOPS {
        DefaultEntryShape(DEVOPS, "Medium", ["devops", "infrastructure"], "devops-team", "");
      } else if c == ANALYTICS {
        DefaultEntryShape(ANALYTICS, "High", ["analytics", "data"], "analytics-team", ANALYTICS_SECTION);
      } else if c == BACKEND {
        DefaultEntryShape(BACKEND, "Medium", ["backend", "development"], BACKEND_TEAM, BACKEND_SECTION);
      } else if c == FRONTEND {
        DefaultEntryShape(FRONTEND, "Medium", ["frontend", "ui", "ux"], "frontend-team", FRONTEND_SECTION);
      } else {
        DefaultEntryShape(INFRASTRUCTURE, "High", ["infrastructure", "system"], "infrastructure-team", INFRASTRUCTURE_SECTION);
      }
    }
  }

  // ----------------------------------------------------------------- lookups

  /** `templates.categories[category] || templates.categories['Backend']`. */
  function TemplateFor(ts: TemplateSet, category: string): (r: Option<CategoryTemplate>)
    ensures category in ts.categories ==> r == Some(ts.categories[category])
    ensures category !in ts.categories && BACKEND in ts.categories ==> r == Some(ts.categories[BACKEND])
    ensures r.None? <==> category !in ts.categories && BACKEND !in ts.categories
  {
    if category in ts.categories then Some(ts.categories[category])
    else if BACKEND in ts.categories then Some(ts.categories[BACKEND])
    else None
  }

  /** `default_assignees[category] || default_assignees['backend-team']`:
      an empty address falls back as a missing one does. */
  function AssigneeFor(ts: TemplateSet, key: string): (r: Option<string>)
    ensures key in ts.defaultAssignees && ts.defaultAssignees[key] != "" ==> r == Some(ts.defaultAssignees[key])
    ensures !(key in ts.defaultAssignees && ts.defaultAssignees[key] != "") ==>
              r == if BACKEND_TEAM in ts.defaultAssignees then Some(ts.defaultAssignees[BACKEND_TEAM]) else None
    ensures r.Some? ==> r.value in ts.defaultAssignees.Values
  {
    if key in ts.defaultAssignees && ts.defaultAssignees[key] != "" then Some(ts.defaultAssignees[key])
    else if BACKEND_TEAM in ts.defaultAssignees then Some(ts.defaultAssignees[BACKEND_TEAM])
    else None
  }

  /** The default assignees are keyed by team, so asking with a category
      name gets the backend team's address. */
  lemma CategoryNameFallsBack(c: string)
    requires c in CATEGORIES
    ensures AssigneeFor(DefaultTemplates(), c) == Some(DEFAULT_EMAIL)
  {
  }

  /** `templates.categories[category] = template`. */
  function WithTemplate(ts: TemplateSet, category: string, template: CategoryTemplate): (r: TemplateSet)
    ensures r.categories.Keys == ts.categories.Keys + {category}
    ensures r.defaultAssignees == ts.defaultAssignees
    ensures forall c :: c in ts.categories && c != category ==> r.categories[c] == ts.categories[c]
  {
    ts.(categories := ts.categories[category := template])
  }

  /** `{ ...default_assignees, ...assignees }`. */
  function WithAssignees(ts: TemplateSet, assignees: map<string, string>): (r: TemplateSet)
    ensures r.categories == ts.categories
    ensures r.defaultAssignees.Keys == ts.defaultAssignees.Keys + assignees.Keys
    ensures forall k :: k in assignees ==> r.defaultAssignees[k] == assignees[k]
    ensures forall k :: k in ts.defaultAssignees && k !in assignees ==> r.defaultAssignees[k] == ts.defaultAssignees[k]
  {
    ts.(defaultAssignees := ts.defaultAssignees + assignees)
  }

  /** A saved template is the one read back for its category. */
  lemma SavedTemplateRead(ts: TemplateSet, category: string, template: CategoryTemplate)
    ensures TemplateFor(WithTemplate(ts, category, template), category) == Some(template)
  {
  }

  /** Merging twice is merging once with the later map winning. */
  lemma WithAssigneesTwice(ts: TemplateSet, first: map<string, string>, second: map<string, string>)
    ensures WithAssignees(WithAssignees(ts, first), second) == WithAssignees(ts, first + second)
  {
    var a := WithAssignees(WithAssignees(ts, first), second).defaultAssignees;
    var b := WithAssignees(ts, first + second).defaultAssignees;
    assert a.Keys == b.Keys;
    forall k | k in a ensures a[k] == b[k] {
    }
    assert a == b;
  }

  // --------------------------------------------------------------- service

  /** How the storage behaves during one call. */
  datatype StorageIo = Available | ReadFails(message: string) | WriteFails(message: string)

  const SAVE_FAILED := "Не удалось сохранить шаблон для категории "
  const UPDATE_FAILED := "Не удалось обновить исполнителей по умолчанию: "

  class TemplateService {
    const storageKey: string
    /** The app's key-value storage. */
    var storage: map<string, TemplateSet>

    constructor(store: map<string, TemplateSet>)
      ensures storageKey == STORAGE_KEY && storage == store
    {
      storageKey := STORAGE_KEY;
      storage := store;
    }

    /** `await storage.get(this.storageKey) || this.getDefaultTemplates()`. */
    function Stored(): TemplateSet
      reads this
    {
      if storageKey in storage then storage[storageKey] else DefaultTemplates()
    }

    /** `getAllTemplates()`: the defaults when the read fails. */
    function AllTemplates(io: StorageIo): (r: TemplateSet)
      reads this
      ensures io.ReadFails? ==> r == DefaultTemplates()
      ensures !io.ReadFails? && storageKey in storage ==> r == storage[storageKey]
      ensures !io.ReadFails? && storageKey !in storage ==> r == DefaultTemplates()
    {
      if io.ReadFails? then DefaultTemplates() else Stored()
    }

    /** `getTemplate(category)`: the stored template, else the stored
        Backend one; the default Backend template when the read fails. */
    function GetTemplate(category: string, io: StorageIo): (r: Option<CategoryTemplate>)
      reads this
      ensures io.ReadFails? ==> r == Some(DefaultTemplates().categories[BACKEND])
      ensures !io.ReadFails? ==> r == TemplateFor(Stored(), category)
    {
      if io.ReadFails? then Some(DefaultTemplates().categories[BACKEND]) else TemplateFor(Stored(), category)
    }

    /** `getDefaultAssignee(category)`. */
    function GetDefaultAssignee(category: string, io: StorageIo): (r: Option<string>)
      reads this
      ensures r == AssigneeFor(AllTemplates(io), category)
      ensures !io.ReadFails? && storageKey in storage ==> r == AssigneeFor(storage[storageKey], category)
      ensures io.ReadFails? || storageKey !in storage ==> r == AssigneeFor(DefaultTemplates(), category)
    {
      AssigneeFor(AllTemplates(io), category)
    }

    /** `saveTemplate(category, template)`: stores the whole set with that
        category replaced; a failed read or write stores nothing and
        reports the category and the cause. */
    method SaveTemplate(category: string, template: CategoryTemplate, io: StorageIo) returns (r: Result<(), string>)
      modifies this
      ensures io.Available? ==> r.Ok? && storage == old(storage)[storageKey := WithTemplate(old(Stored()), category, template)]
      ensures !io.Available? ==> r == Err(SAVE_FAILED + category + ": " + io.message) && storage == old(storage)
      ensures io.Available? ==> GetTemplate(category, Available) == Some(template)
    {
      if !io.Available? {
        return Err(SAVE_FAILED + category + ": " + io.message);
      }
      var templates := Stored();
      storage := storage[storageKey := WithTemplate(templates, category, template)];
      SavedTemplateRead(templates, category, template);
      r := Ok(());
    }

    /** `updateDefaultAssignees(assignees)`: merges into the current set,
        or into the defaults when the read fails, and stores the result; a
        failed write stores nothing. */
    method UpdateDefaultAssignees(assignees: map<string, string>, io: StorageIo) returns (r: Result<(), string>)
      modifies this
      ensures !io.WriteFails? ==> r.Ok? && storage == old(storage)[storageKey := WithAssignees(old(AllTemplates(io)), assignees)]
      ensures io.WriteFails? ==> r == Err(UPDATE_FAILED + io.message) && storage == old(storage)
      ensures !io.WriteFails? ==> forall k :: k in assignees && assignees[k] != "" ==> GetDefaultAssignee(k, Available) == Some(assignees[k])
    {
      var templates := AllTemplates(io);
      if io.WriteFails? {
        return Err(UPDATE_FAILED + io.message);
      }
      storage := storage[storageKey := WithAssignees(templates, assignees)];
      r := Ok(());
    }
  }
}
