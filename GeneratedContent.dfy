/** The handling of a language model's answer shared by the OpenAI services:
    finding the JSON object in the answer and checking its required fields,
    and filling a category template's placeholders with the generated
    content. */
module GeneratedContent {
  import opened Wrappers
  import opened Text
  import opened Seqs

  // ----------------------------------------------------------- JSON values

  /** A decoded JSON value; arrays of strings are the only arrays the
      generated content holds. */
  datatype Value = Null | Bool(b: bool) | Num(n: int) | Str(s: string) | Arr(items: seq<string>)

  type JsonObject = map<string, Value>

  /** JavaScript truthiness; every array is truthy, even an empty one. */
  predicate TruthyValue(v: Value) {
    match v
    case Null => false
    case Bool(b) => b
    case Num(n) => n != 0
    case Str(s) => s != ""
    case Arr(_) => true
  }

  /** `obj[field]`, with an absent field read as `undefined`. */
  function Field(obj: JsonObject, field: string): Value {
    if field in obj then obj[field] else Null
  }

  // ------------------------------------------------------------- JSON span

  function FirstIndexOf(s: string, c: char): (r: Option<nat>)
    ensures r.Some? ==> r.value < |s| && s[r.value] == c
    ensures r.Some? ==> forall k :: 0 <= k < r.value ==> s[k] != c
    ensures r.None? ==> forall k :: 0 <= k < |s| ==> s[k] != c
    decreases |s|
  {
    if s == [] then None
    else if s[0] == c then Some(0)
    else match FirstIndexOf(s[1..], c)
      case Some(i) => Some(i + 1)
      case None => None
  }

  function LastIndexOf(s: string, c: char): (r: Option<nat>)
    ensures r.Some? ==> r.value < |s| && s[r.value] == c
    ensures r.Some? ==> forall k :: r.value < k < |s| ==> s[k] != c
    ensures r.None? ==> forall k :: 0 <= k < |s| ==> s[k] != c
    decreases |s|
  {
    if s == [] then None
    else if s[|s| - 1] == c then Some(|s| - 1)
    else LastIndexOf(s[..|s| - 1], c)
  }

  /** `content.match(/\{[\s\S]*\}/)?.[0]`: from the first `{` to the last
      `}`, when that `}` comes after it. */
  function JsonSpan(content: string): (r: Option<string>)
    ensures r.Some? ==> |r.value| >= 2 && r.value[0] == '{' && r.value[|r.value| - 1] == '}'
  {
    match (FirstIndexOf(content, '{'), LastIndexOf(content, '}'))
    case (Some(i), Some(j)) => if i < j then Some(content[i..j + 1]) else None
    case _ => None
  }

  /** There is a span exactly when some `{` has a `}` after it; then the
      span is the widest such piece of the text. */
  lemma JsonSpanExists(content: string)
    ensures JsonSpan(content).Some? <==>
              exists i, j :: 0 <= i < j < |content| && content[i] == '{' && content[j] == '}'
    ensures JsonSpan(content).Some? ==>
              exists p, q :: content == p + JsonSpan(content).value + q && '{' !in p && '}' !in q
  {
    forall i, j | 0 <= i < j < |content| && content[i] == '{' && content[j] == '}'
      ensures JsonSpan(content).Some?
    {
      SpanOfPair(content, i, j);
    }
    var fi, lj := FirstIndexOf(content, '{'), LastIndexOf(content, '}');
    if fi.Some? && lj.Some? && fi.value < lj.value {
      var i, j := fi.value, lj.value;
      assert JsonSpan(content) == Some(content[i..j + 1]);
      assert content[i] == '{' && content[j] == '}';
      SpanSplit(content, i, j);
    }
  }

  /** A `{` before a `}` is enough for a span. */
  lemma SpanOfPair(content: string, i: int, j: int)
    requires 0 <= i < j < |content| && content[i] == '{' && content[j] == '}'
    ensures JsonSpan(content).Some?
  {
    FirstIndexOfAtMost(content, '{', i);
    LastIndexOfAtLeast(content, '}', j);
  }

  lemma FirstIndexOfAtMost(s: string, c: char, i: int)
    requires 0 <= i < |s| && s[i] == c
    ensures FirstIndexOf(s, c).Some? && FirstIndexOf(s, c).value <= i
  {
  }

  lemma LastIndexOfAtLeast(s: string, c: char, j: int)
    requires 0 <= j < |s| && s[j] == c
    ensures LastIndexOf(s, c).Some? && LastIndexOf(s, c).value >= j
  {
  }

  /** Cutting the text at the first `{` and after the last `}`. */
  lemma SpanSplit(content: string, i: nat, j: nat)
    requires i < j < |content|
    requires forall k :: 0 <= k < i ==> content[k] != '{'
    requires forall k :: j < k < |content| ==> content[k] != '}'
    ensures exists p, q :: content == p + content[i..j + 1] + q && '{' !in p && '}' !in q
  {
    var p, q := content[..i], content[j + 1..];
    assert content == p + content[i..j + 1] + q;
    assert '{' !in p by {
      forall k | 0 <= k < |p| ensures p[k] != '{' { assert p[k] == content[k]; }
    }
    assert '}' !in q by {
      forall k | 0 <= k < |q| ensures q[k] != '}' { assert q[k] == content[j + 1 + k]; }
    }
  }

  /** An object written between text with no `{` before it and no `}`
      after it is found whole. */
  lemma JsonSpanOf(p: string, body: string, q: string)
    requires '{' !in p && '}' !in q
    ensures JsonSpan(p + "{" + body + "}" + q) == Some("{" + body + "}")
  {
    var s := p + "{" + body + "}" + q;
    var i, j := |p|, |p| + |body| + 1;
    assert s[i] == '{' && s[j] == '}';
    forall k | 0 <= k < i ensures s[k] != '{' {
      assert s[k] == p[k];
    }
    forall k | j < k < |s| ensures s[k] != '}' {
      assert s[k] == q[k - j - 1];
    }
    assert FirstIndexOf(s, '{') == Some(i);
    assert LastIndexOf(s, '}') == Some(j);
    assert s[i..j + 1] == "{" + body + "}";
  }

  // ------------------------------------------------------- required fields

  const PARSE_ERROR_PREFIX := "Ошибка парсинга сгенерированного контента: "
  const NO_JSON := "Не удалось найти JSON в ответе OpenAI"
  const MISSING_PREFIX := "Отсутствуют обязательные поля: "

  /** The fields the OpenAI services require of a generated task. */
  const TASK_FIELDS := ["task_summary", "goal", "tasks", "acceptance_criteria"]

  /** `requiredFields.filter(field => !parsed[field])`. */
  function MissingFields(obj: JsonObject, required: seq<string>): (r: seq<string>)
    ensures |r| <= |required|
  {
    if required == [] then []
    else MissingHead(obj, required[0]) + MissingFields(obj, required[1..])
  }

  function MissingHead(obj: JsonObject, f: string): seq<string> {
    if TruthyValue(Field(obj, f)) then [] else [f]
  }

  /** A required field is reported exactly when it is falsy. */
  lemma {:induction false} MissingFieldsIff(obj: JsonObject, required: seq<string>, f: string)
    ensures f in MissingFields(obj, required) <==> f in required && !TruthyValue(Field(obj, f))
  {
    if required != [] {
      MissingFieldsIff(obj, required[1..], f);
      assert required == [required[0]] + required[1..];
    }
  }

  /** The missing fields are listed in the order of `required`. */
  lemma {:induction false} MissingFieldsOrder(obj: JsonObject, a: seq<string>, b: seq<string>)
    ensures MissingFields(obj, a + b) == MissingFields(obj, a) + MissingFields(obj, b)
  {
    if a == [] {
      assert a + b == b;
    } else {
      var f, tail := a[0], a[1..];
      calc {
        MissingFields(obj, a + b);
        { assert a + b == [f] + (tail + b); MissingFieldsCons(obj, f, tail + b); }
        MissingHead(obj, f) + MissingFields(obj, tail + b);
        { MissingFieldsOrder(obj, tail, b); }
        MissingHead(obj, f) + (MissingFields(obj, tail) + MissingFields(obj, b));
        (MissingHead(obj, f) + MissingFields(obj, tail)) + MissingFields(obj, b);
        { assert a == [f] + tail; MissingFieldsCons(obj, f, tail); }
        MissingFields(obj, a) + MissingFields(obj, b);
      }
    }
  }

  lemma MissingFieldsCons(obj: JsonObject, f: string, rest: seq<string>)
    ensures MissingFields(obj, [f] + rest) == MissingHead(obj, f) + MissingFields(obj, rest)
  {
    assert ([f] + rest)[0] == f && ([f] + rest)[1..] == rest;
  }

  /** Of four required fields, the last two are reported when only they
      are falsy. */
  lemma MissingLastTwo(obj: JsonObject, a: string, b: string, c: string, d: string)
    requires TruthyValue(Field(obj, a)) && TruthyValue(Field(obj, b))
    requires !TruthyValue(Field(obj, c)) && !TruthyValue(Field(obj, d))
    ensures MissingFields(obj, [a, b, c, d]) == [c, d]
  {
    var ab, cd := [a, b], [c, d];
    MissingPair(obj, a, b);
    MissingPair(obj, c, d);
    MissingFieldsOrder(obj, ab, cd);
    assert ab + cd == [a, b, c, d];
  }

  lemma MissingPair(obj: JsonObject, a: string, b: string)
    ensures MissingFields(obj, [a, b]) == MissingHead(obj, a) + MissingHead(obj, b)
  {
    assert [a, b][1..] == [b];
    assert [b][1..] == [];
  }

  /** An object without any of the fields reports every one of them, in
      order. */
  lemma {:induction false} MissingFieldsEmpty(required: seq<string>)
    ensures MissingFields(map[], required) == required
  {
    if required != [] {
      MissingFieldsEmpty(required[1..]);
    }
  }

  /** `parseGeneratedContent`: `decode` stands for `JSON.parse`, giving the
      object or the parser's error message. */
  function ParseGeneratedContent(content: string, decode: string -> Result<JsonObject, string>,
                                 required: seq<string>): (r: Result<JsonObject, string>)
    ensures JsonSpan(content).None? ==> r == Err(PARSE_ERROR_PREFIX + NO_JSON)
    ensures r.Ok? ==> JsonSpan(content).Some? && decode(JsonSpan(content).value) == Ok(r.value)
    ensures r.Ok? ==> forall f :: f in required ==> TruthyValue(Field(r.value, f))
    ensures JsonSpan(content).Some? && decode(JsonSpan(content).value).Ok? ==>
              var obj := decode(JsonSpan(content).value).value;
              (r.Ok? <==> forall f :: f in required ==> TruthyValue(Field(obj, f)))
  {
    match JsonSpan(content)
    case None => Err(PARSE_ERROR_PREFIX + NO_JSON)
    case Some(span) =>
      match decode(span)
      case Err(message) => Err(PARSE_ERROR_PREFIX + message)
      case Ok(obj) =>
        var missing := MissingFields(obj, required);
        if |missing| > 0 then
          MissingFieldsIff(obj, required, missing[0]);
          Err(PARSE_ERROR_PREFIX + MISSING_PREFIX + Join(missing, ", "))
        else
          assert forall f :: f in required ==> TruthyValue(Field(obj, f)) by {
            forall f | f in required ensures TruthyValue(Field(obj, f)) {
              MissingFieldsIff(obj, required, f);
            }
          }
          Ok(obj)
  }

  /** `parseGeneratedContent` of the OpenAI services, with their required
      fields. */
  function ParseTaskContent(content: string, decode: string -> Result<JsonObject, string>)
    : (r: Result<JsonObject, string>)
    ensures r.Ok? ==> forall f :: f in TASK_FIELDS ==> TruthyValue(Field(r.value, f))
  {
    ParseGeneratedContent(content, decode, TASK_FIELDS)
  }

  /** A decoded object that lacks required fields is refused, naming the
      missing ones in order. */
  lemma MissingFieldsRefused(content: string, decode: string -> Result<JsonObject, string>,
                             required: seq<string>, obj: JsonObject)
    requires JsonSpan(content).Some? && decode(JsonSpan(content).value) == Ok(obj)
    requires MissingFields(obj, required) != []
    ensures ParseGeneratedContent(content, decode, required) ==
              Err(PARSE_ERROR_PREFIX + MISSING_PREFIX + Join(MissingFields(obj, required), ", "))
  {
  }

  /** An answer whose object is empty is refused, naming all four fields in
      order. */
  lemma EmptyObjectRefused(content: string, decode: string -> Result<JsonObject, string>)
    requires JsonSpan(content).Some? && decode(JsonSpan(content).value) == Ok(map[])
    ensures ParseTaskContent(content, decode) ==
              Err(PARSE_ERROR_PREFIX + MISSING_PREFIX + Join(TASK_FIELDS, ", "))
  {
    MissingFieldsEmpty(TASK_FIELDS);
    MissingFieldsRefused(content, decode, TASK_FIELDS, map[]);
  }

  // ------------------------------------------------------------ templates

  /** A category template: a title and a description with `{{…}}`
      placeholders. */
  datatype Template = Template(title: string, description: string)

  /** The generated content after its required fields were checked. */
  datatype Content = Content(
    taskSummary: string,
    goal: string,
    tasks: seq<string>,
    acceptanceCriteria: seq<string>,
    priority: Option<string>,
    labels: Option<seq<string>>,
    technicalRequirements: Option<string>,
    uiRequirements: Option<string>,
    infrastructureRequirements: Option<string>,
    metrics: Option<string>)

  datatype Formatted = Formatted(title: string, description: string, labels: seq<string>, priority: string)

  const AUTO_ASSIGNEE := "Автоматическое назначение"

  /** `items.map(item => `- ${item}`).join('\n')`. */
  function Bullets(items: seq<string>): string {
    Join(Map(items, Bullet), "\n")
  }

  function Bullet(item: string): string {
    "- " + item
  }

  lemma BulletNoBreak(item: string)
    requires '\n' !in item
    ensures '\n' !in Bullet(item)
  {
    var b := Bullet(item);
    forall k | 0 <= k < |b| ensures b[k] != '\n' {
      if k >= 2 {
        assert b[k] == item[k - 2];
      }
    }
  }

  /** The bullet lines come back one item per line, when no item holds a
      line break. */
  lemma BulletsLines(items: seq<string>)
    requires items != []
    requires forall i :: 0 <= i < |items| ==> '\n' !in items[i]
    ensures Split(Bullets(items), '\n') == Map(items, Bullet)
  {
    var lines := Map(items, Bullet);
    forall i | 0 <= i < |lines| ensures '\n' !in lines[i] {
      BulletNoBreak(items[i]);
    }
    SplitJoin(lines, '\n');
  }

  /** The placeholder replacements, in the order they are applied; the four
      optional ones only when their field is truthy. */
  function Substitutions(content: Content): seq<(string, string)> {
    FixedSubstitutions(content)
    + Optional("{{technical_requirements}}", content.technicalRequirements)
    + Optional("{{ui_requirements}}", content.uiRequirements)
    + Optional("{{infrastructure_requirements}}", content.infrastructureRequirements)
    + Optional("{{metrics}}", content.metrics)
  }

  /** The five replacements made whatever the content holds. */
  function FixedSubstitutions(content: Content): seq<(string, string)> {
    [("{{goal}}", content.goal),
     ("{{tasks}}", Bullets(content.tasks)),
     ("{{acceptance_criteria}}", Bullets(content.acceptanceCriteria)),
     ("{{priority}}", OrElse(content.priority, "Medium")),
     ("{{assignee}}", AUTO_ASSIGNEE)]
  }

  function Optional(placeholder: string, value: Option<string>): seq<(string, string)> {
    if Truthy(value) then [(placeholder, value.value)] else []
  }

  /** The replacements applied one after the other, each to the first
      occurrence of its placeholder. */
  function ReplaceEach(text: string, subs: seq<(string, string)>): string {
    if subs == [] then text
    else
      var last := subs[|subs| - 1];
      ReplaceFirst(ReplaceEach(text, subs[..|subs| - 1]), last.0, last.1)
  }

  lemma ReplaceEachSnoc(text: string, subs: seq<(string, string)>, s: (string, string))
    ensures ReplaceEach(text, subs + [s]) == ReplaceFirst(ReplaceEach(text, subs), s.0, s.1)
  {
    assert (subs + [s])[..|subs|] == subs;
  }

  /** `formatContentByTemplate`. */
  method FormatContentByTemplate(content: Content, template: Template) returns (f: Formatted)
    ensures f.title == ReplaceFirst(template.title, "{{task_summary}}", content.taskSummary)
    ensures f.description == ReplaceEach(template.description, Substitutions(content))
    ensures f.labels == content.labels.GetOr([])
    ensures f.priority == OrElse(content.priority, "Medium")
  {
    var title := ReplaceFirst(template.title, "{{task_summary}}", content.taskSummary);
    var text := template.description;
    var description := ReplaceFixed(text, content);
    ghost var done := FixedSubstitutions(content);
    description, done := ReplaceIfTruthy(text, description, done,
                                         "{{technical_requirements}}", content.technicalRequirements);
    description, done := ReplaceIfTruthy(text, description, done,
                                         "{{ui_requirements}}", content.uiRequirements);
    description, done := ReplaceIfTruthy(text, description, done,
                                         "{{infrastructure_requirements}}", content.infrastructureRequirements);
    description, done := ReplaceIfTruthy(text, description, done, "{{metrics}}", content.metrics);
    f := Formatted(title, description, content.labels.GetOr([]), OrElse(content.priority, "Medium"));
  }

  /** The five replacements made whatever the content holds. */
  method ReplaceFixed(text: string, content: Content) returns (description: string)
    ensures description == ReplaceEach(text, FixedSubstitutions(content))
  {
    description := text;
    ghost var done: seq<(string, string)> := [];
    description, done := ReplaceStep(text, description, done, "{{goal}}", content.goal);
    description, done := ReplaceStep(text, description, done, "{{tasks}}", Bullets(content.tasks));
    description, done := ReplaceStep(text, description, done, "{{acceptance_criteria}}",
                                     Bullets(content.acceptanceCriteria));
    description, done := ReplaceStep(text, description, done, "{{priority}}",
                                     OrElse(content.priority, "Medium"));
    description, done := ReplaceStep(text, description, done, "{{assignee}}", AUTO_ASSIGNEE);
    assert done == FixedSubstitutions(content);
  }

  /** `description = description.replace(placeholder, value)`. */
  method ReplaceStep(text: string, description: string, ghost done: seq<(string, string)>,
                     placeholder: string, value: string)
    returns (d: string, ghost done': seq<(string, string)>)
    requires description == ReplaceEach(text, done)
    ensures done' == done + [(placeholder, value)]
    ensures d == ReplaceEach(text, done')
  {
    d := ReplaceFirst(description, placeholder, value);
    ReplaceEachSnoc(text, done, (placeholder, value));
    done' := done + [(placeholder, value)];
  }

  /** `if (value) { description = description.replace(placeholder, value); }` */
  method ReplaceIfTruthy(text: string, description: string, ghost done: seq<(string, string)>,
                         placeholder: string, value: Option<string>)
    returns (d: string, ghost done': seq<(string, string)>)
    requires description == ReplaceEach(text, done)
    ensures done' == done + Optional(placeholder, value)
    ensures d == ReplaceEach(text, done')
  {
    d, done' := description, done;
    if Truthy(value) {
      d := ReplaceFirst(description, placeholder, value.value);
      ReplaceEachSnoc(text, done, (placeholder, value.value));
      done' := done + [(placeholder, value.value)];
    } else {
      assert done + [] == done;
    }
  }

  /** A template none of whose placeholders occurs in it comes back
      unchanged. */
  lemma {:induction false} ReplaceEachUntouched(text: string, subs: seq<(string, string)>)
    requires forall k :: 0 <= k < |subs| ==> !Contains(text, subs[k].0)
    ensures ReplaceEach(text, subs) == text
  {
    if subs != [] {
      ReplaceEachUntouched(text, subs[..|subs| - 1]);
      assert !Contains(text, subs[|subs| - 1].0);
    }
  }

  /** The placeholders the replacements look for, in order. */
  function Placeholders(subs: seq<(string, string)>): (r: seq<string>)
    ensures |r| == |subs|
  {
    if subs == [] then [] else Placeholders(subs[..|subs| - 1]) + [subs[|subs| - 1].0]
  }

  lemma {:induction false} PlaceholdersAppend(a: seq<(string, string)>, b: seq<(string, string)>)
    ensures Placeholders(a + b) == Placeholders(a) + Placeholders(b)
    decreases |b|
  {
    if b == [] {
      assert a + b == a;
    } else {
      PlaceholdersAppend(a, b[..|b| - 1]);
      assert (a + b)[..|a + b| - 1] == a + b[..|b| - 1];
    }
  }

  /** An optional placeholder is looked for exactly when its field is
      truthy, so a falsy field leaves the placeholder in the template. */
  lemma OptionalPlaceholders(content: Content)
    ensures Placeholders(Substitutions(content)) ==
              ["{{goal}}", "{{tasks}}", "{{acceptance_criteria}}", "{{priority}}", "{{assignee}}"]
              + (if Truthy(content.technicalRequirements) then ["{{technical_requirements}}"] else [])
              + (if Truthy(content.uiRequirements) then ["{{ui_requirements}}"] else [])
              + (if Truthy(content.infrastructureRequirements) then ["{{infrastructure_requirements}}"] else [])
              + (if Truthy(content.metrics) then ["{{metrics}}"] else [])
  {
    var f := FixedSubstitutions(content);
    var t := Optional("{{technical_requirements}}", content.technicalRequirements);
    var u := Optional("{{ui_requirements}}", content.uiRequirements);
    var i := Optional("{{infrastructure_requirements}}", content.infrastructureRequirements);
    var m := Optional("{{metrics}}", content.metrics);
    PlaceholdersAppend(f + t + u + i, m);
    PlaceholdersAppend(f + t + u, i);
    PlaceholdersAppend(f + t, u);
    PlaceholdersAppend(f, t);
    PlaceholdersFixed(content);
    PlaceholdersOptional("{{technical_requirements}}", content.technicalRequirements);
    PlaceholdersOptional("{{ui_requirements}}", content.uiRequirements);
    PlaceholdersOptional("{{infrastructure_requirements}}", content.infrastructureRequirements);
    PlaceholdersOptional("{{metrics}}", content.metrics);
  }

  lemma PlaceholdersOptional(placeholder: string, value: Option<string>)
    ensures Placeholders(Optional(placeholder, value)) == if Truthy(value) then [placeholder] else []
  {
    if Truthy(value) {
      assert Optional(placeholder, value)[..0] == [];
    }
  }

  lemma PlaceholdersFixed(content: Content)
    ensures Placeholders(FixedSubstitutions(content)) ==
              ["{{goal}}", "{{tasks}}", "{{acceptance_criteria}}", "{{priority}}", "{{assignee}}"]
  {
    var f := FixedSubstitutions(content);
    assert f[..4][..3][..2][..1][..0] == [];
    assert Placeholders(f[..4][..3][..2][..1]) == [f[0].0];
    assert Placeholders(f[..4][..3][..2]) == [f[0].0, f[1].0];
    assert Placeholders(f[..4][..3]) == [f[0].0, f[1].0, f[2].0];
    assert Placeholders(f[..4]) == [f[0].0, f[1].0, f[2].0, f[3].0];
  }
}
