/** The conversion of generated Markdown-like text into the block structure
    of a Jira document (headings, paragraphs of text nodes, bullet lists),
    and the table from generated priorities to Jira priorities. */
module JiraDoc {
  import opened Wrappers
  import opened Text
  import opened Seqs

  /** A text node; `strong` is the bold mark. */
  datatype Node = Node(text: string, strong: bool)

  /** A top-level block; a list holds the text of each item's paragraph. */
  datatype Block =
    | Paragraph(nodes: seq<Node>)
    | Heading(level: nat, text: string)
    | BulletList(items: seq<string>)

  /** The line prefixes that start a heading. */
  const HEADING_MARKERS: seq<string> := [
    ['\U{1F3AF}'], ['\U{1F4CC}'], ['\U{2705}'], ['\U{1F3F7}', '\U{FE0F}'], ['\U{1F465}'],
    ['\U{1F527}'], ['\U{1F6E0}', '\U{FE0F}'], ['\U{1F3A8}'], ['\U{1F4CA}']]

  predicate IsHeadingLine(t: string) {
    exists m :: 0 <= m < |HEADING_MARKERS| && StartsWith(t, HEADING_MARKERS[m])
  }

  predicate IsItemLine(t: string) {
    StartsWith(t, "- ")
  }

  /** `trimmedLine.substring(2).trim()` of a heading line. */
  function HeadingText(t: string): string {
    Trim(DropUnits(t, 2))
  }

  /** `trimmedLine.substring(2).trim()` of a list line. */
  function ItemText(t: string): string {
    Trim(DropUnits(t, 2))
  }

  /** The text node of a plain line: a line wrapped in `**` becomes its
      inside, marked bold. */
  function NodeOf(t: string): (r: Node)
    ensures r.strong <==> StartsWith(t, "**") && EndsWith(t, "**")
    ensures |t| >= 4 && r.strong ==> r.text == t[2..|t| - 2]
    ensures !r.strong ==> r.text == t
  {
    if StartsWith(t, "**") && EndsWith(t, "**") then Node(Substring(t, 2, |t| - 2), true)
    else Node(t, false)
  }

  /** A line of exactly `**` stays `**`, because `substring` swaps its ends. */
  lemma BoldOfBareStars()
    ensures NodeOf("**") == Node("**", true)
  {
    assert StartsWith("**", "**") && EndsWith("**", "**");
  }

  /** The converter's state: the blocks emitted so far, the open paragraph
      and the open list. */
  datatype State = State(content: seq<Block>, paragraph: seq<Node>, list: Option<seq<string>>)

  const START := State([], [], None)

  function FlushParagraph(st: State): State {
    if |st.paragraph| > 0 then st.(content := st.content + [Paragraph(st.paragraph)], paragraph := [])
    else st
  }

  function FlushList(st: State): State {
    match st.list
    case Some(items) => st.(content := st.content + [BulletList(items)], list := None)
    case None => st
  }

  /** What a line is, once trimmed: blank, a heading, a list item or text. */
  datatype Kind = BlankKind | HeadingKind(text: string) | ItemKind(text: string) | TextKind(node: Node)

  function Classify(line: string): Kind {
    KindOf(Trim(line))
  }

  /** The kind of an already trimmed line. */
  function KindOf(t: string): Kind {
    if t == "" then BlankKind
    else if IsHeadingLine(t) then HeadingKind(HeadingText(t))
    else if IsItemLine(t) then ItemKind(ItemText(t))
    else TextKind(NodeOf(t))
  }

  /** A list line is any trimmed line starting with `- `: no heading marker
      starts with `-`. */
  lemma ClassifyItem(line: string)
    ensures Classify(line).ItemKind? <==> IsItemLine(Trim(line))
    ensures IsItemLine(Trim(line)) ==> Classify(line) == ItemKind(ItemText(Trim(line)))
  {
    KindOfItem(Trim(line));
  }

  lemma KindOfItem(t: string)
    ensures KindOf(t).ItemKind? <==> IsItemLine(t)
    ensures IsItemLine(t) ==> KindOf(t) == ItemKind(ItemText(t))
  {
    if IsItemLine(t) {
      assert t[0] == "- "[0];
      NotHeading(t);
    }
  }

  lemma NotHeading(t: string)
    requires t != [] && t[0] as int < 0x2705
    ensures !IsHeadingLine(t)
  {
    forall m | 0 <= m < |HEADING_MARKERS| ensures !StartsWith(t, HEADING_MARKERS[m]) {
      assert HEADING_MARKERS[m][0] as int >= 0x2705;
    }
  }

  function Apply(st: State, k: Kind): State {
    match k
    case BlankKind => FlushList(FlushParagraph(st))
    case HeadingKind(h) =>
      var s := FlushList(FlushParagraph(st));
      s.(content := s.content + [Heading(3, h)])
    case ItemKind(x) => st.(list := Some(st.list.GetOr([]) + [x]))
    case TextKind(n) =>
      var s := FlushList(st);
      s.(paragraph := s.paragraph + [n])
  }

  /** The iterations of the `for (const line of lines)` loop, one per
      classified line. */
  function Run(kinds: seq<Kind>): State {
    if kinds == [] then START else Apply(Run(kinds[..|kinds| - 1]), kinds[|kinds| - 1])
  }

  /** The lines, classified one by one. */
  function Classified(lines: seq<string>): seq<Kind> {
    Map(lines, Classify)
  }

  function KindsOf(markdown: string): seq<Kind> {
    Classified(Split(markdown, '\n'))
  }

  /** The flushes after the loop. */
  function Finish(st: State): seq<Block> {
    FlushList(FlushParagraph(st)).content
  }

  function Convert(markdown: string): seq<Block> {
    Finish(Run(KindsOf(markdown)))
  }

  /** One iteration of the loop of `convertToJiraFormat`, on the emitted
      blocks, the open paragraph and the open list. */
  method ConvertLine(content0: seq<Block>, paragraph0: seq<Node>, list0: Option<seq<string>>, line: string)
    returns (content: seq<Block>, currentParagraph: seq<Node>, currentList: Option<seq<string>>)
    ensures State(content, currentParagraph, currentList) == Apply(State(content0, paragraph0, list0), Classify(line))
  {
    content, currentParagraph, currentList := content0, paragraph0, list0;
    var trimmedLine := Trim(line);
    if trimmedLine == "" {
      assert Classify(line) == BlankKind;
      if |currentParagraph| > 0 {
        content := content + [Paragraph(currentParagraph)];
        currentParagraph := [];
      }
      if currentList.Some? {
        content := content + [BulletList(currentList.value)];
        currentList := None;
      }
      assert State(content, currentParagraph, currentList) == Apply(State(content0, paragraph0, list0), BlankKind);
      return;
    }
    if IsHeadingLine(trimmedLine) {
      assert Classify(line) == HeadingKind(HeadingText(trimmedLine));
      if |currentParagraph| > 0 {
        content := content + [Paragraph(currentParagraph)];
        currentParagraph := [];
      }
      if currentList.Some? {
        content := content + [BulletList(currentList.value)];
        currentList := None;
      }
      content := content + [Heading(3, HeadingText(trimmedLine))];
      assert State(content, currentParagraph, currentList) == Apply(State(content0, paragraph0, list0), HeadingKind(HeadingText(trimmedLine)));
    } else if IsItemLine(trimmedLine) {
      assert Classify(line) == ItemKind(ItemText(trimmedLine));
      if currentList.None? {
        currentList := Some([]);
      }
      currentList := Some(currentList.value + [ItemText(trimmedLine)]);
      assert State(content, currentParagraph, currentList) == Apply(State(content0, paragraph0, list0), ItemKind(ItemText(trimmedLine)));
    } else {
      assert Classify(line) == TextKind(NodeOf(trimmedLine));
      if currentList.Some? {
        content := content + [BulletList(currentList.value)];
        currentList := None;
      }
      currentParagraph := currentParagraph + [NodeOf(trimmedLine)];
      assert State(content, currentParagraph, currentList) == Apply(State(content0, paragraph0, list0), TextKind(NodeOf(trimmedLine)));
    }
  }

  /** `convertToJiraFormat`. */
  method ConvertToJiraFormat(markdown: string) returns (content: seq<Block>)
    ensures content == Convert(markdown)
    ensures WellFormed(content)
  {
    var lines := Split(markdown, '\n');
    content := [];
    var currentParagraph: seq<Node> := [];
    var currentList: Option<seq<string>> := None;
    for i := 0 to |lines|
      invariant State(content, currentParagraph, currentList) == Run(Classified(lines[..i]))
    {
      RunStep(lines, i);
      content, currentParagraph, currentList := ConvertLine(content, currentParagraph, currentList, lines[i]);
    }
    assert lines[..|lines|] == lines;
    if |currentParagraph| > 0 {
      content := content + [Paragraph(currentParagraph)];
    }
    if currentList.Some? {
      content := content + [BulletList(currentList.value)];
    }
    ConvertWellFormed(markdown);
  }

  /** One more line is one more step of the run. */
  lemma RunStep(lines: seq<string>, i: int)
    requires 0 <= i < |lines|
    ensures Run(Classified(lines[..i + 1])) == Apply(Run(Classified(lines[..i])), Classify(lines[i]))
  {
    assert lines[..i + 1] == lines[..i] + [lines[i]];
    MapSnoc(lines[..i], lines[i], Classify);
    var kinds := Classified(lines[..i + 1]);
    assert kinds[..|kinds| - 1] == Classified(lines[..i]);
  }

  // ------------------------------------------------------------- well-formed

  /** Only level-3 headings, non-empty paragraphs and non-empty lists. */
  predicate WellFormed(blocks: seq<Block>) {
    forall i :: 0 <= i < |blocks| ==>
      match blocks[i]
      case Paragraph(nodes) => nodes != []
      case Heading(level, _) => level == 3
      case BulletList(items) => items != []
  }

  predicate GoodState(st: State) {
    WellFormed(st.content) && (st.list.Some? ==> st.list.value != [])
  }

  lemma ApplyGood(st: State, k: Kind)
    requires GoodState(st)
    ensures GoodState(Apply(st, k))
  {
  }

  lemma {:induction false} RunGood(kinds: seq<Kind>)
    ensures GoodState(Run(kinds))
  {
    if kinds != [] {
      RunGood(kinds[..|kinds| - 1]);
      ApplyGood(Run(kinds[..|kinds| - 1]), kinds[|kinds| - 1]);
    }
  }

  lemma FinishGood(st: State)
    requires GoodState(st)
    ensures WellFormed(Finish(st))
  {
    assert GoodState(FlushParagraph(st));
  }

  lemma ConvertWellFormed(markdown: string)
    ensures WellFormed(Convert(markdown))
  {
    RunGood(KindsOf(markdown));
    FinishGood(Run(KindsOf(markdown)));
  }

  // ------------------------------------------------------------------ blank

  /** Text made of blank lines only yields no blocks. */
  lemma {:induction false} BlankRun(kinds: seq<Kind>)
    requires forall i :: 0 <= i < |kinds| ==> kinds[i] == BlankKind
    ensures Run(kinds) == START
  {
    if kinds != [] {
      BlankRun(kinds[..|kinds| - 1]);
    }
  }

  lemma BlankConvert(markdown: string)
    requires AllSpace(markdown)
    ensures Convert(markdown) == []
  {
    var lines := Split(markdown, '\n');
    var kinds := KindsOf(markdown);
    forall i | 0 <= i < |kinds| ensures kinds[i] == BlankKind {
      SplitPartsSpace(markdown, '\n', i);
      TrimEmpty(lines[i]);
    }
    BlankRun(kinds);
  }

  /** The parts of a blank text are blank. */
  lemma {:induction false} SplitPartsSpace(s: string, sep: char, i: int)
    requires AllSpace(s) && 0 <= i < |Split(s, sep)|
    ensures AllSpace(Split(s, sep)[i])
  {
    if s != [] {
      var rest := Split(s[1..], sep);
      if s[0] == sep {
        if i > 0 { SplitPartsSpace(s[1..], sep, i - 1); }
      } else if i == 0 {
        SplitPartsSpace(s[1..], sep, 0);
      } else {
        SplitPartsSpace(s[1..], sep, i);
      }
    }
  }

  // ----------------------------------------------------------------- counts

  function ItemCount(blocks: seq<Block>): nat {
    if blocks == [] then 0
    else ItemCount(blocks[..|blocks| - 1])
         + (match blocks[|blocks| - 1] case BulletList(items) => |items| case _ => 0)
  }

  function HeadingCount(blocks: seq<Block>): nat {
    if blocks == [] then 0
    else HeadingCount(blocks[..|blocks| - 1]) + (if blocks[|blocks| - 1].Heading? then 1 else 0)
  }

  function NodeCount(blocks: seq<Block>): nat {
    if blocks == [] then 0
    else NodeCount(blocks[..|blocks| - 1])
         + (match blocks[|blocks| - 1] case Paragraph(nodes) => |nodes| case _ => 0)
  }

  lemma CountsSnoc(blocks: seq<Block>, b: Block)
    ensures ItemCount(blocks + [b]) == ItemCount(blocks) + (match b case BulletList(items) => |items| case _ => 0)
    ensures HeadingCount(blocks + [b]) == HeadingCount(blocks) + (if b.Heading? then 1 else 0)
    ensures NodeCount(blocks + [b]) == NodeCount(blocks) + (match b case Paragraph(nodes) => |nodes| case _ => 0)
  {
    assert (blocks + [b])[..|blocks|] == blocks;
  }

  /** Items, headings and text nodes, emitted or still open. */
  function OpenItems(st: State): nat {
    ItemCount(st.content) + (match st.list case Some(items) => |items| case None => 0)
  }

  function OpenNodes(st: State): nat {
    NodeCount(st.content) + |st.paragraph|
  }

  predicate IsItem(k: Kind) {
    k.ItemKind?
  }

  predicate IsHeading(k: Kind) {
    k.HeadingKind?
  }

  predicate IsText(k: Kind) {
    k.TextKind?
  }

  lemma FlushesKeepCounts(st: State)
    ensures OpenItems(FlushList(FlushParagraph(st))) == OpenItems(st)
    ensures OpenNodes(FlushList(FlushParagraph(st))) == OpenNodes(st)
    ensures HeadingCount(FlushList(FlushParagraph(st)).content) == HeadingCount(st.content)
    ensures OpenItems(FlushList(st)) == OpenItems(st)
    ensures OpenNodes(FlushList(st)) == OpenNodes(st)
    ensures HeadingCount(FlushList(st).content) == HeadingCount(st.content)
  {
    FlushParagraphCounts(st);
    FlushListCounts(FlushParagraph(st));
    FlushListCounts(st);
  }

  lemma FlushParagraphCounts(st: State)
    ensures OpenItems(FlushParagraph(st)) == OpenItems(st)
    ensures OpenNodes(FlushParagraph(st)) == OpenNodes(st)
    ensures HeadingCount(FlushParagraph(st).content) == HeadingCount(st.content)
  {
    if |st.paragraph| > 0 {
      CountsSnoc(st.content, Paragraph(st.paragraph));
    }
  }

  lemma FlushListCounts(st: State)
    ensures OpenItems(FlushList(st)) == OpenItems(st)
    ensures OpenNodes(FlushList(st)) == OpenNodes(st)
    ensures HeadingCount(FlushList(st).content) == HeadingCount(st.content)
  {
    if st.list.Some? {
      var items := st.list.value;
      var s := FlushList(st);
      assert s == State(st.content + [BulletList(items)], st.paragraph, None);
      CountsSnoc(st.content, BulletList(items));
      assert ItemCount(s.content) == ItemCount(st.content) + |items|;
    }
  }

  lemma ApplyCounts(st: State, k: Kind)
    ensures OpenItems(Apply(st, k)) == OpenItems(st) + (if k.ItemKind? then 1 else 0)
    ensures HeadingCount(Apply(st, k).content) == HeadingCount(st.content) + (if k.HeadingKind? then 1 else 0)
    ensures OpenNodes(Apply(st, k)) == OpenNodes(st) + (if k.TextKind? then 1 else 0)
  {
    FlushesKeepCounts(st);
    if k.HeadingKind? {
      var s := FlushList(FlushParagraph(st));
      CountsSnoc(s.content, Heading(3, k.text));
    }
  }

  lemma {:induction false} RunCounts(kinds: seq<Kind>)
    ensures OpenItems(Run(kinds)) == |Filter(kinds, IsItem)|
    ensures HeadingCount(Run(kinds).content) == |Filter(kinds, IsHeading)|
    ensures OpenNodes(Run(kinds)) == |Filter(kinds, IsText)|
  {
    if kinds != [] {
      var init, last := kinds[..|kinds| - 1], kinds[|kinds| - 1];
      RunCounts(init);
      ApplyCounts(Run(init), last);
    }
  }

  /** One list item per line whose trimmed form starts with `- `, one
      heading per line starting with a marker, one text node per other
      non-blank line. */
  lemma ConvertCounts(markdown: string)
    ensures var kinds := KindsOf(markdown);
            && ItemCount(Convert(markdown)) == |Filter(kinds, IsItem)|
            && HeadingCount(Convert(markdown)) == |Filter(kinds, IsHeading)|
            && NodeCount(Convert(markdown)) == |Filter(kinds, IsText)|
  {
    RunCounts(KindsOf(markdown));
    FlushesKeepCounts(Run(KindsOf(markdown)));
  }

  /** Which lines count as what. */
  lemma KindsOfLines(markdown: string, i: int)
    requires 0 <= i < |Split(markdown, '\n')|
    ensures var line := Split(markdown, '\n')[i];
            && (IsItem(KindsOf(markdown)[i]) <==> StartsWith(Trim(line), "- "))
            && (IsHeading(KindsOf(markdown)[i]) <==> IsHeadingLine(Trim(line)))
            && (IsText(KindsOf(markdown)[i]) <==>
                  Trim(line) != "" && !IsHeadingLine(Trim(line)) && !StartsWith(Trim(line), "- "))
  {
    var line := Split(markdown, '\n')[i];
    ClassifyKinds(line);
  }

  lemma ClassifyKinds(line: string)
    ensures IsItem(Classify(line)) <==> StartsWith(Trim(line), "- ")
    ensures IsHeading(Classify(line)) <==> IsHeadingLine(Trim(line))
    ensures IsText(Classify(line)) <==>
              Trim(line) != "" && !IsHeadingLine(Trim(line)) && !StartsWith(Trim(line), "- ")
  {
    ClassifyItem(line);
    if IsHeadingLine(Trim(line)) {
      HeadingNonEmpty(Trim(line));
    }
  }

  lemma HeadingNonEmpty(t: string)
    requires IsHeadingLine(t)
    ensures t != []
  {
    var m :| 0 <= m < |HEADING_MARKERS| && StartsWith(t, HEADING_MARKERS[m]);
    var marker := HEADING_MARKERS[m];
    assert marker != [];
  }

  // ------------------------------------------------------------------ order

  /** The texts a block shows, in order. */
  function BlockTexts(b: Block): seq<string> {
    match b
    case Paragraph(nodes) => NodeTexts(nodes)
    case Heading(_, text) => [text]
    case BulletList(items) => items
  }

  function NodeTexts(nodes: seq<Node>): (r: seq<string>)
    ensures |r| == |nodes|
  {
    if nodes == [] then [] else NodeTexts(nodes[..|nodes| - 1]) + [nodes[|nodes| - 1].text]
  }

  function Texts(blocks: seq<Block>): seq<string> {
    Flatten(Map(blocks, BlockTexts))
  }

  /** The text a classified line contributes: none for a blank line. */
  function KindText(k: Kind): seq<string> {
    match k
    case BlankKind => []
    case HeadingKind(h) => [h]
    case ItemKind(x) => [x]
    case TextKind(n) => [n.text]
  }

  function LineTexts(kinds: seq<Kind>): seq<string> {
    Flatten(Map(kinds, KindText))
  }

  /** As written, a list item leaves the open paragraph open, so a paragraph
      line followed by a list item and another paragraph line comes out
      after the list. */
  lemma ParagraphAfterList()
    ensures Convert("Intro\n- a\nMore")
            == [BulletList(["a"]), Paragraph([Node("Intro", false), Node("More", false)])]
    ensures Texts(Convert("Intro\n- a\nMore")) == ["a", "Intro", "More"]
    ensures LineTexts(KindsOf("Intro\n- a\nMore")) == ["Intro", "a", "More"]
  {
    var intro, more := Node("Intro", false), Node("More", false);
    SampleKinds();
    TextItemText(intro, "a", more);
  }

  /** A text line, a list line and a text line: the list is emitted first,
      and both text lines end up in the paragraph after it. */
  lemma TextItemText(p: Node, x: string, q: Node)
    ensures Finish(Run([TextKind(p), ItemKind(x), TextKind(q)])) == [BulletList([x]), Paragraph([p, q])]
    ensures Texts([BulletList([x]), Paragraph([p, q])]) == [x, p.text, q.text]
    ensures LineTexts([TextKind(p), ItemKind(x), TextKind(q)]) == [p.text, x, q.text]
  {
    RunTextItemText(p, x, q);
    TextsListParagraph(x, p, q);
    LineTextsThree(TextKind(p), ItemKind(x), TextKind(q));
  }

  lemma RunTextItemText(p: Node, x: string, q: Node)
    ensures Run([TextKind(p), ItemKind(x), TextKind(q)]) == State([BulletList([x])], [p, q], None)
  {
    var kinds := [TextKind(p), ItemKind(x), TextKind(q)];
    assert kinds[..2][..1] == [TextKind(p)] && kinds[..1] == [TextKind(p)] && [TextKind(p)][..0] == [];
    assert Run(kinds[..1]) == State([], [p], None);
    assert kinds[..2][1] == ItemKind(x);
    assert Run(kinds[..2]) == Apply(State([], [p], None), ItemKind(x));
    assert None.GetOr([]) + [x] == [x];
    assert Run(kinds[..2]) == State([], [p], Some([x]));
  }

  lemma TextsListParagraph(x: string, p: Node, q: Node)
    ensures Texts([BulletList([x]), Paragraph([p, q])]) == [x, p.text, q.text]
  {
    var blocks := [BulletList([x]), Paragraph([p, q])];
    TextsSnoc([], BulletList([x]));
    TextsSnoc([BulletList([x])], blocks[1]);
    assert [BulletList([x])] + [blocks[1]] == blocks;
    NodeTextsSnoc([p], q);
    NodeTextsSnoc([], p);
    assert [p] + [q] == [p, q];
  }

  lemma LineTextsThree(a: Kind, b: Kind, c: Kind)
    ensures LineTexts([a, b, c]) == KindText(a) + KindText(b) + KindText(c)
  {
    assert Map([a, b, c], KindText) == [KindText(a), KindText(b), KindText(c)];
    FlattenThree(KindText(a), KindText(b), KindText(c));
  }

  lemma SampleKinds()
    ensures KindsOf("Intro\n- a\nMore")
            == [TextKind(Node("Intro", false)), ItemKind("a"), TextKind(Node("More", false))]
  {
    SampleLines();
    ClassifiedThree("Intro", "- a", "More");
    SampleLineKinds();
  }

  lemma ClassifiedThree(a: string, b: string, c: string)
    ensures Classified([a, b, c]) == [Classify(a), Classify(b), Classify(c)]
  {
    MapThree(a, b, c, Classify);
  }

  lemma SampleLines()
    ensures Split("Intro\n- a\nMore", '\n') == ["Intro", "- a", "More"]
  {
    var a, b, c := "Intro", "- a", "More";
    assert "Intro\n- a\nMore" == a + ['\n'] + (b + ['\n'] + c);
    assert '\n' !in a && '\n' !in b && '\n' !in c;
    SplitThree(a, b, c, '\n');
  }

  /** Three separator-free parts joined by the separator split back apart. */
  lemma SplitThree(a: string, b: string, c: string, sep: char)
    requires sep !in a && sep !in b && sep !in c
    ensures Split(a + [sep] + (b + [sep] + c), sep) == [a, b, c]
  {
    SplitFirst(a, sep, b + [sep] + c);
    SplitFirst(b, sep, c);
    SplitNoSep(c, sep);
  }

  lemma SampleLineKinds()
    ensures Classify("Intro") == TextKind(Node("Intro", false))
    ensures Classify("- a") == ItemKind("a")
    ensures Classify("More") == TextKind(Node("More", false))
  {
    PlainLine("Intro");
    PlainLine("More");
    SampleItem();
  }

  lemma SampleItem()
    ensures Classify("- a") == ItemKind("a")
  {
    NoBlankTrim("- a");
    SampleItemLine();
    SampleItemText();
    ClassifyItem("- a");
  }

  lemma SampleItemLine()
    ensures IsItemLine("- a")
  {
    assert "- a"[..2] == "- ";
  }

  lemma SampleItemText()
    ensures ItemText("- a") == "a"
  {
    var s := "- a";
    assert s[0] == '-' && s[1] == ' ';
    assert Utf16Width(s[0]) == 1 && Utf16Width(s[1]) == 1;
    DropTwoNarrow(s);
    assert s[2..] == "a";
    NoBlankTrim("a");
  }

  lemma PlainLine(w: string)
    requires |w| >= 2 && 'A' <= w[0] <= 'Z' && 'a' <= w[|w| - 1] <= 'z'
    ensures Classify(w) == TextKind(Node(w, false))
  {
    NoBlankTrim(w);
    NotHeading(w);
    assert !StartsWith(w, "**") && !StartsWith(w, "- ");
  }

  /** The intended behaviour: a list item closes the open paragraph first,
      as a heading does. */
  function ApplyInOrder(st: State, k: Kind): State {
    match k
    case ItemKind(x) =>
      var s := FlushParagraph(st);
      s.(list := Some(s.list.GetOr([]) + [x]))
    case _ => Apply(st, k)
  }

  function RunInOrder(kinds: seq<Kind>): State {
    if kinds == [] then START else ApplyInOrder(RunInOrder(kinds[..|kinds| - 1]), kinds[|kinds| - 1])
  }

  function ConvertInOrder(markdown: string): seq<Block> {
    Finish(RunInOrder(KindsOf(markdown)))
  }

  /** Everything shown by a state: the emitted blocks, then the open
      paragraph or list. */
  function Shown(st: State): seq<string> {
    Texts(st.content) + NodeTexts(st.paragraph) + st.list.GetOr([])
  }

  /** At most one block is open at a time. */
  predicate OneOpen(st: State) {
    st.paragraph == [] || st.list.None?
  }

  lemma TextsSnoc(blocks: seq<Block>, b: Block)
    ensures Texts(blocks + [b]) == Texts(blocks) + BlockTexts(b)
  {
    MapSnoc(blocks, b, BlockTexts);
    FlattenSnoc(Map(blocks, BlockTexts), BlockTexts(b));
  }

  lemma NodeTextsSnoc(nodes: seq<Node>, n: Node)
    ensures NodeTexts(nodes + [n]) == NodeTexts(nodes) + [n.text]
  {
    assert (nodes + [n])[..|nodes|] == nodes;
  }

  lemma FlushParagraphShown(st: State)
    requires OneOpen(st)
    ensures Shown(FlushParagraph(st)) == Shown(st) && OneOpen(FlushParagraph(st))
    ensures FlushParagraph(st).paragraph == [] && FlushParagraph(st).list == st.list
  {
    if |st.paragraph| > 0 {
      TextsSnoc(st.content, Paragraph(st.paragraph));
    }
  }

  lemma FlushListShown(st: State)
    requires OneOpen(st)
    ensures Shown(FlushList(st)) == Shown(st) && OneOpen(FlushList(st))
    ensures FlushList(st).list.None? && FlushList(st).paragraph == st.paragraph
  {
    if st.list.Some? {
      TextsSnoc(st.content, BulletList(st.list.value));
      assert NodeTexts(st.paragraph) == [];
    }
  }

  lemma ApplyInOrderShown(st: State, k: Kind)
    requires OneOpen(st)
    ensures OneOpen(ApplyInOrder(st, k))
    ensures Shown(ApplyInOrder(st, k)) == Shown(st) + KindText(k)
  {
    match k
    case BlankKind =>
      FlushParagraphShown(st);
      FlushListShown(FlushParagraph(st));
      assert KindText(k) == [];
    case HeadingKind(h) => HeadingShown(st, h);
    case ItemKind(x) => ItemShown(st, x);
    case TextKind(n) => TextShown(st, n);
  }

  lemma HeadingShown(st: State, h: string)
    requires OneOpen(st)
    ensures OneOpen(ApplyInOrder(st, HeadingKind(h)))
    ensures Shown(ApplyInOrder(st, HeadingKind(h))) == Shown(st) + [h]
  {
    FlushParagraphShown(st);
    FlushListShown(FlushParagraph(st));
    var s := FlushList(FlushParagraph(st));
    assert ApplyInOrder(st, HeadingKind(h)) == s.(content := s.content + [Heading(3, h)]);
    EmitShown(s, Heading(3, h));
  }

  /** With nothing open, emitting a block shows its texts after the rest. */
  lemma EmitShown(s: State, b: Block)
    requires s.paragraph == [] && s.list.None?
    ensures Shown(s.(content := s.content + [b])) == Shown(s) + BlockTexts(b)
  {
    TextsSnoc(s.content, b);
    assert NodeTexts(s.paragraph) == [] && s.list.GetOr([]) == [];
  }

  lemma ItemShown(st: State, x: string)
    requires OneOpen(st)
    ensures OneOpen(ApplyInOrder(st, ItemKind(x)))
    ensures Shown(ApplyInOrder(st, ItemKind(x))) == Shown(st) + [x]
  {
    FlushParagraphShown(st);
    var s := FlushParagraph(st);
    assert NodeTexts(s.paragraph) == [];
    assert s.list.GetOr([]) + [x] == Some(s.list.GetOr([]) + [x]).GetOr([]);
  }

  lemma TextShown(st: State, n: Node)
    requires OneOpen(st)
    ensures OneOpen(ApplyInOrder(st, TextKind(n)))
    ensures Shown(ApplyInOrder(st, TextKind(n))) == Shown(st) + [n.text]
  {
    FlushListShown(st);
    var s := FlushList(st);
    assert ApplyInOrder(st, TextKind(n)) == s.(paragraph := s.paragraph + [n]);
    OpenShown(s, n);
  }

  /** With no list open, a text line shows its text after the rest. */
  lemma OpenShown(s: State, n: Node)
    requires s.list.None?
    ensures Shown(s.(paragraph := s.paragraph + [n])) == Shown(s) + [n.text]
  {
    NodeTextsSnoc(s.paragraph, n);
    assert s.list.GetOr([]) == [];
  }

  lemma {:induction false} RunInOrderShown(kinds: seq<Kind>)
    ensures OneOpen(RunInOrder(kinds))
    ensures Shown(RunInOrder(kinds)) == LineTexts(kinds)
  {
    if kinds != [] {
      var init, last := kinds[..|kinds| - 1], kinds[|kinds| - 1];
      assert kinds == init + [last];
      assert RunInOrder(kinds) == ApplyInOrder(RunInOrder(init), last);
      RunInOrderShown(init);
      ApplyInOrderShown(RunInOrder(init), last);
      LineTextsSnoc(init, last);
    }
  }

  lemma LineTextsSnoc(init: seq<Kind>, last: Kind)
    ensures LineTexts(init + [last]) == LineTexts(init) + KindText(last)
  {
    MapSnoc(init, last, KindText);
    FlattenSnoc(Map(init, KindText), KindText(last));
  }

  /** With a list item closing the open paragraph, the document shows the
      text of every non-blank line, in the order of the lines. */
  lemma ConvertInOrderKeepsOrder(markdown: string)
    ensures Texts(ConvertInOrder(markdown)) == LineTexts(KindsOf(markdown))
  {
    RunInOrderShown(KindsOf(markdown));
    FinishShown(RunInOrder(KindsOf(markdown)));
  }

  lemma FinishShown(st: State)
    requires OneOpen(st)
    ensures Texts(Finish(st)) == Shown(st)
  {
    FlushParagraphShown(st);
    FlushListShown(FlushParagraph(st));
    var s := FlushList(FlushParagraph(st));
    assert NodeTexts(s.paragraph) == [] && s.list.GetOr([]) == [];
  }

  // --------------------------------------------------------------- priority

  /** `mapPriority`: the generated priority as a Jira priority name. */
  function MapPriority(priority: string): (r: string)
    ensures r == "Lowest" <==> priority == "Low"
    ensures r == "Highest" <==> priority == "Critical"
    ensures r == "High" <==> priority == "High"
    ensures r == "Medium" <==> priority != "Low" && priority != "High" && priority != "Critical"
  {
    if priority == "Low" then "Lowest"
    else if priority == "Medium" then "Medium"
    else if priority == "High" then "High"
    else if priority == "Critical" then "Highest"
    else "Medium"
  }
}
