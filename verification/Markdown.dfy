/** The whole renderer: blocks to HTML, the loop that builds it, and what holds of every document. */
module Markdown {
  import opened Text
  import opened Escaping
  import opened Html
  import opened Inline
  import opened InlineOutput
  import opened Highlight
  import opened Blocks

  // --- Blocks to HTML ------------------------------------------------------------------------------

  /** A fenced line without the opener's indentation, as far as it is indented itself. */
  function Dedent(line: string, indent: nat): string {
    var n := RunOf(' ', line);
    line[if indent < n then indent else n..]
  }

  function DedentAll(lines: seq<string>, indent: nat): seq<string> {
    if lines == [] then [] else [Dedent(lines[0], indent)] + DedentAll(lines[1..], indent)
  }

  function FenceOf(opener: string): Fence {
    match FenceOpen(opener)
    case Some(f) => f
    case None => Fence('`', "", 0)
  }

  /** The text of a fenced block. */
  function CodeOf(opener: string, body: seq<string>): string { Join(DedentAll(body, FenceOf(opener).indent), "\n") }

  function RenderCodeBlock(code: string, language: string): string {
    var normalized := NormalizeLanguage(language);
    PreOpenText(if normalized == "" then "" else EscapeAttribute(normalized))
    + OpenText(Code) + HighlightCode(code, normalized) + CloseText(Code) + CloseText(Pre)
  }

  function Element(tag: Tag, content: string): string { OpenText(tag) + content + CloseText(tag) }

  function ItemText(line: string): string {
    match Classify(line)
    case Item(_, text) => text
    case _ => ""
  }

  function RenderItems(lines: seq<string>): string {
    if lines == [] then "" else Element(Li, RenderInline(ItemText(lines[0]), 0)) + RenderItems(lines[1..])
  }

  function HeadingTag(level: nat): Tag { if level == 1 then H1 else if level == 2 then H2 else H3 }

  function RenderHeading(line: string): string {
    match Classify(line)
    case Title(level, text) => Element(HeadingTag(level), RenderInline(text, 0))
    case _ => ""
  }

  function RenderQuote(line: string): string {
    match Classify(line)
    case Quoted(text) => Element(Blockquote, RenderInline(text, 0))
    case _ => ""
  }

  function RenderBlock(b: Block): string {
    match b
    case Paragraph(lines) => Element(P, RenderInline(Trim(Join(lines, "\n")), 0))
    case Heading(line) => RenderHeading(line)
    case Items(ordered, lines) => Element(if ordered then Ol else Ul, RenderItems(lines))
    case Quote(line) => RenderQuote(line)
    case Divider(_) => Print(Rule)
    case Fenced(opener, body) => RenderCodeBlock(CodeOf(opener, body), FenceOf(opener).language)
  }

  function RenderBlocks(blocks: seq<Block>): string {
    if blocks == [] then "" else RenderBlock(blocks[0]) + RenderBlocks(blocks[1..])
  }

  function RenderMarkdown(markdown: string): string { RenderBlocks(Parse(Lines(markdown))) }

  lemma {:induction false} RenderBlocksConcat(a: seq<Block>, b: seq<Block>)
    ensures RenderBlocks(a + b) == RenderBlocks(a) + RenderBlocks(b)
  {
    hide RenderBlock;
    if a == [] {
      assert a + b == b;
    } else {
      assert (a + b)[1..] == a[1..] + b;
      RenderBlocksConcat(a[1..], b);
    }
  }

  // --- Rendering is a homomorphism over blank lines --------------------------------------------------

  /** A text that does not end inside a code fence. */
  predicate Closed(markdown: string) { !LeavesFenceOpen(Lines(markdown)) }

  /** The lines of two texts with a blank line between them. A return at the end of the first one makes its last
      line empty, and that one is gone. */
  lemma SeparatedLines(a: string, b: string) returns (front: seq<string>)
    ensures Lines(a + "\n\n" + b) == front + [""] + Lines(b)
    ensures Lines(a) == if EndsWithReturn(a) then front + [""] else front
  {
    hide Lines, EndsWithReturn;
    LinesAtNewline(a, "\n" + b);
    LinesAtNewline("", b);
    EmptyLines();
    assert "" + "\n" + b == "\n" + b && a + "\n" + ("\n" + b) == a + "\n\n" + b;
    front := Lines(a);
    if EndsWithReturn(a) {
      front := front[..|front| - 1];
      assert Lines(a) == front + [""];
    }
    assert front + ([""] + Lines(b)) == front + [""] + Lines(b);
  }

  /** Parsing two texts with a blank line between them, the first of them closed. */
  lemma ParseSeparated(a: string, b: string)
    requires Closed(a)
    ensures Parse(Lines(a + "\n\n" + b)) == Parse(Lines(a)) + Parse(Lines(b))
    ensures Closed(a + "\n\n" + b) == Closed(b)
  {
    hide Parse, LeavesFenceOpen, Lines, EndsWithReturn;
    var front := SeparatedLines(a, b);
    if EndsWithReturn(a) { DropLastBlank(front); }
    ParseAfterBlank(front, Lines(b));
  }

  lemma EmptyLines()
    ensures Lines("") == [""] && !EndsWithReturn("")
  {
  }

  /** A blank line at the end of closed lines changes nothing. */
  lemma DropLastBlank(lines: seq<string>)
    requires !LeavesFenceOpen(lines + [""])
    ensures Parse(lines + [""]) == Parse(lines) && !LeavesFenceOpen(lines)
  {
    hide Classify;
    var s := RunLines(lines, START);
    NeutralBlocks([]);
    ReachableOneOpen(lines, START);
    RunConcat(lines, [""], START);
    OneLine("", s);
    FenceOfStep(s, "");
    EmptyClosesNothing(if s.fence.Some? then Marker(s.fence.value) else ' ');
    BlankCloses(s);
  }

  lemma EmptyClosesNothing(marker: char)
    ensures !FenceClose("", marker)
  {
  }

  /** The document law: a closed text followed by a blank line renders on its own. */
  lemma RenderSeparated(a: string, b: string)
    requires Closed(a)
    ensures RenderMarkdown(a + "\n\n" + b) == RenderMarkdown(a) + RenderMarkdown(b)
  {
    hide Parse, Closed, RenderBlock;
    ParseSeparated(a, b);
    RenderBlocksConcat(Parse(Lines(a)), Parse(Lines(b)));
  }

  // --- Output grammar ------------------------------------------------------------------------------

  lemma ElementWellFormed(tag: Tag, content: string)
    requires WellFormed(content) && tag != Pre && tag != Span && tag != Anchor
    ensures WellFormed(Element(tag, content))
  {
    hide WellFormed, OpenText, CloseText;
    WellFormedElement(Open(tag), content, tag);
    OpenPrint(tag);
  }

  lemma OpenPrint(tag: Tag)
    ensures Print(Open(tag)) == OpenText(tag)
  {
  }

  lemma PrePrint(language: string)
    ensures Print(PreOpen(language)) == PreOpenText(language)
  {
  }

  lemma CodeBlockWellFormed(code: string, language: string)
    ensures WellFormed(RenderCodeBlock(code, language))
  {
    hide WellFormed, OpenText, CloseText, NormalizeLanguage, HighlightCode, EscapeAttribute, PreOpenText;
    var normalized := NormalizeLanguage(language);
    HighlightWellFormed(code, normalized);
    ElementWellFormed(Code, HighlightCode(code, normalized));
    AttributeIsSafe(normalized);
    var attribute := if normalized == "" then "" else EscapeAttribute(normalized);
    PrePrint(attribute);
    WellFormedElement(PreOpen(attribute), Element(Code, HighlightCode(code, normalized)), Pre);
    assert RenderCodeBlock(code, language)
        == PreOpenText(attribute) + Element(Code, HighlightCode(code, normalized)) + CloseText(Pre);
  }

  lemma {:induction false} ItemsWellFormed(lines: seq<string>)
    ensures WellFormed(RenderItems(lines))
  {
    hide WellFormed, Element, RenderInline, ItemText;
    if lines == [] {
      WellFormedEmpty();
    } else {
      InlineWellFormed(ItemText(lines[0]), 0);
      ElementWellFormed(Li, RenderInline(ItemText(lines[0]), 0));
      ItemsWellFormed(lines[1..]);
      WellFormedConcat(Element(Li, RenderInline(ItemText(lines[0]), 0)), RenderItems(lines[1..]));
    }
  }

  lemma HeadingWellFormed(line: string)
    ensures WellFormed(RenderHeading(line))
  {
    hide WellFormed, Element, RenderInline, Classify;
    match Classify(line)
    case Title(level, text) =>
      InlineWellFormed(text, 0);
      ElementWellFormed(HeadingTag(level), RenderInline(text, 0));
    case _ => WellFormedEmpty();
  }

  lemma QuoteWellFormed(line: string)
    ensures WellFormed(RenderQuote(line))
  {
    hide WellFormed, Element, RenderInline, Classify;
    match Classify(line)
    case Quoted(text) =>
      InlineWellFormed(text, 0);
      ElementWellFormed(Blockquote, RenderInline(text, 0));
    case _ => WellFormedEmpty();
  }

  lemma BlockWellFormed(b: Block)
    ensures WellFormed(RenderBlock(b))
  {
    hide WellFormed, Element, RenderInline, RenderCodeBlock, RenderItems, RenderHeading, RenderQuote, CodeOf, FenceOf, Print;
    match b
    case Paragraph(lines) =>
      InlineWellFormed(Trim(Join(lines, "\n")), 0);
      ElementWellFormed(P, RenderInline(Trim(Join(lines, "\n")), 0));
    case Heading(line) => HeadingWellFormed(line);
    case Items(ordered, lines) =>
      ItemsWellFormed(lines);
      ElementWellFormed(if ordered then Ol else Ul, RenderItems(lines));
    case Quote(line) => QuoteWellFormed(line);
    case Divider(_) => WellFormedVoid(Rule);
    case Fenced(opener, body) => CodeBlockWellFormed(CodeOf(opener, body), FenceOf(opener).language);
  }

  lemma {:induction false} BlocksWellFormed(blocks: seq<Block>)
    ensures WellFormed(RenderBlocks(blocks))
  {
    hide WellFormed, RenderBlock;
    if blocks == [] {
      WellFormedEmpty();
    } else {
      BlockWellFormed(blocks[0]);
      BlocksWellFormed(blocks[1..]);
      WellFormedConcat(RenderBlock(blocks[0]), RenderBlocks(blocks[1..]));
    }
  }

  /** Output grammar: whatever the input, the output is escaped text and the renderer's own tags, and each
      kind of tag taken alone is a balanced sequence. */
  lemma OutputWellFormed(markdown: string)
    ensures WellFormed(RenderMarkdown(markdown))
  {
    hide WellFormed, Parse, RenderBlocks;
    BlocksWellFormed(Parse(Lines(markdown)));
  }

  // --- The loop ------------------------------------------------------------------------------------

  /** The variables of the loop. Blocks are HTML already; list items and code lines are cut to what is shown. */
  datatype Vars = Vars(
    blocks: seq<string>,
    paragraph: seq<string>,
    listType: Option<bool>,
    listItems: seq<string>,
    fence: Option<Fence>,
    fenceLines: seq<string>)

  function RenderTexts(items: seq<string>): string {
    if items == [] then "" else Element(Li, RenderInline(items[0], 0)) + RenderTexts(items[1..])
  }

  function EndParagraph(v: Vars): Vars {
    if v.paragraph == [] then v
    else v.(blocks := v.blocks + [Element(P, RenderInline(Trim(Join(v.paragraph, "\n")), 0))], paragraph := [])
  }

  function EndList(v: Vars): Vars {
    if v.listType.None? then v
    else v.(blocks := v.blocks + [Element(if v.listType.value then Ol else Ul, RenderTexts(v.listItems))],
            listType := None, listItems := [])
  }

  function EndFence(v: Vars): Vars
    requires v.fence.Some?
  {
    v.(blocks := v.blocks + [RenderCodeBlock(Join(v.fenceLines, "\n"), v.fence.value.language)],
       fence := None, fenceLines := [])
  }

  function Push(v: Vars, html: string): Vars { v.(blocks := v.blocks + [html]) }

  function Turn(v: Vars, line: string): Vars {
    if v.fence.Some? then
      if FenceClose(line, v.fence.value.marker) then EndFence(v)
      else v.(fenceLines := v.fenceLines + [Dedent(line, v.fence.value.indent)])
    else
      match Classify(line)
      case Opener(f) => EndList(EndParagraph(v)).(fence := Some(f), fenceLines := [])
      case Blank => EndList(EndParagraph(v))
      case Title(level, text) => Push(EndList(EndParagraph(v)), Element(HeadingTag(level), RenderInline(text, 0)))
      case Item(ordered, text) =>
        var p := EndParagraph(v);
        var q := if p.listType.Some? && p.listType.value != ordered then EndList(p) else p;
        q.(listType := Some(ordered), listItems := q.listItems + [text])
      case Quoted(text) => Push(EndParagraph(EndList(v)), Element(Blockquote, RenderInline(text, 0)))
      case Ruler => Push(EndParagraph(EndList(v)), Print(Rule))
      case Plain => var q := EndList(v); q.(paragraph := q.paragraph + [line])
  }

  function RenderEach(blocks: seq<Block>): seq<string> {
    if blocks == [] then [] else [RenderBlock(blocks[0])] + RenderEach(blocks[1..])
  }

  function ItemTexts(lines: seq<string>): seq<string> {
    if lines == [] then [] else [ItemText(lines[0])] + ItemTexts(lines[1..])
  }

  /** How the variables stand for a state of the machine. */
  function View(s: State): Vars {
    Vars(RenderEach(s.blocks), s.paragraph, s.listType, ItemTexts(s.listItems),
      if s.fence.Some? then Some(FenceOf(s.fence.value)) else None,
      DedentAll(s.fenceLines, if s.fence.Some? then FenceOf(s.fence.value).indent else 0))
  }

  lemma {:induction false} RenderEachSnoc(blocks: seq<Block>, b: Block)
    ensures RenderEach(blocks + [b]) == RenderEach(blocks) + [RenderBlock(b)]
  {
    hide RenderBlock;
    if blocks == [] {
      assert [] + [b] == [b] && [b][1..] == [];
    } else {
      assert (blocks + [b])[1..] == blocks[1..] + [b];
      RenderEachSnoc(blocks[1..], b);
    }
  }

  lemma {:induction false} DedentSnoc(lines: seq<string>, line: string, indent: nat)
    ensures DedentAll(lines + [line], indent) == DedentAll(lines, indent) + [Dedent(line, indent)]
  {
    hide Dedent;
    if lines == [] {
      assert [] + [line] == [line] && [line][1..] == [];
    } else {
      assert (lines + [line])[1..] == lines[1..] + [line];
      DedentSnoc(lines[1..], line, indent);
    }
  }

  lemma {:induction false} ItemTextsSnoc(lines: seq<string>, line: string)
    ensures ItemTexts(lines + [line]) == ItemTexts(lines) + [ItemText(line)]
  {
    hide ItemText;
    if lines == [] {
      assert [] + [line] == [line] && [line][1..] == [];
    } else {
      assert (lines + [line])[1..] == lines[1..] + [line];
      ItemTextsSnoc(lines[1..], line);
    }
  }

  lemma {:induction false} RenderItemTexts(lines: seq<string>)
    ensures RenderTexts(ItemTexts(lines)) == RenderItems(lines)
  {
    hide ItemText, Element, RenderInline;
    if lines != [] {
      RenderItemTexts(lines[1..]);
      assert ItemTexts(lines)[1..] == ItemTexts(lines[1..]);
    }
  }

  lemma {:induction false} JoinEach(blocks: seq<Block>)
    ensures Join(RenderEach(blocks), "") == RenderBlocks(blocks)
  {
    hide RenderBlock;
    if blocks != [] {
      JoinEach(blocks[1..]);
      var parts := RenderEach(blocks);
      assert parts[1..] == RenderEach(blocks[1..]);
      assert parts[0] + "" + Join(parts[1..], "") == parts[0] + Join(parts[1..], "");
      if |parts| == 1 { assert RenderEach(blocks[1..]) == [] && blocks[1..] == []; }
    }
  }

  lemma ViewEndParagraph(s: State)
    ensures View(FlushParagraph(s)) == EndParagraph(View(s))
  {
    hide RenderInline, Element, Trim, DedentAll, ItemTexts, FenceOf;
    RenderEachSnoc(s.blocks, Paragraph(s.paragraph));
  }

  lemma ViewEndList(s: State)
    ensures View(FlushList(s)) == EndList(View(s))
  {
    hide RenderInline, Element, DedentAll, FenceOf, RenderTexts, RenderItems;
    if s.listType.Some? {
      RenderEachSnoc(s.blocks, Items(s.listType.value, s.listItems));
      RenderItemTexts(s.listItems);
    }
  }

  lemma ViewPush(s: State, b: Block)
    ensures View(Emit(s, b)) == Push(View(s), RenderBlock(b))
  {
    hide RenderBlock, DedentAll, ItemTexts, FenceOf;
    RenderEachSnoc(s.blocks, b);
  }

  lemma ViewTurnInFence(s: State, line: string)
    requires OneOpen(s) && s.fence.Some?
    ensures View(Step(s, line)) == Turn(View(s), line)
  {
    hide FenceClose, RenderCodeBlock, Dedent, Classify, ItemTexts;
    var f := FenceOf(s.fence.value);
    assert Marker(s.fence.value) == f.marker;
    hide FenceOf, Marker;
    if FenceClose(line, f.marker) {
      RenderEachSnoc(s.blocks, Fenced(s.fence.value, s.fenceLines));
    } else {
      DedentSnoc(s.fenceLines, line, f.indent);
    }
  }

  lemma ViewClosed(s: State)
    ensures View(FlushParagraph(FlushList(s))) == EndParagraph(EndList(View(s)))
    ensures View(Flush(s)) == EndList(EndParagraph(View(s)))
  {
    hide RenderInline, Element, Trim, Join, RenderEach, DedentAll, ItemTexts, RenderTexts, RenderItems, Print;
    ViewEndParagraph(s);
    ViewEndList(s);
    ViewEndList(FlushParagraph(s));
    ViewEndParagraph(FlushList(s));
    hide EndParagraph, EndList, View, FlushParagraph, FlushList;
  }

  lemma ViewTurnEmits(s: State, line: string)
    requires OneOpen(s) && s.fence.None?
    requires Classify(line).Title? || Classify(line).Quoted? || Classify(line).Ruler?
    ensures View(Step(s, line)) == Turn(View(s), line)
  {
    hide RenderInline, Element, Trim, Join, RenderEach, DedentAll, ItemTexts, RenderTexts, RenderItems, Print,
         EndParagraph, EndList, FlushParagraph, FlushList, Flush;
    ViewClosed(s);
    ViewPush(Flush(s), Heading(line));
    ViewPush(FlushParagraph(FlushList(s)), Quote(line));
    ViewPush(FlushParagraph(FlushList(s)), Divider(line));
    hide Classify;
  }

  lemma ViewTurnItem(s: State, line: string)
    requires OneOpen(s) && s.fence.None? && Classify(line).Item?
    ensures View(Step(s, line)) == Turn(View(s), line)
  {
    hide RenderInline, Element, Trim, Join, RenderEach, DedentAll, ItemTexts, RenderTexts, RenderItems, Print;
    ViewEndParagraph(s);
    ViewEndList(FlushParagraph(s));
    ItemTextsSnoc(s.listItems, line);
    ItemTextsSnoc([], line);
    NothingDedented();
    hide Classify;
  }

  lemma ViewTurnOther(s: State, line: string)
    requires OneOpen(s) && s.fence.None?
    requires Classify(line).Opener? || Classify(line).Blank? || Classify(line).Plain?
    ensures View(Step(s, line)) == Turn(View(s), line)
  {
    hide RenderInline, Element, Trim, Join, RenderEach, DedentAll, ItemTexts, RenderTexts, RenderItems, Print;
    ViewClosed(s);
    ViewEndList(s);
    NothingDedented();
    if Classify(line).Opener? { OpenerFence(line); }
    hide Classify, FenceOf;
  }

  lemma ViewTurnOutside(s: State, line: string)
    requires OneOpen(s) && s.fence.None?
    ensures View(Step(s, line)) == Turn(View(s), line)
  {
    hide Classify, View, Step, Turn;
    match Classify(line)
    case Item(_, _) => ViewTurnItem(s, line);
    case Opener(_) => ViewTurnOther(s, line);
    case Blank => ViewTurnOther(s, line);
    case Plain => ViewTurnOther(s, line);
    case _ => ViewTurnEmits(s, line);
  }

  lemma NothingDedented()
    ensures forall indent: nat :: DedentAll([], indent) == []
    ensures ItemTexts([]) == []
  {
  }

  lemma OpenerFence(line: string)
    requires Classify(line).Opener?
    ensures FenceOf(line) == Classify(line).fence
  {
  }

  lemma ViewTurn(s: State, line: string)
    requires OneOpen(s)
    ensures View(Step(s, line)) == Turn(View(s), line)
  {
    hide View, Step, Turn;
    if s.fence.Some? { ViewTurnInFence(s, line); } else { ViewTurnOutside(s, line); }
  }

  function AfterLast(v: Vars): Vars { EndList(EndParagraph(if v.fence.Some? then EndFence(v) else v)) }

  lemma ViewFinish(s: State)
    requires OneOpen(s)
    ensures Join(AfterLast(View(s)).blocks, "") == RenderBlocks(Finish(s))
  {
    hide RenderBlock, RenderInline, RenderCodeBlock, RenderBlocks, RenderTexts, Join;
    var t := if s.fence.Some? then Emit(s, Fenced(s.fence.value, s.fenceLines)) else s;
    ViewLastFence(s);
    ViewEndParagraph(t);
    ViewEndList(FlushParagraph(t));
    hide View, EndParagraph, EndList, EndFence;
    JoinEach(Finish(s));
    assert EndList(EndParagraph(View(t))) == View(Flush(t));
    ViewBlocks(Flush(t));
    EndsAgree(s);
  }

  lemma ViewBlocks(s: State)
    ensures View(s).blocks == RenderEach(s.blocks)
  {
    hide RenderEach, DedentAll, ItemTexts, FenceOf;
  }

  /** Closing the fence at the end leaves the same blocks whether or not the fence is also forgotten. */
  lemma EndsAgree(s: State)
    requires OneOpen(s)
    ensures var t := if s.fence.Some? then Emit(s, Fenced(s.fence.value, s.fenceLines)) else s;
      AfterLast(View(s)).blocks == EndList(EndParagraph(View(t))).blocks
  {
    hide RenderBlock, RenderInline, RenderCodeBlock, RenderTexts, Join, Element, Trim;
    if s.fence.Some? {
      ViewLastFence(s);
      ViewPush(s, Fenced(s.fence.value, s.fenceLines));
      NothingDedented();
      hide RenderEach, DedentAll, ItemTexts, FenceOf;
    }
  }

  lemma ViewLastFence(s: State)
    requires OneOpen(s)
    ensures s.fence.Some? ==> EndFence(View(s)).blocks == View(s).blocks + [RenderBlock(Fenced(s.fence.value, s.fenceLines))]
  {
    hide RenderCodeBlock, FenceOf, DedentAll, Join, RenderEach, ItemTexts;
  }

  /** The variables `renderMarkdown` updates, with its two local functions. */
  class Renderer {
    var blocks: seq<string>
    var paragraph: seq<string>
    var listType: Option<bool>
    var listItems: seq<string>
    var fence: Option<Fence>
    var fenceLines: seq<string>

    function Current(): Vars
      reads this
    {
      Vars(blocks, paragraph, listType, listItems, fence, fenceLines)
    }

    constructor ()
      ensures Current() == Vars([], [], None, [], None, [])
    {
      blocks, paragraph, listType, listItems, fence, fenceLines := [], [], None, [], None, [];
    }

    method FlushParagraph()
      modifies this
      ensures Current() == EndParagraph(old(Current()))
    {
      if paragraph == [] { return; }
      blocks := blocks + [Element(P, RenderInline(Trim(Join(paragraph, "\n")), 0))];
      paragraph := [];
    }

    method FlushList()
      modifies this
      ensures Current() == EndList(old(Current()))
    {
      if listType.None? { return; }
      blocks := blocks + [Element(if listType.value then Ol else Ul, RenderTexts(listItems))];
      listType := None;
      listItems := [];
    }

    /** One turn of the loop. */
    method Line(line: string)
      modifies this
      ensures Current() == Turn(old(Current()), line)
    {
      hide RenderInline, Element, Join, RenderCodeBlock, Dedent, EndParagraph, EndList, Classify;
      if fence.Some? {
        if FenceClose(line, fence.value.marker) {
          blocks := blocks + [RenderCodeBlock(Join(fenceLines, "\n"), fence.value.language)];
          fence := None;
          fenceLines := [];
        } else {
          fenceLines := fenceLines + [Dedent(line, fence.value.indent)];
        }
        return;
      }
      match Classify(line) {
        case Opener(f) =>
          FlushParagraph();
          FlushList();
          fence := Some(f);
          fenceLines := [];
        case Blank =>
          FlushParagraph();
          FlushList();
        case Title(level, text) =>
          FlushParagraph();
          FlushList();
          blocks := blocks + [Element(HeadingTag(level), RenderInline(text, 0))];
        case Item(ordered, text) =>
          FlushParagraph();
          if listType.Some? && listType.value != ordered { FlushList(); }
          listType := Some(ordered);
          listItems := listItems + [text];
        case Quoted(text) =>
          FlushList();
          FlushParagraph();
          blocks := blocks + [Element(Blockquote, RenderInline(text, 0))];
        case Ruler =>
          FlushList();
          FlushParagraph();
          blocks := blocks + [Print(Rule)];
        case Plain =>
          FlushList();
          paragraph := paragraph + [line];
      }
    }

    /** What is left open after the last line is closed. */
    method Close()
      modifies this
      ensures blocks == AfterLast(old(Current())).blocks
    {
      hide RenderInline, Element, Join, RenderCodeBlock;
      ghost var v := Current();
      if fence.Some? {
        blocks := blocks + [RenderCodeBlock(Join(fenceLines, "\n"), fence.value.language)];
      }
      FlushParagraph();
      FlushList();
    }
  }

  /** `renderMarkdown`: every line takes one turn, then what is left open is closed. */
  method Render(markdown: string) returns (html: string)
    ensures html == RenderMarkdown(markdown)
  {
    hide View, Turn, Step, AfterLast, Parse, OneOpen;
    var lines := Lines(markdown);
    var r := new Renderer();
    ghost var s := START;
    StartView();
    for i := 0 to |lines|
      invariant OneOpen(s) && r.Current() == View(s)
      invariant RunLines(lines[i..], s) == RunLines(lines, START)
    {
      ViewTurn(s, lines[i]);
      StepKeepsOneOpen(s, lines[i]);
      r.Line(lines[i]);
      s := Step(s, lines[i]);
    }
    ViewFinish(s);
    ParseEnds(lines, s);
    r.Close();
    html := Join(r.blocks, "");
  }

  lemma StartView()
    ensures OneOpen(START) && View(START) == Vars([], [], None, [], None, [])
  {
  }

  lemma ParseEnds(lines: seq<string>, s: State)
    requires RunLines(lines[|lines|..], s) == RunLines(lines, START)
    ensures Parse(lines) == Finish(s)
  {
  }
}
