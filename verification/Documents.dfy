/** Whole documents against the source's regular expressions and tags: what every line is, and the HTML of every
    document, without the recognisers and the tag names of the renderer. */
module Documents {
  import opened Text
  import opened Escaping
  import opened Regex
  import opened Html
  import opened Inline
  import opened Highlight
  import opened Blocks
  import opened Recognisers
  import opened Markdown
  import InlineMeaning
  import Placeholders
  import Replacements

  // --- The kind of a line --------------------------------------------------------------------------

  /** What a line is: the expressions are tried in the order of the source, and the first that matches decides, with
      its groups as the level and the text. */
  function Kind(line: string): LineKind {
    var opener := OpenerOf(line, Exec(OPENER_EXPRESSION, line));
    var title := Exec(TITLE_EXPRESSION, line);
    var bullet := Exec(BULLET_EXPRESSION, line);
    var number := Exec(NUMBER_EXPRESSION, line);
    var quote := Exec(QUOTE_EXPRESSION, line);
    if opener.Some? then Opener(opener.value)
    else if forall i | 0 <= i < |line| :: IsSpace(line[i]) then Blank
    else if title.Some? then Title(|Between(line, title.value, 0, 1)|, Between(line, title.value, 2, 3))
    else if bullet.Some? then Item(false, Between(line, bullet.value, 0, 1))
    else if number.Some? then Item(true, Between(line, number.value, 0, 1))
    else if quote.Some? then Quoted(Between(line, quote.value, 0, 1))
    else if Exec(RULE_EXPRESSION, line).Some? then Ruler
    else Plain
  }

  lemma {:induction false} TrimEndNothing(s: string)
    ensures TrimEnd(s) == "" <==> AllSpace(s)
  {
    hide IsSpace;
    if s != "" {
      var n := |s| - 1;
      if IsSpace(s[n]) {
        TrimEndNothing(s[..n]);
        assert AllSpace(s) <==> AllSpace(s[..n]) by {
          if AllSpace(s[..n]) { forall i | 0 <= i < |s| ensures IsSpace(s[i]) { if i < n { assert s[i] == s[..n][i]; } } }
        }
      }
    }
  }

  /** Trimming leaves nothing exactly of white space. */
  lemma TrimNothing(s: string)
    ensures Trim(s) == "" <==> AllSpace(s)
  {
    hide IsSpace, Run;
    var n := Run(IsSpace, s);
    TrimEndNothing(s[n..]);
    if n < |s| { assert s[n..][0] == s[n]; }
  }

  /** Every line gets the kind that the source's expressions give it. */
  lemma LineKinds(line: string)
    ensures Classify(line) == Kind(line)
  {
    OpenerMatches(line);
    TrimNothing(line);
    TitleMatches(line);
    BulletMatches(line);
    NumberMatches(line);
    QuoteMatches(line);
    RuleMatches(line);
    hide Exec, FenceOpen, TitleAt, BulletAt, NumberedAt, QuoteAt, IsRule, OpenerOf, Between, IsSpace, Trim;
  }

  // --- The HTML of a document ----------------------------------------------------------------------

  /** How many lines in front satisfy `p`. */
  function Leading(p: string -> bool, lines: seq<string>): (n: nat)
    ensures n <= |lines|
  {
    if lines == [] || !p(lines[0]) then 0 else 1 + Leading(p, lines[1..])
  }

  predicate IsPlain(line: string) { Kind(line).Plain? }

  predicate IsItemOf(line: string, ordered: bool) { Kind(line).Item? && Kind(line).ordered == ordered }

  predicate Closes(line: string, marker: char) { Exec(CloserExpression(marker), line).Some? }

  function HeadingHtml(level: nat, html: string): string {
    if level == 1 then "<h1>" + html + "</h1>"
    else if level == 2 then "<h2>" + html + "</h2>"
    else "<h3>" + html + "</h3>"
  }

  function ListHtml(ordered: bool, items: string): string {
    if ordered then "<ol>" + items + "</ol>" else "<ul>" + items + "</ul>"
  }

  function ItemsHtml(lines: seq<string>): string {
    if lines == [] then ""
    else
      var text := if Kind(lines[0]).Item? then Kind(lines[0]).text else "";
      "<li>" + RenderInline(text, 0) + "</li>" + ItemsHtml(lines[1..])
  }

  function CodeHtml(info: string, code: string): string {
    var language := NormalizeLanguage(info);
    "<pre class=\"markdown-code\"" + (if language == "" then "" else " data-language=\"" + EscapeAttribute(language) + "\"")
    + "><code>" + HighlightCode(code, language) + "</code></pre>"
  }

  // `/^ */` finds the indentation of a fenced line; as much of it goes as the opener has.
  function Outdented(line: string, indent: nat): string {
    var found := Exec(Many(Is(' ')), line);
    var spaces := if found.Some? then found.value.pos else 0;
    var cut := if indent < spaces then indent else spaces;
    if cut <= |line| then line[cut..] else ""
  }

  /** The items, the plain lines or the fenced lines that go on a block, and what is behind them. */
  function MoreItems(rest: seq<string>, ordered: bool): (n: nat)
    ensures n <= |rest|
  {
    Leading(l => IsItemOf(l, ordered), rest)
  }

  function MorePlain(rest: seq<string>): (n: nat)
    ensures n <= |rest|
  {
    Leading(IsPlain, rest)
  }

  function MoreCode(rest: seq<string>, marker: char): (n: nat)
    ensures n <= |rest|
  {
    Leading(l => !Closes(l, marker), rest)
  }

  function FencedHtml(f: Fence, body: seq<string>): string {
    CodeHtml(f.language, Join(seq(|body|, i requires 0 <= i < |body| => Outdented(body[i], f.indent)), "\n"))
  }

  /** The HTML of the block that `line` begins, in front of the lines `rest`. A list goes on for the items of its kind
      and a paragraph for the plain lines; a code block ends with the line that closes its fence. */
  function BlockHtml(line: string, rest: seq<string>): string {
    match Kind(line)
    case Blank => ""
    case Title(level, text) => HeadingHtml(level, RenderInline(text, 0))
    case Item(ordered, _) => ListHtml(ordered, ItemsHtml([line] + rest[..MoreItems(rest, ordered)]))
    case Quoted(text) => "<blockquote>" + RenderInline(text, 0) + "</blockquote>"
    case Ruler => "<hr>"
    case Plain => "<p>" + RenderInline(Trim(Join([line] + rest[..MorePlain(rest)], "\n")), 0) + "</p>"
    case Opener(f) => FencedHtml(f, rest[..MoreCode(rest, f.marker)])
  }

  /** The lines behind that block. */
  function Behind(line: string, rest: seq<string>): (lines: seq<string>)
    ensures |lines| <= |rest|
  {
    match Kind(line)
    case Item(ordered, _) => rest[MoreItems(rest, ordered)..]
    case Plain => rest[MorePlain(rest)..]
    case Opener(f) =>
      var n := MoreCode(rest, f.marker);
      if n < |rest| then rest[n + 1..] else []
    case _ => rest
  }

  function Page(lines: seq<string>): string
    decreases |lines|
  {
    if lines == [] then ""
    else BlockHtml(lines[0], lines[1..]) + Page(Behind(lines[0], lines[1..]))
  }

  // --- The tags ------------------------------------------------------------------------------------

  lemma BlockTags(html: string)
    ensures Element(P, html) == "<p>" + html + "</p>"
    ensures Element(Blockquote, html) == "<blockquote>" + html + "</blockquote>"
  {
  }

  lemma ItemTags(html: string)
    ensures Element(Li, html) == "<li>" + html + "</li>"
  {
  }

  lemma RuleTag()
    ensures Print(Rule) == "<hr>"
  {
  }

  lemma HeadingTags(html: string)
    ensures Element(H1, html) == "<h1>" + html + "</h1>"
    ensures Element(H2, html) == "<h2>" + html + "</h2>"
    ensures Element(H3, html) == "<h3>" + html + "</h3>"
  {
  }

  lemma HeadingShows(level: nat, html: string)
    ensures Element(HeadingTag(level), html) == HeadingHtml(level, html)
  {
    HeadingTags(html);
    hide Element;
  }

  lemma ListTags(ordered: bool, items: string)
    ensures Element(if ordered then Ol else Ul, items) == ListHtml(ordered, items)
  {
    OrderedTags(items);
    UnorderedTags(items);
    hide Element;
  }

  lemma OrderedTags(items: string)
    ensures Element(Ol, items) == "<ol>" + items + "</ol>"
  {
  }

  lemma UnorderedTags(items: string)
    ensures Element(Ul, items) == "<ul>" + items + "</ul>"
  {
  }

  lemma CodeTexts()
    ensures OpenText(Code) == "<code>" && CloseText(Code) == "</code>" && CloseText(Pre) == "</pre>"
    ensures ">" + "<code>" == "><code>" && "</code>" + "</pre>" == "</code></pre>"
  {
  }

  lemma CodeJoins(head: string, attribute: string, close: string, code: string, middle: string, end: string, last: string)
    ensures (head + attribute + close) + code + middle + end + last == head + attribute + (close + code) + middle + (end + last)
  {
  }

  lemma CodeTags(code: string, info: string)
    ensures RenderCodeBlock(code, info) == CodeHtml(info, code)
  {
    CodeTexts();
    hide NormalizeLanguage, HighlightCode, EscapeAttribute, OpenText, CloseText;
    var language := NormalizeLanguage(info);
    var attribute := if language == "" then "" else " data-language=\"" + EscapeAttribute(language) + "\"";
    PreIs(language, attribute);
    CodeJoins("<pre class=\"markdown-code\"", attribute, ">", "<code>", HighlightCode(code, language), "</code>", "</pre>");
  }

  lemma PreIs(language: string, attribute: string)
    requires attribute == if language == "" then "" else " data-language=\"" + EscapeAttribute(language) + "\""
    ensures PreOpenText(if language == "" then "" else EscapeAttribute(language))
         == "<pre class=\"markdown-code\"" + attribute + ">"
  {
    EscapedNotEmpty(language);
    hide EscapeAttribute;
  }

  lemma EscapedNotEmpty(s: string)
    ensures EscapeAttribute(s) == "" <==> s == ""
  {
    AttributeIsPointwise(s);
    hide EscapeAttribute, Entity;
    if s != "" { EntityNotEmpty(s[0]); }
  }

  lemma EntityNotEmpty(c: char)
    ensures Entity(c) != ""
  {
  }

  // --- Every document ------------------------------------------------------------------------------

  lemma {:induction false} PlainRunIs(lines: seq<string>)
    ensures PlainRun(lines) == MorePlain(lines)
  {
    hide Classify, Kind;
    if lines != [] {
      LineKinds(lines[0]);
      PlainRunIs(lines[1..]);
    }
  }

  lemma {:induction false} ItemRunIs(lines: seq<string>, ordered: bool)
    ensures ItemRun(lines, ordered) == MoreItems(lines, ordered)
  {
    hide Classify, Kind;
    if lines != [] {
      LineKinds(lines[0]);
      ItemRunIs(lines[1..], ordered);
    }
  }

  lemma {:induction false} FenceBodyIs(lines: seq<string>, marker: char)
    requires marker == '`' || marker == '~'
    ensures FenceBody(lines, marker) == MoreCode(lines, marker)
  {
    hide FenceClose, Exec;
    if lines != [] {
      CloserMatches(lines[0], marker);
      FenceBodyIs(lines[1..], marker);
    }
  }

  lemma {:induction false} ItemsAre(lines: seq<string>)
    ensures RenderItems(lines) == ItemsHtml(lines)
  {
    hide Classify, Kind, RenderInline, Element;
    if lines != [] {
      LineKinds(lines[0]);
      ItemTags(RenderInline(Markdown.ItemText(lines[0]), 0));
      ItemsAre(lines[1..]);
    }
  }

  lemma OutdentedIs(line: string, indent: nat)
    ensures Dedent(line, indent) == Outdented(line, indent)
  {
    hide Exec, RunOf;
    SpacesFound(line);
  }

  lemma SpacesFound(line: string)
    ensures Exec(Many(Is(' ')), line) == Some(At(RunOf(' ', line), []))
  {
    hide Try, RunOf;
    StopOf(' ', line, 0);
    assert line[0..] == line;
    ManyAlone(Is(' '), line, At(0, []));
  }

  lemma {:induction false} OutdentedAll(body: seq<string>, indent: nat)
    ensures DedentAll(body, indent) == seq(|body|, i requires 0 <= i < |body| => Outdented(body[i], indent))
  {
    hide Dedent, Outdented;
    if body != [] {
      OutdentedIs(body[0], indent);
      OutdentedAll(body[1..], indent);
    }
  }

  lemma RenderOne(b: Block)
    ensures RenderBlocks([b]) == RenderBlock(b) && RenderBlocks([]) == ""
  {
    hide RenderBlock;
    assert [b][1..] == [];
  }

  lemma FencedShows(line: string, body: seq<string>)
    ensures Kind(line).Opener? ==> RenderBlock(Fenced(line, body)) == FencedHtml(Kind(line).fence, body)
  {
    hide Kind, FenceOpen, RenderCodeBlock, CodeHtml, Join, DedentAll;
    LineKinds(line);
    if Kind(line).Opener? {
      OpenerFence(line);
      hide FenceOf;
      OutdentedAll(body, Kind(line).fence.indent);
      CodeTags(CodeOf(line, body), Kind(line).fence.language);
    }
  }

  lemma CodeShows(line: string, rest: seq<string>)
    requires Kind(line).Opener?
    ensures RenderBlocks(TakeBlock(line, rest).0) == BlockHtml(line, rest) && TakeBlock(line, rest).1 == Behind(line, rest)
  {
    hide Classify, Kind, MoreCode, FenceBody, FencedHtml, RenderBlock, FenceOpen, RenderBlocks;
    LineKinds(line);
    var marker := Kind(line).fence.marker;
    OpenerMarks(line);
    FenceBodyIs(rest, marker);
    var body := rest[..MoreCode(rest, marker)];
    RenderOne(Fenced(line, body));
    FencedShows(line, body);
  }

  lemma OpenerMarks(line: string)
    requires Classify(line).Opener?
    ensures var c := Classify(line).fence.marker; c == '`' || c == '~'
  {
    hide RunOf, TrimStart, Dots, TitleAt, BulletAt, NumberedAt, QuoteAt, IsRule, Trim;
  }

  lemma ListShows(line: string, rest: seq<string>)
    requires Kind(line).Item?
    ensures RenderBlocks(TakeBlock(line, rest).0) == BlockHtml(line, rest) && TakeBlock(line, rest).1 == Behind(line, rest)
  {
    hide Classify, Kind, MoreItems, ItemRun, Element, RenderItems, ItemsHtml, ListHtml, RenderBlocks;
    LineKinds(line);
    var ordered := Kind(line).ordered;
    ItemRunIs(rest, ordered);
    var lines := [line] + rest[..MoreItems(rest, ordered)];
    RenderOne(Items(ordered, lines));
    ItemsAre(lines);
    ListTags(ordered, ItemsHtml(lines));
  }

  lemma ParagraphShows(line: string, rest: seq<string>)
    requires Kind(line).Plain?
    ensures RenderBlocks(TakeBlock(line, rest).0) == BlockHtml(line, rest) && TakeBlock(line, rest).1 == Behind(line, rest)
  {
    hide Classify, Kind, MorePlain, PlainRun, Element, RenderInline, Trim, Join, RenderBlocks;
    LineKinds(line);
    PlainRunIs(rest);
    var lines := [line] + rest[..MorePlain(rest)];
    RenderOne(Paragraph(lines));
    BlockTags(RenderInline(Trim(Join(lines, "\n")), 0));
  }

  lemma LineShows(line: string, rest: seq<string>)
    requires Kind(line).Title? || Kind(line).Quoted? || Kind(line).Ruler?
    ensures RenderBlocks(TakeBlock(line, rest).0) == BlockHtml(line, rest) && TakeBlock(line, rest).1 == Behind(line, rest)
  {
    hide Classify, Kind, Element, RenderInline, RenderBlocks, HeadingHtml, HeadingTag, Print;
    LineKinds(line);
    RuleTag();
    match Kind(line)
    case Title(level, text) =>
      RenderOne(Heading(line));
      HeadingShows(level, RenderInline(text, 0));
    case Quoted(text) =>
      RenderOne(Quote(line));
      BlockTags(RenderInline(text, 0));
    case _ => RenderOne(Divider(line));
  }

  /** The block that the reference parser takes, as HTML, and the lines behind it. */
  lemma BlockShows(line: string, rest: seq<string>)
    ensures RenderBlocks(TakeBlock(line, rest).0) == BlockHtml(line, rest) && TakeBlock(line, rest).1 == Behind(line, rest)
  {
    hide RenderBlocks, Kind, Classify, FencedHtml, ItemsHtml, ListHtml, HeadingHtml, RenderInline, MoreCode, MoreItems,
         MorePlain, FenceBody, ItemRun, PlainRun, AfterFence, Trim, Join;
    match Kind(line)
    case Blank =>
      LineKinds(line);
      RenderOne(Heading(line));
    case Opener(f) => CodeShows(line, rest);
    case Item(_, _) => ListShows(line, rest);
    case Plain => ParagraphShows(line, rest);
    case _ => LineShows(line, rest);
  }

  lemma {:induction false} LinesShow(lines: seq<string>)
    ensures RenderBlocks(Reference(lines)) == Page(lines)
    decreases |lines|
  {
    hide RenderBlocks, BlockHtml, Behind, TakeBlock;
    RenderOne(Heading(""));
    if lines != [] {
      var line, rest := lines[0], lines[1..];
      BlockShows(line, rest);
      RenderBlocksConcat(TakeBlock(line, rest).0, Reference(TakeBlock(line, rest).1));
      LinesShow(Behind(line, rest));
    }
  }

  /** `String(markdown).replace(/\r\n?/g, "\n").split("\n")` */
  function SourceLines(markdown: string): seq<string> {
    Split(Replacements.Rewrite(Replacements.RETURN, markdown, Replacements.Always("\n")))
  }

  /** What every document shows, over the expressions and the tags of the source. */
  lemma DocumentShows(markdown: string)
    ensures RenderMarkdown(markdown) == Page(SourceLines(markdown))
  {
    hide Parse, Reference, RenderBlocks, Page, ReplaceAll, Split;
    Replacements.ReturnsReplace(markdown, 0);
    assert markdown[0..] == markdown;
    ParseIsReference(Lines(markdown));
    LinesShow(Lines(markdown));
  }

  lemma PageOfOne(line: string)
    ensures Page([line]) == BlockHtml(line, [])
  {
    hide BlockHtml;
    assert [line][1..] == [] && Behind(line, []) == [];
    assert BlockHtml(line, []) + Page([]) == BlockHtml(line, []);
  }

  /** A document of one line shows the block that the line is. */
  lemma OneLineShows(line: string)
    requires SingleLine(line)
    ensures RenderMarkdown(line) == BlockHtml(line, [])
  {
    hide Parse, Reference, RenderBlocks, Page, BlockHtml, Lines;
    OneLineLines(line);
    ParseIsReference([line]);
    LinesShow([line]);
    PageOfOne(line);
  }

  // --- Lines of each kind --------------------------------------------------------------------------

  /** Text that can follow a list mark or a title mark: one line, not beginning with white space. */
  predicate Follows(t: string) { t != "" && Dots(t) && !IsSpace(t[0]) }

  lemma DotsAreOneLine(t: string)
    requires Dots(t)
    ensures SingleLine(t)
  {
  }

  /** A line that begins with neither white space, nor a fence mark, nor `#`. */
  lemma FirstDecides(line: string)
    requires line != "" && !IsSpace(line[0]) && line[0] != '`' && line[0] != '~'
    ensures FenceOpen(line).None? && Trim(line) != "" && Run(IsSpace, line) == 0 && line[0..] == line
    ensures line[0] != '#' ==> TitleAt(line).None?
  {
    TrimNothing(line);
    hide Trim;
  }

  lemma BodyAfterSpace(s: string, t: string)
    requires s == [' '] + t && Follows(t)
    ensures ItemBody(s, Run(IsSpace, s)) == Some(t)
  {
    assert s[1..] == t && Run(IsSpace, t) == 0;
  }

  lemma BulletKind(sign: char, t: string)
    requires IsBullet(sign) && Follows(t)
    ensures Classify([sign, ' '] + t) == Item(false, t)
  {
    hide FenceOpen, TitleAt, Trim, ItemBody, Run, Dots;
    var line := [sign, ' '] + t;
    SignsAreNoSpace();
    hide IsSpace;
    FirstDecides(line);
    assert line[1..] == [' '] + t;
    BodyAfterSpace(line[1..], t);
  }

  lemma {:induction false} DigitsRun(digits: string, rest: string)
    requires (forall i | 0 <= i < |digits| :: IsDigit(digits[i])) && rest != "" && !IsDigit(rest[0])
    ensures Run(IsDigit, digits + rest) == |digits|
  {
    hide IsDigit;
    var s := digits + rest;
    if digits == "" {
      assert s == rest;
    } else {
      assert s[0] == digits[0] && s[1..] == digits[1..] + rest;
      DigitsRun(digits[1..], rest);
    }
  }

  lemma NumberKind(digits: string, stop: char, t: string)
    requires digits != "" && (forall i | 0 <= i < |digits| :: IsDigit(digits[i])) && IsStop(stop) && Follows(t)
    ensures Classify(digits + ([stop, ' '] + t)) == Item(true, t)
  {
    hide FenceOpen, TitleAt, Trim, ItemBody, Run, Dots;
    var line := digits + ([stop, ' '] + t);
    assert IsDigit(line[0]);
    SignsAreNoSpace();
    hide IsSpace;
    FirstDecides(line);
    DigitsRun(digits, [stop, ' '] + t);
    assert line[|digits|] == stop && line[|digits| + 1..] == [' '] + t;
    BodyAfterSpace(line[|digits| + 1..], t);
  }

  /** What a title keeps: all of a text that ends in neither white space nor `#`. */
  predicate EndsOpen(t: string) { t != "" && !IsSpace(t[|t| - 1]) && t[|t| - 1] != '#' }

  lemma NoTail(s: string)
    requires EndsOpen(s)
    ensures !TitleTail(s)
  {
    var n, a := |s| - 1, Run(IsSpace, s);
    var b := RunOf('#', s[a..]);
    assert forall k | 0 <= k < |s| - a :: s[a..][k] == s[a + k];
    assert a + b < |s|;
    assert s[a + b..][n - a - b] == s[n];
  }

  lemma {:induction false} WholeTitle(t: string, n: nat)
    requires n <= |t| && Dots(t) && EndsOpen(t)
    ensures TitleText(t, n) == Some(t)
    decreases |t| - n
  {
    hide TitleTail, Dots, EndsOpen;
    DotsInFront(t, n);
    if n == |t| {
      assert t[..n] == t && t[n..] == "";
      EmptyTail(t);
    } else {
      EndsAlike(t, n);
      NoTail(t[n..]);
      WholeTitle(t, n + 1);
    }
  }

  lemma EmptyTail(t: string)
    ensures TitleTail("") && (EndsOpen(t) ==> t != "")
  {
  }

  lemma EndsAlike(t: string, n: nat)
    requires n < |t| && EndsOpen(t)
    ensures EndsOpen(t[n..])
  {
    hide IsSpace;
  }

  lemma DotsInFront(t: string, n: nat)
    requires n <= |t| && Dots(t)
    ensures Dots(t[..n])
  {
    hide IsLineTerminator;
  }

  function Hashes(level: nat): string { seq(level, _ => '#') }

  lemma HashesRun(level: nat, t: string)
    ensures RunOf('#', Hashes(level) + ([' '] + t)) == level
  {
    var s := Hashes(level) + ([' '] + t);
    assert s[level] == ' ' && forall i | 0 <= i < level :: s[i] == '#';
  }

  lemma TitleKind(level: nat, t: string)
    requires 1 <= level <= 3 && Follows(t) && EndsOpen(t)
    ensures Classify(Hashes(level) + ([' '] + t)) == Title(level, t)
  {
    hide FenceOpen, Trim, TitleText, RunOf, Dots;
    var line := Hashes(level) + ([' '] + t);
    assert line[0] == '#';
    FirstDecides(line);
    HashesRun(level, t);
    var rest := line[level..];
    assert rest == [' '] + t && rest[1..] == t;
    assert Run(IsSpace, t) == 0 && Run(IsSpace, rest) == 1;
    hide IsSpace, EndsOpen;
    WholeTitle(t, 0);
  }

  lemma QuoteKind(t: string)
    requires Dots(t)
    ensures Classify(['>', ' '] + t) == Quoted(t)
  {
    hide FenceOpen, TitleAt, Trim, Run, Dots;
    var line := ['>', ' '] + t;
    FirstDecides(line);
    assert line[1..] == [' '] + t && line[1..][1..] == t;
    assert Run(IsDigit, line) == 0 && line[0..] == line;
    assert IsSpace(' ');
  }

  lemma {:induction false} CountAll(c: char, n: nat)
    ensures Count(c, seq(n, _ => c)) == n
  {
    if n > 0 {
      assert seq(n, _ => c)[1..] == seq(n - 1, _ => c);
      CountAll(c, n - 1);
    }
  }

  lemma RuleKind(c: char, n: nat)
    requires IsRuleMark(c) && n >= 3
    ensures Classify(seq(n, _ => c)) == Ruler
  {
    hide FenceOpen, TitleAt, Trim, Count;
    var line := seq(n, _ => c);
    assert line[0] == c && line[1] == c;
    SignsAreNoSpace();
    FirstDecides(line);
    CountAll(c, n);
    assert Run(IsSpace, line[1..]) == 0 && Run(IsDigit, line) == 0 && line[0..] == line;
    assert !IsSpace(c);
  }

  // --- What plain lines show -----------------------------------------------------------------------

  lemma Nested(a: string, b: string, html: string, c: string, d: string, ab: string, cd: string)
    requires a + b == ab && c + d == cd
    ensures a + (b + html + c) + d == ab + html + cd
  {
  }

  lemma ListOfOne(ordered: bool, html: string)
    ensures ordered ==> ListHtml(ordered, "<li>" + html + "</li>") == "<ol><li>" + html + "</li></ol>"
    ensures !ordered ==> ListHtml(ordered, "<li>" + html + "</li>") == "<ul><li>" + html + "</li></ul>"
  {
    if ordered {
      Nested("<ol>", "<li>", html, "</li>", "</ol>", "<ol><li>", "</li></ol>");
    } else {
      Nested("<ul>", "<li>", html, "</li>", "</ul>", "<ul><li>", "</li></ul>");
    }
  }

  lemma ItemsOfOne(line: string)
    requires Kind(line).Item?
    ensures ItemsHtml([line]) == "<li>" + RenderInline(Kind(line).text, 0) + "</li>"
  {
    hide Kind, RenderInline;
    assert [line][1..] == [];
    var item := "<li>" + RenderInline(Kind(line).text, 0) + "</li>";
    assert ItemsHtml([line]) == item + ItemsHtml([]);
  }

  lemma ItemAlone(line: string, ordered: bool, text: string)
    requires Kind(line) == Item(ordered, text)
    ensures BlockHtml(line, []) == ListHtml(ordered, "<li>" + RenderInline(text, 0) + "</li>")
  {
    ItemsOfOne(line);
    hide Kind, RenderInline, ListHtml, ItemsHtml;
    assert [line] + [][..MoreItems([], ordered)] == [line];
  }

  lemma PlainAlone(line: string)
    requires Kind(line) == Plain
    ensures BlockHtml(line, []) == "<p>" + RenderInline(Trim(line), 0) + "</p>"
  {
    hide Kind, RenderInline, Trim;
    assert [line] + [] == [line];
  }

  /** A bullet and a text are an unordered list of one item. */
  lemma BulletShows(sign: char, t: string)
    requires IsBullet(sign) && Follows(t)
    ensures RenderMarkdown([sign, ' '] + t) == "<ul><li>" + RenderInline(t, 0) + "</li></ul>"
  {
    hide *;
    var line := [sign, ' '] + t;
    BulletIsOneLine(sign, t);
    OneLineShows(line);
    LineKinds(line);
    BulletKind(sign, t);
    ItemAlone(line, false, t);
    ListOfOne(false, RenderInline(t, 0));
  }

  lemma BulletIsOneLine(sign: char, t: string)
    requires IsBullet(sign) && Follows(t)
    ensures SingleLine([sign, ' '] + t)
  {
    DotsAreOneLine(t);
  }

  /** Digits, a dot or a parenthesis, and a text are an ordered list of one item. */
  lemma NumberShows(digits: string, stop: char, t: string)
    requires digits != "" && (forall i | 0 <= i < |digits| :: IsDigit(digits[i])) && IsStop(stop) && Follows(t)
    ensures RenderMarkdown(digits + ([stop, ' '] + t)) == "<ol><li>" + RenderInline(t, 0) + "</li></ol>"
  {
    hide *;
    var line := digits + ([stop, ' '] + t);
    NumberIsOneLine(digits, stop, t);
    OneLineShows(line);
    LineKinds(line);
    NumberKind(digits, stop, t);
    ItemAlone(line, true, t);
    ListOfOne(true, RenderInline(t, 0));
  }

  lemma NumberIsOneLine(digits: string, stop: char, t: string)
    requires (forall i | 0 <= i < |digits| :: IsDigit(digits[i])) && IsStop(stop) && Follows(t)
    ensures SingleLine(digits + ([stop, ' '] + t))
  {
    DotsAreOneLine(t);
  }

  /** One to three hashes and a text are a heading of that level; the text ends in neither white space nor a hash, which
      a heading drops. */
  lemma HeadingOfLevel(level: nat, t: string)
    requires 1 <= level <= 3 && Follows(t) && EndsOpen(t)
    ensures RenderMarkdown(Hashes(level) + ([' '] + t)) == HeadingHtml(level, RenderInline(t, 0))
  {
    hide Kind, RenderInline, HeadingHtml, RenderMarkdown, Classify, EndsOpen;
    var line := Hashes(level) + ([' '] + t);
    DotsAreOneLine(t);
    hide Follows, Dots;
    OneLineShows(line);
    LineKinds(line);
    TitleKind(level, t);
  }

  lemma QuoteShows(t: string)
    requires Dots(t)
    ensures RenderMarkdown(['>', ' '] + t) == "<blockquote>" + RenderInline(t, 0) + "</blockquote>"
  {
    hide Kind, RenderInline, RenderMarkdown, Classify;
    var line := ['>', ' '] + t;
    DotsAreOneLine(t);
    hide Dots;
    OneLineShows(line);
    LineKinds(line);
    QuoteKind(t);
  }

  lemma RuleShows(c: char, n: nat)
    requires IsRuleMark(c) && n >= 3
    ensures RenderMarkdown(seq(n, _ => c)) == "<hr>"
  {
    hide Kind, RenderMarkdown, Classify;
    var line := seq(n, _ => c);
    OneLineShows(line);
    LineKinds(line);
    RuleKind(c, n);
  }

  lemma PlainLineShows(line: string)
    requires SingleLine(line) && Classify(line) == Plain
    ensures RenderMarkdown(line) == "<p>" + RenderInline(Trim(line), 0) + "</p>"
  {
    hide Kind, RenderMarkdown, Classify, RenderInline, Trim, BlockHtml;
    OneLineShows(line);
    LineKinds(line);
    PlainAlone(line);
  }

  /** Plain text of one line that begins with a letter and ends in neither white space nor a hash. */
  predicate PlainWords(t: string) {
    && InlineMeaning.PlainText(t) && Dots(t) && EndsOpen(t)
    && ('a' <= t[0] <= 'z' || 'A' <= t[0] <= 'Z')
  }

  lemma WordsFollow(t: string)
    requires PlainWords(t)
    ensures Follows(t) && EndsOpen(t) && Dots(t) && Trim(t) == t && SingleLine(t)
  {
    assert Run(IsSpace, t) == 0 && t[0..] == t;
  }

  lemma HashesAre(one: string, two: string, three: string)
    requires one == "# " && two == "## " && three == "### "
    ensures one == Hashes(1) + [' '] && two == Hashes(2) + [' '] && three == Hashes(3) + [' ']
  {
  }

  lemma HeadingHtmls(html: string)
    ensures HeadingHtml(1, html) == "<h1>" + html + "</h1>"
    ensures HeadingHtml(2, html) == "<h2>" + html + "</h2>"
    ensures HeadingHtml(3, html) == "<h3>" + html + "</h3>"
  {
  }

  lemma OneHeading(level: nat, mark: string, t: string)
    requires 1 <= level <= 3 && mark == Hashes(level) + [' '] && PlainWords(t)
    ensures RenderMarkdown(mark + t) == HeadingHtml(level, EscapeHtml(t))
  {
    hide *;
    WordsFollow(t);
    WordsArePlain(t);
    InlineMeaning.PlainRenders(t, 0);
    HeadingOfLevel(level, t);
    assert mark + t == Hashes(level) + ([' '] + t);
  }

  lemma WordsArePlain(t: string)
    requires PlainWords(t)
    ensures InlineMeaning.PlainText(t)
  {
  }

  /** One, two and three hashes and plain text. */
  lemma HeadingsShow(t: string)
    requires PlainWords(t)
    ensures RenderMarkdown("# " + t) == "<h1>" + EscapeHtml(t) + "</h1>"
    ensures RenderMarkdown("## " + t) == "<h2>" + EscapeHtml(t) + "</h2>"
    ensures RenderMarkdown("### " + t) == "<h3>" + EscapeHtml(t) + "</h3>"
  {
    hide *;
    HashesAre("# ", "## ", "### ");
    OneHeading(1, "# ", t);
    OneHeading(2, "## ", t);
    OneHeading(3, "### ", t);
    HeadingHtmls(EscapeHtml(t));
  }

  lemma OneBullet(mark: string, t: string)
    requires mark == "- " && PlainWords(t)
    ensures RenderMarkdown(mark + t) == "<ul><li>" + EscapeHtml(t) + "</li></ul>"
  {
    WordsFollow(t);
    InlineMeaning.PlainRenders(t, 0);
    assert IsBullet('-');
    hide *;
    BulletShows('-', t);
    assert mark + t == ['-', ' '] + t;
  }

  lemma NumberMark(mark: string, one: string, t: string)
    requires mark == "1. " && one == ['1']
    ensures mark + t == one + (['.', ' '] + t)
  {
  }

  lemma OneNumber(mark: string, one: string, t: string)
    requires mark == "1. " && one == ['1'] && PlainWords(t)
    ensures RenderMarkdown(mark + t) == "<ol><li>" + EscapeHtml(t) + "</li></ol>"
  {
    WordsFollow(t);
    InlineMeaning.PlainRenders(t, 0);
    assert IsStop('.') && IsDigit(one[0]);
    hide *;
    NumberShows(one, '.', t);
    NumberMark(mark, one, t);
  }

  lemma OneQuote(mark: string, t: string)
    requires mark == "> " && PlainWords(t)
    ensures RenderMarkdown(mark + t) == "<blockquote>" + EscapeHtml(t) + "</blockquote>"
  {
    WordsFollow(t);
    InlineMeaning.PlainRenders(t, 0);
    hide RenderMarkdown, RenderInline, PlainWords, EscapeHtml, Follows, EndsOpen, Dots, Trim, SingleLine;
    QuoteShows(t);
    assert mark + t == ['>', ' '] + t;
  }

  lemma OneParagraph(t: string)
    requires PlainWords(t)
    ensures RenderMarkdown(t) == "<p>" + EscapeHtml(t) + "</p>"
  {
    WordsFollow(t);
    InlineMeaning.PlainRenders(t, 0);
    LetterLineIsPlain(t);
    hide RenderMarkdown, RenderInline, PlainWords, EscapeHtml, Follows, EndsOpen, Dots, Trim, SingleLine, Classify;
    PlainLineShows(t);
  }

  /** Plain text as a paragraph, an item of either kind of list, and a quote. */
  lemma WordsShow(t: string)
    requires PlainWords(t)
    ensures RenderMarkdown(t) == "<p>" + EscapeHtml(t) + "</p>"
    ensures RenderMarkdown("- " + t) == "<ul><li>" + EscapeHtml(t) + "</li></ul>"
    ensures RenderMarkdown("1. " + t) == "<ol><li>" + EscapeHtml(t) + "</li></ol>"
    ensures RenderMarkdown("> " + t) == "<blockquote>" + EscapeHtml(t) + "</blockquote>"
  {
    hide *;
    OneParagraph(t);
    OneBullet("- ", t);
    OneNumber("1. ", "1", t);
    OneQuote("> ", t);
  }

  /** Spaced dashes match the expression of a rule and show as a list, because a bullet is looked for first. */
  lemma SpacedDashesAreAnItem(dashes: string, text: string)
    requires dashes == ['-', ' '] + text && text == ['-', ' ', '-']
    ensures RenderMarkdown(dashes) == "<ul><li>" + text + "</li></ul>" && Exec(RULE_EXPRESSION, dashes).Some?
  {
    hide *;
    DashesAreRule(dashes);
    DashesFollow(text);
    DashesAreText(text);
    BulletShows('-', text);
    RuleMatches(dashes);
  }

  lemma DashesAreRule(dashes: string)
    requires dashes == ['-', ' ', '-', ' ', '-']
    ensures IsRule(dashes)
  {
    assert dashes[1..][1..] == ['-', ' ', '-'] && dashes[1..][1..][1..][1..] == ['-'];
    assert Count('-', ['-']) == 1;
    assert Count('-', ['-', ' ', '-']) == 2 by {
      var rest := ['-', ' ', '-'];
      assert rest[1..][1..] == ['-'];
    }
  }

  lemma DashesFollow(text: string)
    requires text == ['-', ' ', '-']
    ensures Follows(text) && IsBullet('-')
  {
  }

  lemma DashesArePlain(text: string)
    requires text == ['-', ' ', '-']
    ensures InlineMeaning.PlainText(text) && forall i | 0 <= i < |text| :: !IsEscaped(text[i])
  {
  }

  lemma DashesAreText(text: string)
    requires text == ['-', ' ', '-']
    ensures RenderInline(text, 0) == text
  {
    DashesArePlain(text);
    hide *;
    InlineMeaning.PlainRenders(text, 0);
    Placeholders.EscapePlain(text);
  }
}
