/** Text attachments: the fenced block a file is printed as (`buildTextBlock`), the message it becomes part
    of (`submitMessage`), and when the renderer's block parser reads the file back. */
module Attachments {
  import opened Text
  import opened Escaping
  import opened Html
  import opened Inline
  import opened Highlight
  import opened Blocks
  import opened Markdown
  import Documents

  /** A text file as `readFile` hands it over. */
  datatype Attachment = Attachment(name: string, text: string)

  predicate IsAlphanumeric(c: char) { 'a' <= c <= 'z' || 'A' <= c <= 'Z' || IsDigit(c) }

  function LowerCase(s: string): string {
    if s == [] then ""
    else [LowerAscii(s[0])] + LowerCase(s[1..])
  }

  /** Where the letters and digits at the end of `s` begin. */
  function LastRun(s: string): (n: nat)
    ensures n <= |s|
  {
    if s == [] || !IsAlphanumeric(s[|s| - 1]) then |s| else LastRun(s[..|s| - 1])
  }

  /** `/\.([a-z0-9]+)$/i` */
  function Extension(name: string): string {
    var n := LastRun(name);
    if 0 < n < |name| && name[n - 1] == '.' then LowerCase(name[n..]) else ""
  }

  function LanguageByExtension(extension: string): string {
    match extension
    case "c" => "c" case "cc" => "cpp" case "conf" => "text" case "cpp" => "cpp" case "css" => "css"
    case "csv" => "csv" case "env" => "text" case "go" => "go" case "h" => "c" case "html" => "html"
    case "ini" => "ini" case "java" => "java" case "js" => "javascript" case "json" => "json"
    case "jsx" => "jsx" case "log" => "text" case "md" => "markdown" case "mjs" => "javascript"
    case "py" => "python" case "rb" => "ruby" case "rs" => "rust" case "sh" => "bash" case "sql" => "sql"
    case "svg" => "xml" case "toml" => "toml" case "ts" => "typescript" case "tsx" => "tsx"
    case "txt" => "text" case "xml" => "xml" case "yaml" => "yaml" case "yml" => "yaml"
    case _ => "text"
  }

  function LanguageForFilename(name: string): string { LanguageByExtension(Extension(name)) }

  const TICKS := "```"
  const TILDES := "~~~~"

  /** The fence is chosen by looking for three backticks. */
  function FenceFor(text: string): string { if Contains(text, TICKS) then TILDES else TICKS }

  function FirstLine(a: Attachment): string { "Attached file: " + a.name }

  function OpenerLine(a: Attachment): string { FenceFor(a.text) + LanguageForFilename(a.name) }

  function BuildTextBlock(a: Attachment): string {
    FirstLine(a) + "\n\n" + OpenerLine(a) + "\n" + a.text + "\n" + FenceFor(a.text)
  }

  // --- What the parser must read back --------------------------------------------------------------

  /** Some line of the text would close a tilde fence. */
  predicate HasTildeCloser(lines: seq<string>) { exists i | 0 <= i < |lines| :: FenceClose(lines[i], '~') }

  /** When a file survives: it does not end in a bare carriage return, which would merge with the newline
      before the closing fence; and if it has three backticks, no line of it closes the tilde fence. The
      closing rule asks for three fence characters, not for as many as the opener has. */
  predicate Survives(a: Attachment) {
    && !EndsWithReturn(a.text)
    && (Contains(a.text, TICKS) ==> !HasTildeCloser(Lines(a.text)))
  }

  /** One paragraph naming the file, then one code block with the file's language and exactly its text. */
  predicate ReadBack(p: Block, c: Block, a: Attachment) {
    && p == Paragraph([FirstLine(a)])
    && c.Fenced?
    && FenceOf(c.opener).language == LanguageForFilename(a.name)
    && CodeOf(c.opener, c.body) == NormalizeNewlines(a.text)
  }

  function FenceChar(text: string): char { if Contains(text, TICKS) then '~' else '`' }

  /** The lines the file's text contributes in front of the closing fence. */
  function TextLines(text: string): seq<string> {
    var lines := Lines(text);
    if EndsWithReturn(text) then lines[..|lines| - 1] else lines
  }

  function BlockLines(a: Attachment): seq<string> {
    [FirstLine(a), "", OpenerLine(a)] + TextLines(a.text) + [FenceFor(a.text)]
  }

  // --- Its lines -----------------------------------------------------------------------------------

  lemma SingleLineSplits(s: string, tail: string)
    requires SingleLine(s)
    ensures Lines(s + "\n" + tail) == [s] + Lines(tail) && Lines(s) == [s]
  {
    assert !EndsWithReturn(s);
    LinesAtNewline(s, tail);
    NormalizeIdentity(s);
    SplitOneLine(s);
  }

  predicate Letters(s: string) { s != "" && forall i | 0 <= i < |s| :: 'a' <= s[i] <= 'z' }

  lemma LanguageIsLetters(extension: string, language: string)
    requires language == LanguageByExtension(extension)
    ensures Letters(language)
  {
  }

  lemma FenceShape(text: string, fence: string, c: char)
    requires fence == FenceFor(text) && c == FenceChar(text)
    ensures 3 <= |fence| <= 4 && forall i | 0 <= i < |fence| :: fence[i] == c
    ensures SingleLine(fence)
  {
  }

  lemma OpenerIsSingleLine(a: Attachment)
    ensures SingleLine(OpenerLine(a))
  {
    LanguageIsLetters(Extension(a.name), LanguageForFilename(a.name));
    FenceShape(a.text, FenceFor(a.text), FenceChar(a.text));
    hide FenceFor, LanguageForFilename;
  }

  lemma FirstLineIsSingle(a: Attachment, prefix: string)
    requires SingleLine(a.name) && prefix == "Attached file: "
    ensures SingleLine(FirstLine(a))
  {
    assert SingleLine(prefix);
  }

  /** A printed file, piece by piece. */
  function Printed(first: string, opener: string, text: string, rest: string): string {
    first + "\n\n" + opener + "\n" + text + "\n" + rest
  }

  lemma PrintedTail(first: string, opener: string, text: string, fence: string, tail: string)
    ensures Printed(first, opener, text, fence) + "\n" + tail == Printed(first, opener, text, fence + "\n" + tail)
  {
  }

  /** The lines of a printed file, with whatever stands in the place of the closing fence. */
  lemma LinesOfPrinted(a: Attachment, rest: string)
    requires SingleLine(a.name)
    ensures Lines(Printed(FirstLine(a), OpenerLine(a), a.text, rest))
         == [FirstLine(a), "", OpenerLine(a)] + TextLines(a.text) + Lines(rest)
  {
    FirstLineIsSingle(a, "Attached file: ");
    OpenerIsSingleLine(a);
    hide FirstLine, OpenerLine, Lines, Printed, SingleLine, TextLines;
    LinesInFour(FirstLine(a), OpenerLine(a), a.text, rest);
  }

  lemma BlockIsPrinted(a: Attachment)
    ensures BuildTextBlock(a) == Printed(FirstLine(a), OpenerLine(a), a.text, FenceFor(a.text))
  {
    hide FirstLine, OpenerLine, FenceFor;
  }

  /** The lines of a printed file, in front of any further text. */
  lemma LinesOfBlock(a: Attachment, tail: string)
    requires SingleLine(a.name)
    ensures Lines(BuildTextBlock(a) + "\n" + tail) == BlockLines(a) + Lines(tail)
    ensures Lines(BuildTextBlock(a)) == BlockLines(a)
  {
    FenceShape(a.text, FenceFor(a.text), FenceChar(a.text));
    hide FirstLine, OpenerLine, FenceFor, Lines, Printed, BuildTextBlock, TextLines;
    var fence := FenceFor(a.text);
    BlockIsPrinted(a);
    PrintedTail(FirstLine(a), OpenerLine(a), a.text, fence, tail);
    LinesOfPrinted(a, fence);
    LinesOfPrinted(a, fence + "\n" + tail);
    SingleLineSplits(fence, tail);
    Regroup([FirstLine(a), "", OpenerLine(a)] + TextLines(a.text), [fence], Lines(tail));
  }

  lemma Regroup(a: seq<string>, b: seq<string>, c: seq<string>)
    ensures a + (b + c) == a + b + c
  {
  }

  lemma LinesInFour(first: string, opener: string, text: string, rest: string)
    requires SingleLine(first) && SingleLine(opener)
    ensures Lines(Printed(first, opener, text, rest)) == [first, "", opener] + TextLines(text) + Lines(rest)
  {
    hide Lines;
    LinesAtNewline(text, rest);
    SingleLineSplits(opener, text + "\n" + rest);
    SingleLineSplits("", opener + "\n" + (text + "\n" + rest));
    SingleLineSplits(first, "" + "\n" + (opener + "\n" + (text + "\n" + rest)));
    assert Printed(first, opener, text, rest) == first + "\n" + ("" + "\n" + (opener + "\n" + (text + "\n" + rest)));
    assert [first] + ([""] + ([opener] + (TextLines(text) + Lines(rest))))
        == [first, "", opener] + TextLines(text) + Lines(rest);
  }

  // --- How its lines are classified ----------------------------------------------------------------

  lemma {:induction false} RunOfExactly(c: char, a: string, b: string)
    requires forall i | 0 <= i < |a| :: a[i] == c
    requires b == "" || b[0] != c
    ensures RunOf(c, a + b) == |a|
  {
    if a == [] {
      assert a + b == b;
    } else {
      assert (a + b)[0] == a[0] && (a + b)[1..] == a[1..] + b;
      RunOfExactly(c, a[1..], b);
    }
  }

  lemma LettersAreInfo(language: string)
    requires Letters(language)
    ensures TrimStart(language) == language && Dots(language) && language[0] != '`' && language[0] != '~'
  {
    assert Run(IsSpace, language) == 0;
    assert language[0..] == language;
  }

  lemma NoIndent(s: string)
    requires s != "" && s[0] != ' '
    ensures RunOf(' ', s) == 0 && s[0..] == s
  {
  }

  lemma OpensWith(line: string, c: char, n: nat, language: string)
    requires line != "" && line[0] == c && (c == '`' || c == '~') && line[0..] == line && RunOf(' ', line) == 0
    requires n >= 3 && RunOf(c, line) == n && TrimStart(line[n..]) == language && Dots(language)
    ensures FenceOpen(line) == Some(Fence(c, language, 0))
  {
    hide RunOf, TrimStart, Dots;
  }

  /** The opener line opens a fence of its character, with the language as info string and no indentation. */
  lemma OpenerOpens(fence: string, c: char, language: string)
    requires |fence| >= 3 && (c == '`' || c == '~') && forall i | 0 <= i < |fence| :: fence[i] == c
    requires Letters(language)
    ensures FenceOpen(fence + language) == Some(Fence(c, language, 0))
  {
    hide FenceOpen, RunOf, TrimStart, Dots, Letters;
    var line := fence + language;
    LettersAreInfo(language);
    NoIndent(line);
    RunOfExactly(c, fence, language);
    assert line[|fence|..] == language;
    OpensWith(line, c, |fence|, language);
  }

  /** A line of nothing but fence characters closes the fence. */
  lemma FenceCloses(fence: string, c: char)
    requires |fence| >= 3 && (c == '`' || c == '~') && forall i | 0 <= i < |fence| :: fence[i] == c
    ensures FenceClose(fence, c)
  {
    assert Run(IsSpace, fence) == 0 && fence[0..] == fence;
    RunOfExactly(c, fence, "");
    assert fence + "" == fence;
  }

  // --- Backtick closers need backticks -------------------------------------------------------------

  lemma {:induction false} ContainsAt(s: string, part: string, k: nat)
    requires k + |part| <= |s| && s[k..k + |part|] == part
    ensures Contains(s, part)
  {
    if k == 0 {
      assert part <= s;
    } else {
      assert s[1..][k - 1..k - 1 + |part|] == part;
      ContainsAt(s[1..], part, k - 1);
    }
  }

  lemma CloserHasTicks(line: string, ticks: string)
    requires FenceClose(line, '`') && ticks == ['`', '`', '`']
    ensures Contains(line, ticks)
  {
    var i := Run(IsSpace, line);
    var rest := line[i..];
    assert rest[0] == '`' && rest[1] == '`' && rest[2] == '`';
    assert line[i..i + 3] == ticks;
    ContainsAt(line, ticks, i);
  }

  lemma {:induction false} SplitContains(s: string, k: nat, ticks: string)
    requires ticks == ['`', '`', '`'] && k < |Split(s)| && Contains(Split(s)[k], ticks)
    ensures Contains(s, ticks)
  {
    if s != [] {
      var rest := Split(s[1..]);
      if s[0] == '\n' {
        if k > 0 { SplitContains(s[1..], k - 1, ticks); }
      } else if k > 0 {
        SplitContains(s[1..], k, ticks);
      } else {
        var line := [s[0]] + rest[0];
        assert Split(s)[0] == line && line[1..] == rest[0];
        if Contains(rest[0], ticks) {
          SplitContains(s[1..], 0, ticks);
        } else {
          assert ticks <= line;
          assert line[0] == '`' && line[1] == '`' && line[2] == '`';
          assert rest[0][0] == line[1] && rest[0][1] == line[2];
          FirstLinePrefix(s[1..], 2);
          assert s[1..][..2][0] == s[1] && s[1..][..2][1] == s[2];
          assert rest[0][..2][0] == '`' && rest[0][..2][1] == '`';
          assert s[0] == line[0];
          assert ticks <= s;
        }
      }
    }
  }

  lemma {:induction false} FirstLinePrefix(s: string, n: nat)
    requires n <= |Split(s)[0]|
    ensures n <= |s| && s[..n] == Split(s)[0][..n]
  {
    if n > 0 {
      assert s[0] != '\n';
      assert Split(s)[0][1..] == Split(s[1..])[0];
      FirstLinePrefix(s[1..], n - 1);
    }
  }

  lemma {:induction false} NormalizeContains(s: string, ticks: string)
    requires ticks == ['`', '`', '`'] && Contains(NormalizeNewlines(s), ticks)
    ensures Contains(s, ticks)
    decreases |s|
  {
    if s != [] {
      var n := NormalizeNewlines(s);
      if s[0] == '\r' {
        var k := if |s| > 1 && s[1] == '\n' then 2 else 1;
        assert n[0] == '\n' && !(ticks <= n) && n[1..] == NormalizeNewlines(s[k..]);
        NormalizeContains(s[k..], ticks);
        if k == 2 { assert s[1..][1..] == s[2..]; }
      } else {
        assert n[1..] == NormalizeNewlines(s[1..]);
        if ticks <= n {
          TicksInFront(s, n);
        } else {
          NormalizeContains(s[1..], ticks);
        }
      }
    }
  }

  /** Normalisation does not move characters that no carriage return precedes. */
  lemma TicksInFront(s: string, n: string)
    requires s != "" && n == NormalizeNewlines(s)
    requires |n| >= 3 && n[0] == '`' && n[1] == '`' && n[2] == '`'
    ensures Contains(s, ['`', '`', '`'])
  {
    assert s[0] == '`';
    var n1 := NormalizeNewlines(s[1..]);
    assert n1 == n[1..] && s[1..] != "";
    assert s[1..][0] == '`';
    var n2 := NormalizeNewlines(s[1..][1..]);
    assert n2 == n1[1..] && s[1..][1..] != "";
    assert s[1..][1..][0] == '`';
    assert ['`', '`', '`'] <= s;
  }

  /** If the text has no three backticks, no line of it closes a backtick fence. */
  lemma NoTickCloser(text: string, k: nat)
    requires !Contains(text, ['`', '`', '`']) && k < |Lines(text)|
    ensures !FenceClose(Lines(text)[k], '`')
  {
    if FenceClose(Lines(text)[k], '`') {
      CloserHasTicks(Lines(text)[k], ['`', '`', '`']);
      SplitContains(NormalizeNewlines(text), k, ['`', '`', '`']);
      NormalizeContains(text, ['`', '`', '`']);
    }
  }

  // --- Reading one file back -----------------------------------------------------------------------

  lemma {:induction false} FenceBodyStops(lines: seq<string>, rest: seq<string>, c: char)
    requires rest != [] && FenceClose(rest[0], c)
    ensures FenceBody(lines + rest, c) <= |lines|
    ensures FenceBody(lines + rest, c) == |lines| <==> forall i | 0 <= i < |lines| :: !FenceClose(lines[i], c)
    ensures var k := FenceBody(lines + rest, c); k < |lines| ==> FenceClose(lines[k], c)
  {
    hide FenceClose;
    if lines == [] {
      assert lines + rest == rest;
    } else {
      assert (lines + rest)[0] == lines[0] && (lines + rest)[1..] == lines[1..] + rest;
      FenceBodyStops(lines[1..], rest, c);
      if !FenceClose(lines[0], c) {
        assert forall i | 0 < i < |lines| :: lines[i] == lines[1..][i - 1];
      }
    }
  }

  lemma {:induction false} DedentNothing(lines: seq<string>)
    ensures DedentAll(lines, 0) == lines
  {
    if lines != [] { DedentNothing(lines[1..]); }
  }

  /** A proper part of the text's lines does not join to the text. */
  lemma ShorterText(text: string, part: seq<string>, lines: seq<string>)
    requires lines == Lines(text) && part <= lines && |part| < |lines|
    requires part != [] || lines[0] != ""
    ensures Join(part, "\n") != NormalizeNewlines(text)
  {
    JoinSplit(NormalizeNewlines(text));
    var more := lines[|part|..];
    assert lines == part + more;
    JoinLength(part, more);
  }

  /** What the parser takes as the body, in front of the closing line. */
  lemma BodyIsFront(text: seq<string>, rest: seq<string>, c: char) returns (k: nat)
    requires rest != [] && FenceClose(rest[0], c)
    ensures k == FenceBody(text + rest, c) <= |text| && (text + rest)[..k] == text[..k]
    ensures k == |text| <==> forall i | 0 <= i < |text| :: !FenceClose(text[i], c)
    ensures k < |text| ==> FenceClose(text[k], c)
    ensures k == |text| ==> AfterFence(text + rest, c) == rest[1..] && text[..k] == text
  {
    hide FenceClose, FenceBody;
    FenceBodyStops(text, rest, c);
    k := FenceBody(text + rest, c);
  }

  /** The body the parser takes, and when it is the file's text. */
  lemma BodyIsText(a: Attachment, after: seq<string>) returns (body: seq<string>)
    ensures var c := FenceChar(a.text);
      var lines := TextLines(a.text) + ([FenceFor(a.text)] + after);
      && body == lines[..FenceBody(lines, c)]
      && (Join(body, "\n") == NormalizeNewlines(a.text) <==> Survives(a))
      && (Survives(a) ==> body == Lines(a.text) && AfterFence(lines, c) == after)
  {
    var c, fence := FenceChar(a.text), FenceFor(a.text);
    FenceShape(a.text, fence, c);
    FenceCloses(fence, c);
    hide FenceClose, Lines, FenceFor, FenceBody, AfterFence, TextLines, Survives, Join, NormalizeNewlines;
    var text := TextLines(a.text);
    var k := BodyIsFront(text, [fence] + after, c);
    body := text[..k];
    TextIsFront(a.text);
    SurvivesIff(a, k);
    if Survives(a) {
      JoinSplit(NormalizeNewlines(a.text));
      LinesAreSplit(a.text);
    } else {
      EmptyClosesNothing(c);
      ShorterText(a.text, body, Lines(a.text));
    }
  }

  lemma LinesAreSplit(text: string)
    ensures Lines(text) == Split(NormalizeNewlines(text))
  {
  }

  lemma TextIsFront(text: string)
    ensures TextLines(text) <= Lines(text) && TextLines(text) != []
    ensures |TextLines(text)| < |Lines(text)| <==> EndsWithReturn(text)
  {
    LinesAtNewline(text, "");
  }

  /** The body stops at the end of the file's lines exactly if no line closes early. */
  lemma SurvivesIff(a: Attachment, k: nat)
    requires k <= |TextLines(a.text)|
    requires k == |TextLines(a.text)| <==>
      forall i | 0 <= i < |TextLines(a.text)| :: !FenceClose(TextLines(a.text)[i], FenceChar(a.text))
    ensures Survives(a) <==> k == |TextLines(a.text)| && !EndsWithReturn(a.text)
  {
    TextIsFront(a.text);
    var lines, text := Lines(a.text), TextLines(a.text);
    if !EndsWithReturn(a.text) && !Contains(a.text, TICKS) {
      assert TICKS == ['`', '`', '`'];
      forall i | 0 <= i < |lines| ensures !FenceClose(lines[i], '`') { NoTickCloser(a.text, i); }
    }
    hide FenceClose, Lines;
  }

  /** The three lines in front of the text. */
  lemma HeadKinds(a: Attachment)
    ensures Classify(FirstLine(a)) == Plain && Classify("") == Blank
    ensures FenceOf(OpenerLine(a)) == Fence(FenceChar(a.text), LanguageForFilename(a.name), 0)
    ensures Classify(OpenerLine(a)) == Opener(FenceOf(OpenerLine(a)))
  {
    LanguageIsLetters(Extension(a.name), LanguageForFilename(a.name));
    FenceShape(a.text, FenceFor(a.text), FenceChar(a.text));
    OpenerOpens(FenceFor(a.text), FenceChar(a.text), LanguageForFilename(a.name));
    FirstIsA(a, "Attached file: ");
    LetterLineIsPlain(FirstLine(a));
    BlankLine();
    hide FenceFor, FenceChar, LanguageForFilename, FirstLine, FenceClose;
  }

  lemma OpenerTaken(opener: string, text: seq<string>, f: Fence, k: nat)
    requires Classify(opener) == Opener(f) && k == FenceBody(text, f.marker)
    ensures TakeBlock(opener, text) == ([Fenced(opener, text[..k])], AfterFence(text, f.marker))
  {
    hide Classify;
  }

  lemma BlankTaken(rest: seq<string>)
    requires Classify("") == Blank
    ensures TakeBlock("", rest) == ([], rest)
  {
    hide Classify;
  }

  /** A paragraph line, a blank line, an opener and more lines. */
  lemma HeadParses(first: string, opener: string, text: seq<string>, f: Fence)
    requires Classify(first) == Plain && Classify("") == Blank && Classify(opener) == Opener(f)
    ensures Reference([first] + ([""] + ([opener] + text)))
         == [Paragraph([first])]
          + ([Fenced(opener, text[..FenceBody(text, f.marker)])] + Reference(AfterFence(text, f.marker)))
  {
    hide Classify, Reference, AfterFence, FenceBody, TakeBlock;
    var k := FenceBody(text, f.marker);
    ReferenceTakes(opener, text);
    OpenerTaken(opener, text, f, k);
    ReferenceTakes("", [opener] + text);
    BlankTaken([opener] + text);
    ReferenceTakes(first, [""] + ([opener] + text));
    FirstAlone(first, [""] + ([opener] + text));
    var code := Reference([opener] + text);
    assert [] + code == code;
  }

  /** Parsing a printed file and whatever follows it: always a paragraph and a code block first; the code block
      is the file exactly if the file survives, and then the rest is parsed as if it stood alone. */
  lemma BlockParses(a: Attachment, after: seq<string>)
    ensures var r := Reference(BlockLines(a) + after);
      && |r| >= 2
      && (ReadBack(r[0], r[1], a) <==> Survives(a))
      && (Survives(a) ==> r[2..] == Reference(after))
  {
    hide Classify, FenceOpen, FenceClose, Lines, FenceFor, FenceChar, LanguageForFilename, TextLines, Survives, Reference;
    HeadKinds(a);
    var first, opener, c := FirstLine(a), OpenerLine(a), FenceChar(a.text);
    hide FenceOf, FirstLine, OpenerLine, AfterFence, FenceBody, NormalizeNewlines, Join;
    var text := TextLines(a.text) + ([FenceFor(a.text)] + after);
    assert BlockLines(a) + after == [first] + ([""] + ([opener] + text));
    HeadParses(first, opener, text, FenceOf(opener));
    var body := BodyIsText(a, after);
    var r := Reference(BlockLines(a) + after);
    assert r[0] == Paragraph([first]) && r[1] == Fenced(opener, body) && r[2..] == Reference(AfterFence(text, c));
    CodeOfBody(opener, body);
  }

  lemma CodeOfBody(opener: string, body: seq<string>)
    requires FenceOf(opener).indent == 0
    ensures CodeOf(opener, body) == Join(body, "\n")
  {
    hide FenceOf;
    DedentNothing(body);
  }

  lemma FirstIsA(a: Attachment, prefix: string)
    requires prefix == "Attached file: "
    ensures FirstLine(a) != "" && FirstLine(a)[0] == 'A'
  {
    assert prefix[0] == 'A';
  }

  lemma FirstAlone(first: string, rest: seq<string>)
    requires Classify(first) == Plain && rest != [] && Classify(rest[0]) == Blank
    ensures TakeBlock(first, rest) == ([Paragraph([first])], rest)
  {
    hide Classify;
    assert rest[..0] == [] && rest[0..] == rest && [first] + [] == [first];
  }

  /** The round trip of one file, with its exact condition. */
  lemma AttachmentRoundTrip(a: Attachment)
    requires SingleLine(a.name)
    ensures var blocks := Parse(Lines(BuildTextBlock(a)));
      (|blocks| == 2 && ReadBack(blocks[0], blocks[1], a)) <==> Survives(a)
  {
    hide ReadBack, Survives, Parse, Reference, BuildTextBlock, Lines, BlockLines;
    LinesOfBlock(a, "");
    BlockParses(a, []);
    assert BlockLines(a) + [] == BlockLines(a);
    ParseIsReference(BlockLines(a));
    NothingParses();
  }

  lemma NothingParses()
    ensures Reference([]) == []
  {
  }

  // --- Whole messages ------------------------------------------------------------------------------

  /** The printed files, separated by blank lines. */
  function FilesText(files: seq<Attachment>): string
    requires files != []
  {
    if |files| == 1 then BuildTextBlock(files[0]) else BuildTextBlock(files[0]) + "\n\n" + FilesText(files[1..])
  }

  /** The text of the prompt: what was typed and the files, joined by blank lines and skipping what is empty. */
  function MessageText(typed: string, files: seq<Attachment>, images: bool): string {
    var text := Trim(typed);
    if files == [] then
      if text != "" then text
      else if images then "Please inspect the attached image(s)." else "Please review the attached file(s)."
    else if text == "" then FilesText(files)
    else text + "\n\n" + FilesText(files)
  }

  predicate FilesReadBack(blocks: seq<Block>, files: seq<Attachment>) {
    if files == [] then blocks == []
    else |blocks| >= 2 && ReadBack(blocks[0], blocks[1], files[0]) && FilesReadBack(blocks[2..], files[1..])
  }

  predicate AllSurvive(files: seq<Attachment>) { forall i | 0 <= i < |files| :: Survives(files[i]) }

  predicate AllSingleLine(files: seq<Attachment>) { forall i | 0 <= i < |files| :: SingleLine(files[i].name) }

  lemma {:induction false} FilesRoundTrip(files: seq<Attachment>)
    requires files != [] && AllSingleLine(files)
    ensures FilesReadBack(Parse(Lines(FilesText(files))), files) <==> AllSurvive(files)
  {
    hide ReadBack, Survives, Parse, Reference, BuildTextBlock, Lines, BlockLines;
    var a := files[0];
    if |files| == 1 {
      LinesOfBlock(a, "");
      BlockParses(a, []);
      assert BlockLines(a) + [] == BlockLines(a);
      ParseIsReference(BlockLines(a));
      NothingParses();
      assert files[1..] == [];
    } else {
      var more := FilesText(files[1..]);
      LinesOfBlock(a, "\n" + more);
      assert BuildTextBlock(a) + "\n" + ("\n" + more) == BuildTextBlock(a) + "\n\n" + more;
      SingleLineSplits("", more);
      assert "" + "\n" + more == "\n" + more;
      var after := [""] + Lines(more);
      BlockParses(a, after);
      ParseIsReference(BlockLines(a) + after);
      BlankLine();
      BlankTaken(Lines(more));
      ReferenceTakes("", Lines(more));
      assert [] + Reference(Lines(more)) == Reference(Lines(more));
      ParseIsReference(Lines(more));
      FilesRoundTrip(files[1..]);
      assert AllSurvive(files) <==> Survives(a) && AllSurvive(files[1..]) by {
        if AllSurvive(files) { assert forall i | 0 <= i < |files| - 1 :: files[1..][i] == files[i + 1]; }
      }
    }
  }

  /** The sentence that stands in for an empty message. */
  function Fallback(images: bool): string {
    if images then "Please inspect the attached image(s)." else "Please review the attached file(s)."
  }

  /** The law for whole messages: after typed text that leaves no fence open, the blocks of the message are the
      blocks of that text followed by, for every file in order, its paragraph and its code block with exactly its
      text, if and only if every file survives. With neither text nor files the message is one paragraph. */
  lemma MessageRoundTrip(typed: string, files: seq<Attachment>, images: bool)
    requires AllSingleLine(files) && Closed(Trim(typed))
    ensures var front := if Trim(typed) == "" then [] else Parse(Lines(Trim(typed)));
      var all := Parse(Lines(MessageText(typed, files, images)));
      if Trim(typed) == "" && files == [] then all == [Paragraph([Fallback(images)])]
      else front <= all && (FilesReadBack(all[|front|..], files) <==> AllSurvive(files))
  {
    hide Parse, Lines, FilesReadBack, AllSurvive, Closed, FilesText, Trim;
    if files == [] {
      NoFiles();
      if Trim(typed) == "" {
        FallbackParses(images, Fallback(images));
      } else {
        var front := Parse(Lines(Trim(typed)));
        assert front[|front|..] == [];
      }
    } else {
      FilesRoundTrip(files);
      if Trim(typed) != "" {
        ParseSeparated(Trim(typed), FilesText(files));
      }
    }
  }

  lemma NoFiles()
    ensures FilesReadBack([], []) && AllSurvive([])
  {
  }

  lemma ImageSentence(sentence: string)
    requires sentence == "Please inspect the attached image(s)."
    ensures SingleLine(sentence) && sentence != "" && sentence[0] == 'P'
  {
  }

  lemma FileSentence(sentence: string)
    requires sentence == "Please review the attached file(s)."
    ensures SingleLine(sentence) && sentence != "" && sentence[0] == 'P'
  {
  }

  lemma FallbackParses(images: bool, sentence: string)
    requires sentence == Fallback(images)
    ensures Parse(Lines(sentence)) == [Paragraph([sentence])]
  {
    if images { ImageSentence(sentence); } else { FileSentence(sentence); }
    LetterLineParses(sentence);
    hide Fallback, Parse, Lines;
  }

  /** A line that begins with a letter is a paragraph. */
  lemma LetterLineParses(line: string)
    requires SingleLine(line) && line != "" && ('a' <= line[0] <= 'z' || 'A' <= line[0] <= 'Z')
    ensures Parse(Lines(line)) == [Paragraph([line])]
  {
    OneLineLines(line);
    LetterLineIsPlain(line);
    OnePlainLine(line);
    ParseIsReference([line]);
    hide Parse, Lines, Classify, Reference;
  }

  lemma PlainAlone(line: string, rest: seq<string>)
    requires Classify(line) == Plain && rest == []
    ensures TakeBlock(line, rest) == ([Paragraph([line])], [])
  {
    hide Classify;
    assert rest[..0] == [] && [line] + [] == [line];
  }

  lemma OnePlainLine(line: string)
    requires Classify(line) == Plain
    ensures Reference([line]) == [Paragraph([line])]
  {
    hide Classify, Reference, TakeBlock;
    ReferenceTakes(line, []);
    PlainAlone(line, []);
    NothingParses();
    assert [line] + [] == [line];
  }

  // --- What the reader sees ------------------------------------------------------------------------

  /** The code element of a file, highlighted. */
  function FileCode(a: Attachment): string {
    HighlightCode(NormalizeNewlines(a.text), NormalizeLanguage(LanguageForFilename(a.name)))
  }

  /** A paragraph with the file's name, then the code element in its frame. */
  function FileHtml(a: Attachment): string {
    var language := NormalizeLanguage(LanguageForFilename(a.name));
    var attribute := if language == "" then "" else " data-language=\"" + EscapeAttribute(language) + "\"";
    "<p>" + RenderInline(Trim(FirstLine(a)), 0) + "</p>"
    + ("<pre class=\"markdown-code\"" + attribute + "><code>" + FileCode(a) + "</code></pre>")
  }

  function FilesHtml(files: seq<Attachment>): string {
    if files == [] then "" else FileHtml(files[0]) + FilesHtml(files[1..])
  }

  lemma FileBlocksShow(p: Block, c: Block, a: Attachment)
    requires ReadBack(p, c, a)
    ensures RenderBlock(p) + RenderBlock(c) == FileHtml(a)
  {
    hide NormalizeLanguage, HighlightCode, NormalizeNewlines, RenderInline, Element, PreOpenText, OpenText, CloseText,
         EscapeAttribute, CodeOf, FenceOf, LanguageForFilename, FirstLine, Join, Trim;
    OneLineJoins(FirstLine(a));
    Documents.BlockTags(RenderInline(Trim(FirstLine(a)), 0));
    Documents.CodeTags(NormalizeNewlines(a.text), LanguageForFilename(a.name));
  }

  lemma OneLineJoins(line: string)
    ensures Join([line], "\n") == line
  {
  }

  lemma {:induction false} BlocksShowFiles(blocks: seq<Block>, files: seq<Attachment>)
    requires FilesReadBack(blocks, files)
    ensures RenderBlocks(blocks) == FilesHtml(files)
    decreases |files|
  {
    hide ReadBack, RenderBlock, FileHtml;
    if files != [] {
      FileBlocksShow(blocks[0], blocks[1], files[0]);
      BlocksShowFiles(blocks[2..], files[1..]);
      assert blocks[1..][1..] == blocks[2..];
      assert RenderBlocks(blocks) == RenderBlock(blocks[0]) + (RenderBlock(blocks[1]) + RenderBlocks(blocks[2..]));
    }
  }

  /** The code element says exactly what is in the file, up to its line endings. */
  lemma FileCodeReadsBack(a: Attachment)
    ensures Decode(StripTags(FileCode(a))) == NormalizeNewlines(a.text)
  {
    hide NormalizeLanguage, HighlightCode, NormalizeNewlines, LanguageForFilename, StripTags, Decode;
    HighlightPreservesText(NormalizeNewlines(a.text), NormalizeLanguage(LanguageForFilename(a.name)));
  }

  /** What the reader sees of a message: the typed text as if it stood alone, then every file in order, by name and
      with a code element whose text is exactly the file's, if every file survives. */
  lemma MessageShows(typed: string, files: seq<Attachment>, images: bool)
    requires AllSingleLine(files) && Closed(Trim(typed)) && AllSurvive(files)
    ensures var front := if Trim(typed) == "" then "" else RenderMarkdown(Trim(typed));
      RenderMarkdown(MessageText(typed, files, images))
         == if Trim(typed) == "" && files == [] then "<p>" + RenderInline(Trim(Fallback(images)), 0) + "</p>"
            else front + FilesHtml(files)
    ensures forall i | 0 <= i < |files| :: Decode(StripTags(FileCode(files[i]))) == NormalizeNewlines(files[i].text)
  {
    hide Parse, Lines, FilesReadBack, AllSurvive, Closed, FilesHtml, Trim, MessageText, RenderBlocks, NormalizeNewlines,
         FileCode, StripTags, Decode, Fallback;
    MessageRoundTrip(typed, files, images);
    var front := if Trim(typed) == "" then [] else Parse(Lines(Trim(typed)));
    var all := Parse(Lines(MessageText(typed, files, images)));
    NoBlocksShow();
    if Trim(typed) == "" && files == [] {
      ParagraphShows(Fallback(images));
    } else {
      BlocksShowFiles(all[|front|..], files);
      RenderBlocksConcat(front, all[|front|..]);
      assert all == front + all[|front|..];
    }
    forall i | 0 <= i < |files| ensures Decode(StripTags(FileCode(files[i]))) == NormalizeNewlines(files[i].text) {
      FileCodeReadsBack(files[i]);
    }
  }

  lemma ParagraphShows(line: string)
    ensures RenderBlocks([Paragraph([line])]) == "<p>" + RenderInline(Trim(line), 0) + "</p>"
  {
    hide RenderInline, Trim;
    var block := Paragraph([line]);
    assert [block][1..] == [];
    OneLineJoins(line);
  }

  lemma NoBlocksShow()
    ensures RenderBlocks([]) == ""
  {
  }

  // --- The two ways to fail ------------------------------------------------------------------------

  lemma TwoLines(first: string, second: string)
    requires SingleLine(first) && SingleLine(second)
    ensures Lines(first + "\n" + second) == [first, second] && !EndsWithReturn(first + "\n" + second)
  {
    assert second + "\n" + "" == second + "\n";
    SingleLineSplits(first, second);
    OneLineLines(second);
    hide Lines;
  }

  /** A file with three backticks and a line of three tildes: the tilde fence is closed early. */
  lemma TildeLineIsLost(name: string, ticks: string, tildes: string)
    requires ticks == ['`', '`', '`'] && tildes == ['~', '~', '~']
    ensures !Survives(Attachment(name, ticks + "\n" + tildes))
  {
    hide Lines, FenceClose;
    var text := ticks + "\n" + tildes;
    assert TICKS <= text;
    TwoLines(ticks, tildes);
    FenceCloses(tildes, '~');
    assert Lines(text)[1] == tildes;
  }

  /** A file that ends in a bare carriage return: its last line break disappears into the closing fence. */
  lemma ReturnAtEndIsLost(name: string, text: string)
    requires text == ['a', '\r']
    ensures !Survives(Attachment(name, text))
  {
  }
}
