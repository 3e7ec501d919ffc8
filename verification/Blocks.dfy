/** Block structure (`renderMarkdown`): the line-by-line machine, and a reference parser that takes whole
    blocks off the front of the lines. */
module Blocks {
  import opened Text

  // --- One line ------------------------------------------------------------------------------------

  /** An opening code fence: its character, its info string and its indentation. */
  datatype Fence = Fence(marker: char, language: string, indent: nat)

  datatype LineKind =
    | Opener(fence: Fence)
    | Blank
    | Title(level: nat, text: string)
    | Item(ordered: bool, text: string)
    | Quoted(text: string)
    | Ruler
    | Plain

  /** `^( *)(`{3,}|~{3,})\s*(.*)$`, with at most three spaces in front. */
  function FenceOpen(line: string): Option<Fence> {
    var i := RunOf(' ', line);
    if i == |line| || (line[i] != '`' && line[i] != '~') then None
    else
      var n := RunOf(line[i], line[i..]);
      var info := TrimStart(line[i + n..]);
      if n >= 3 && i <= 3 && Dots(info) then Some(Fence(line[i], info, i)) else None
  }

  /** `^\s{0,3}M{3,}\s*$` */
  predicate FenceClose(line: string, marker: char) {
    var i := Run(IsSpace, line);
    var n := RunOf(marker, line[i..]);
    i <= 3 && n >= 3 && AllSpace(line[i + n..])
  }

  /** `\s*#*\s*$` */
  predicate TitleTail(s: string) {
    var a := Run(IsSpace, s);
    var b := RunOf('#', s[a..]);
    AllSpace(s[a + b..])
  }

  /** The lazy `.+?` of a title: the shortest text of at least `n` characters that a tail can follow. */
  function TitleText(s: string, n: nat): Option<string>
    requires n <= |s|
    decreases |s| - n
  {
    if n > 0 && !Dots(s[..n]) then None
    else if n > 0 && TitleTail(s[n..]) then Some(s[..n])
    else if n < |s| then TitleText(s, n + 1)
    else None
  }

  /** `\s+(.+?)\s*#*\s*$`, where `\s+` first takes `w` characters and then gives back one at a time. */
  function TitleBody(s: string, w: nat): Option<string>
    requires w <= |s|
  {
    if w == 0 then None
    else
      match TitleText(s[w..], 0)
      case Some(text) => Some(text)
      case None => TitleBody(s, w - 1)
  }

  /** `^\s{0,3}(#{1,3})\s+(.+?)\s*#*\s*$` */
  function TitleAt(line: string): Option<(nat, string)> {
    var i := Run(IsSpace, line);
    var level := RunOf('#', line[i..]);
    var rest := line[i + level..];
    if i > 3 || level < 1 || level > 3 then None
    else
      match TitleBody(rest, Run(IsSpace, rest))
      case Some(text) => Some((level, text))
      case None => None
  }

  /** `\s+(.+)$`, where `\s+` first takes `w` characters and then gives back one at a time. */
  function ItemBody(s: string, w: nat): Option<string>
    requires w <= |s|
  {
    if w == 0 then None
    else if w < |s| && Dots(s[w..]) then Some(s[w..])
    else ItemBody(s, w - 1)
  }

  /** `^\s{0,3}[-*+]\s+(.+)$` */
  function BulletAt(line: string): Option<string> {
    var i := Run(IsSpace, line);
    if i > 3 || i == |line| || (line[i] != '-' && line[i] != '*' && line[i] != '+') then None
    else ItemBody(line[i + 1..], Run(IsSpace, line[i + 1..]))
  }

  /** `^\s{0,3}\d+[.)]\s+(.+)$` */
  function NumberedAt(line: string): Option<string> {
    var i := Run(IsSpace, line);
    var d := i + Run(IsDigit, line[i..]);
    if i > 3 || d == i || d == |line| || (line[d] != '.' && line[d] != ')') then None
    else ItemBody(line[d + 1..], Run(IsSpace, line[d + 1..]))
  }

  /** `^\s{0,3}>\s?(.*)$` */
  function QuoteAt(line: string): Option<string> {
    var i := Run(IsSpace, line);
    if i > 3 || i == |line| || line[i] != '>' then None
    else
      var rest := line[i + 1..];
      if rest != "" && IsSpace(rest[0]) && Dots(rest[1..]) then Some(rest[1..])
      else if Dots(rest) then Some(rest)
      else None
  }

  function Count(c: char, s: string): nat {
    if s == [] then 0 else (if s[0] == c then 1 else 0) + Count(c, s[1..])
  }

  /** `^\s{0,3}([-*_])(?:\s*\1){2,}\s*$` */
  predicate IsRule(line: string) {
    var i := Run(IsSpace, line);
    && i <= 3 && i < |line|
    && (line[i] == '-' || line[i] == '*' || line[i] == '_')
    && (forall k | i <= k < |line| :: line[k] == line[i] || IsSpace(line[k]))
    && Count(line[i], line) >= 3
  }

  /** Which branch a line takes outside a fence. */
  function Classify(line: string): LineKind {
    if FenceOpen(line).Some? then Opener(FenceOpen(line).value)
    else if Trim(line) == "" then Blank
    else if TitleAt(line).Some? then Title(TitleAt(line).value.0, TitleAt(line).value.1)
    else if BulletAt(line).Some? then Item(false, BulletAt(line).value)
    else if NumberedAt(line).Some? then Item(true, NumberedAt(line).value)
    else if QuoteAt(line).Some? then Quoted(QuoteAt(line).value)
    else if IsRule(line) then Ruler
    else Plain
  }

  /** A line that begins with a letter is plain. */
  lemma LetterLineIsPlain(line: string)
    requires line != "" && ('a' <= line[0] <= 'z' || 'A' <= line[0] <= 'Z')
    ensures Classify(line) == Plain
  {
    assert RunOf(' ', line) == 0 && Run(IsSpace, line) == 0;
    assert line[0..] == line;
    assert FenceOpen(line) == None;
    assert RunOf('#', line) == 0;
    assert Run(IsDigit, line) == 0;
    assert TrimStart(line) == line;
    TrimEndKeepsFront(line);
  }

  lemma {:induction false} TrimEndKeepsFront(s: string)
    requires s != "" && !IsSpace(s[0])
    ensures TrimEnd(s) != ""
  {
    if IsSpace(s[|s| - 1]) { TrimEndKeepsFront(s[..|s| - 1]); }
  }

  // --- Blocks and the machine ----------------------------------------------------------------------

  /** A block, as the source lines it is made of. */
  datatype Block =
    | Paragraph(lines: seq<string>)
    | Heading(line: string)
    | Items(ordered: bool, lines: seq<string>)
    | Quote(line: string)
    | Divider(line: string)
    | Fenced(opener: string, body: seq<string>)

  datatype State = State(
    blocks: seq<Block>,
    paragraph: seq<string>,
    listType: Option<bool>,
    listItems: seq<string>,
    fence: Option<string>,
    fenceLines: seq<string>)

  function Neutral(blocks: seq<Block>): State { State(blocks, [], None, [], None, []) }

  const START := Neutral([])

  function FlushParagraph(s: State): State {
    if s.paragraph == [] then s else s.(blocks := s.blocks + [Paragraph(s.paragraph)], paragraph := [])
  }

  function FlushList(s: State): State {
    if s.listType.None? then s
    else s.(blocks := s.blocks + [Items(s.listType.value, s.listItems)], listType := None, listItems := [])
  }

  function Flush(s: State): State { FlushList(FlushParagraph(s)) }

  function Emit(s: State, b: Block): State { s.(blocks := s.blocks + [b]) }

  /** The fence character of an opener line. */
  function Marker(opener: string): char {
    match FenceOpen(opener)
    case Some(f) => f.marker
    case None => '`'
  }

  function StepInFence(s: State, line: string): State
    requires s.fence.Some?
  {
    if FenceClose(line, Marker(s.fence.value)) then
      s.(blocks := s.blocks + [Fenced(s.fence.value, s.fenceLines)], fence := None, fenceLines := [])
    else s.(fenceLines := s.fenceLines + [line])
  }

  /** One turn of the loop. */
  function Step(s: State, line: string): State {
    if s.fence.Some? then StepInFence(s, line)
    else
      match Classify(line)
      case Opener(_) => Flush(s).(fence := Some(line), fenceLines := [])
      case Blank => Flush(s)
      case Title(_, _) => Emit(Flush(s), Heading(line))
      case Item(ordered, _) =>
        var p := FlushParagraph(s);
        var q := if p.listType.Some? && p.listType.value != ordered then FlushList(p) else p;
        q.(listType := Some(ordered), listItems := q.listItems + [line])
      case Quoted(_) => Emit(FlushParagraph(FlushList(s)), Quote(line))
      case Ruler => Emit(FlushParagraph(FlushList(s)), Divider(line))
      case Plain => var q := FlushList(s); q.(paragraph := q.paragraph + [line])
  }

  function RunLines(lines: seq<string>, s: State): State {
    if lines == [] then s else RunLines(lines[1..], Step(s, lines[0]))
  }

  /** What happens after the last line. */
  function Finish(s: State): seq<Block> {
    var t := if s.fence.Some? then Emit(s, Fenced(s.fence.value, s.fenceLines)) else s;
    Flush(t).blocks
  }

  function Parse(lines: seq<string>): seq<Block> { Finish(RunLines(lines, START)) }

  // --- At most one block is open -------------------------------------------------------------------

  /** The machine's invariant. */
  predicate OneOpen(s: State) {
    && (s.listType.None? <==> s.listItems == [])
    && (s.fence.Some? ==> s.paragraph == [] && s.listType.None?)
    && (s.fence.None? ==> s.fenceLines == [])
    && (s.paragraph != [] ==> s.listType.None?)
  }

  lemma StepKeepsOneOpen(s: State, line: string)
    requires OneOpen(s)
    ensures OneOpen(Step(s, line))
  {
    hide Classify, FenceClose;
  }

  /** In every reachable state at most one of fence, paragraph and list is open. */
  lemma {:induction false} ReachableOneOpen(lines: seq<string>, s: State)
    requires OneOpen(s)
    ensures OneOpen(RunLines(lines, s))
  {
    hide OneOpen, Step;
    if lines != [] {
      StepKeepsOneOpen(s, lines[0]);
      ReachableOneOpen(lines[1..], Step(s, lines[0]));
    }
  }

  // --- The reference parser ------------------------------------------------------------------------

  /** How many lines come before the one that closes the fence. */
  function FenceBody(lines: seq<string>, marker: char): (n: nat)
    ensures n <= |lines|
  {
    if lines == [] || FenceClose(lines[0], marker) then 0 else 1 + FenceBody(lines[1..], marker)
  }

  function PlainRun(lines: seq<string>): (n: nat)
    ensures n <= |lines|
  {
    if lines == [] || !Classify(lines[0]).Plain? then 0 else 1 + PlainRun(lines[1..])
  }

  predicate IsItem(line: string, ordered: bool) { Classify(line).Item? && Classify(line).ordered == ordered }

  function ItemRun(lines: seq<string>, ordered: bool): (n: nat)
    ensures n <= |lines|
  {
    if lines == [] || !IsItem(lines[0], ordered) then 0 else 1 + ItemRun(lines[1..], ordered)
  }

  /** The lines after a fence body and its closing line, if there is one. */
  function AfterFence(lines: seq<string>, marker: char): seq<string> {
    var n := FenceBody(lines, marker);
    if n < |lines| then lines[n + 1..] else []
  }

  /** Takes the block that `line` begins off the front: the block, if the line is not blank, and the lines after it. */
  function TakeBlock(line: string, rest: seq<string>): (r: (seq<Block>, seq<string>))
    ensures |r.1| <= |rest|
  {
    match Classify(line)
    case Opener(f) => ([Fenced(line, rest[..FenceBody(rest, f.marker)])], AfterFence(rest, f.marker))
    case Blank => ([], rest)
    case Title(_, _) => ([Heading(line)], rest)
    case Item(ordered, _) => ([Items(ordered, [line] + rest[..ItemRun(rest, ordered)])], rest[ItemRun(rest, ordered)..])
    case Quoted(_) => ([Quote(line)], rest)
    case Ruler => ([Divider(line)], rest)
    case Plain => ([Paragraph([line] + rest[..PlainRun(rest)])], rest[PlainRun(rest)..])
  }

  /** The reference: block after block. */
  function Reference(lines: seq<string>): seq<Block>
    decreases |lines|
  {
    if lines == [] then []
    else
      var (block, rest) := TakeBlock(lines[0], lines[1..]);
      block + Reference(rest)
  }

  /** What the rest of the run adds to the blocks already emitted. */
  function Completion(s: State, lines: seq<string>): seq<Block> {
    if s.fence.Some? then
      var m := Marker(s.fence.value);
      [Fenced(s.fence.value, s.fenceLines + lines[..FenceBody(lines, m)])] + Reference(AfterFence(lines, m))
    else if s.paragraph != [] then
      [Paragraph(s.paragraph + lines[..PlainRun(lines)])] + Reference(lines[PlainRun(lines)..])
    else if s.listType.Some? then
      var n := ItemRun(lines, s.listType.value);
      [Items(s.listType.value, s.listItems + lines[..n])] + Reference(lines[n..])
    else Reference(lines)
  }

  lemma FinishCompletes(s: State)
    requires OneOpen(s)
    ensures Finish(s) == s.blocks + Completion(s, [])
  {
    assert s.paragraph + [] == s.paragraph && s.listItems + [] == s.listItems && s.fenceLines + [] == s.fenceLines;
    assert s.blocks + [] == s.blocks;
    if s.fence.Some? {
      assert AfterFence([], Marker(s.fence.value)) == [];
    }
  }

  /** One step of the machine adds exactly what one step of the reference adds. */
  lemma StepCompletes(s: State, line: string, rest: seq<string>)
    requires OneOpen(s)
    ensures var t := Step(s, line); t.blocks + Completion(t, rest) == s.blocks + Completion(s, [line] + rest)
  {
    var lines := [line] + rest;
    assert lines[1..] == rest;
    if s.fence.Some? {
      StepInFenceCompletes(s, line, rest);
    } else if s.paragraph != [] && Classify(line).Plain? {
      PlainCompletes(s, line, rest);
    } else if s.listType.Some? && IsItem(line, s.listType.value) {
      ItemCompletes(s, line, rest);
    } else {
      FlushCompletes(s, line, rest);
      var f := Neutral(Flush(s).blocks);
      FreshCompletes(f.blocks, line, rest);
      StepAfterFlush(s, line);
    }
  }

  lemma StepInFenceCompletes(s: State, line: string, rest: seq<string>)
    requires OneOpen(s) && s.fence.Some?
    ensures var t := Step(s, line); t.blocks + Completion(t, rest) == s.blocks + Completion(s, [line] + rest)
  {
    hide Classify, FenceClose, Reference, Marker;
    var lines, m := [line] + rest, Marker(s.fence.value);
    assert lines[1..] == rest && lines[0] == line;
    var n := FenceBody(rest, m);
    if FenceClose(line, m) {
      assert FenceBody(lines, m) == 0;
      assert s.fenceLines + lines[..0] == s.fenceLines;
      assert AfterFence(lines, m) == rest;
      assert Step(s, line) == Neutral(s.blocks + [Fenced(s.fence.value, s.fenceLines)]);
      assert s.blocks + ([Fenced(s.fence.value, s.fenceLines)] + Reference(rest))
          == (s.blocks + [Fenced(s.fence.value, s.fenceLines)]) + Reference(rest);
    } else {
      assert FenceBody(lines, m) == n + 1;
      assert s.fenceLines + [line] + rest[..n] == s.fenceLines + lines[..n + 1];
      assert AfterFence(lines, m) == AfterFence(rest, m);
    }
  }

  lemma PlainCompletes(s: State, line: string, rest: seq<string>)
    requires OneOpen(s) && s.fence.None? && s.paragraph != [] && Classify(line).Plain?
    ensures var t := Step(s, line); t.blocks + Completion(t, rest) == s.blocks + Completion(s, [line] + rest)
  {
    hide Classify, Reference;
    var lines, n := [line] + rest, PlainRun(rest);
    assert lines[1..] == rest && PlainRun(lines) == n + 1;
    assert s.paragraph + [line] + rest[..n] == s.paragraph + lines[..n + 1];
    assert lines[n + 1..] == rest[n..];
  }

  lemma ItemKind(line: string, ordered: bool)
    requires IsItem(line, ordered)
    ensures Classify(line) == Item(ordered, Classify(line).text)
  {
    hide Classify;
  }

  lemma ItemCompletes(s: State, line: string, rest: seq<string>)
    requires OneOpen(s) && s.fence.None? && s.listType.Some? && IsItem(line, s.listType.value)
    ensures var t := Step(s, line); t.blocks + Completion(t, rest) == s.blocks + Completion(s, [line] + rest)
  {
    hide Classify, Reference, IsItem;
    assert Classify(line) == Item(s.listType.value, Classify(line).text) by { ItemKind(line, s.listType.value); }
    var ordered := s.listType.value;
    var lines, n := [line] + rest, ItemRun(rest, ordered);
    assert lines[1..] == rest && ItemRun(lines, ordered) == n + 1;
    assert s.listItems + [line] + rest[..n] == s.listItems + lines[..n + 1];
    assert lines[n + 1..] == rest[n..];
  }

  /** A line that does not continue the open block closes it. */
  lemma FlushCompletes(s: State, line: string, rest: seq<string>)
    requires OneOpen(s) && s.fence.None?
    requires s.paragraph != [] ==> !Classify(line).Plain?
    requires s.listType.Some? ==> !IsItem(line, s.listType.value)
    ensures s.blocks + Completion(s, [line] + rest) == Flush(s).blocks + Reference([line] + rest)
  {
    hide Classify, Reference, IsItem;
    var lines := [line] + rest;
    if s.paragraph != [] {
      assert PlainRun(lines) == 0 && s.paragraph + lines[..0] == s.paragraph && lines[0..] == lines;
    } else if s.listType.Some? {
      assert ItemRun(lines, s.listType.value) == 0 && s.listItems + lines[..0] == s.listItems && lines[0..] == lines;
    }
  }

  /** Such a line takes the machine where it would take a machine with nothing open. */
  lemma StepAfterFlush(s: State, line: string)
    requires OneOpen(s) && s.fence.None?
    requires s.paragraph != [] ==> !Classify(line).Plain?
    requires s.listType.Some? ==> !IsItem(line, s.listType.value)
    ensures Step(s, line) == Step(Neutral(Flush(s).blocks), line)
  {
    hide Classify;
  }

  lemma MarkerOfOpener(line: string)
    requires Classify(line).Opener?
    ensures Marker(line) == Classify(line).fence.marker
  {
  }

  /** Lines that open a block. */
  lemma FreshOpens(blocks: seq<Block>, line: string, rest: seq<string>)
    requires var k := Classify(line); k.Opener? || k.Item? || k.Plain?
    ensures var t := Step(Neutral(blocks), line);
      t.blocks == blocks && Completion(t, rest) == TakeBlock(line, rest).0 + Reference(TakeBlock(line, rest).1)
  {
    hide Classify, Reference, Marker;
    var kind := Classify(line);
    assert [] + [line] == [line];
    if kind.Opener? {
      MarkerOfOpener(line);
      var body := rest[..FenceBody(rest, kind.fence.marker)];
      assert [] + body == body;
    }
  }

  /** Lines that are a block of their own, and blank ones. */
  lemma FreshEmits(blocks: seq<Block>, line: string, rest: seq<string>)
    requires var k := Classify(line); !(k.Opener? || k.Item? || k.Plain?)
    ensures Step(Neutral(blocks), line) == Neutral(blocks + TakeBlock(line, rest).0) && TakeBlock(line, rest).1 == rest
  {
    hide Classify;
    assert blocks + [] == blocks;
  }

  lemma NeutralCompletion(blocks: seq<Block>, lines: seq<string>)
    ensures Completion(Neutral(blocks), lines) == Reference(lines)
  {
  }

  lemma ReferenceTakes(line: string, rest: seq<string>)
    ensures Reference([line] + rest) == TakeBlock(line, rest).0 + Reference(TakeBlock(line, rest).1)
  {
    hide TakeBlock;
    var lines := [line] + rest;
    assert lines[0] == line && lines[1..] == rest;
  }

  lemma FreshCompletes(blocks: seq<Block>, line: string, rest: seq<string>)
    ensures var t := Step(Neutral(blocks), line);
      t.blocks + Completion(t, rest) == blocks + Reference([line] + rest)
  {
    hide Classify, Reference, TakeBlock, Step, Completion, Neutral;
    var (block, after) := TakeBlock(line, rest);
    var k := Classify(line);
    if k.Opener? || k.Item? || k.Plain? {
      FreshOpens(blocks, line, rest);
    } else {
      FreshEmits(blocks, line, rest);
      NeutralCompletion(blocks + block, rest);
      NeutralBlocks(blocks + block);
      assert blocks + (block + Reference(rest)) == (blocks + block) + Reference(rest);
    }
    ReferenceTakes(line, rest);
  }

  lemma NeutralBlocks(blocks: seq<Block>)
    ensures Neutral(blocks).blocks == blocks && OneOpen(Neutral(blocks))
  {
  }

  /** The machine computes the reference, from any state it can be in. */
  lemma {:induction false} MachineIsReference(lines: seq<string>, s: State)
    requires OneOpen(s)
    ensures Finish(RunLines(lines, s)) == s.blocks + Completion(s, lines)
  {
    hide OneOpen, Step, Completion, Finish;
    if lines == [] {
      FinishCompletes(s);
    } else {
      StepKeepsOneOpen(s, lines[0]);
      MachineIsReference(lines[1..], Step(s, lines[0]));
      StepCompletes(s, lines[0], lines[1..]);
      assert lines == [lines[0]] + lines[1..];
    }
  }

  lemma ParseIsReference(lines: seq<string>)
    ensures Parse(lines) == Reference(lines)
  {
    MachineIsReference(lines, START);
    assert [] + Reference(lines) == Reference(lines);
  }

  // --- Every line is accounted for -----------------------------------------------------------------

  function SourceLines(b: Block): seq<string> {
    match b
    case Paragraph(lines) => lines
    case Heading(line) => [line]
    case Items(_, lines) => lines
    case Quote(line) => [line]
    case Divider(line) => [line]
    case Fenced(opener, body) => [opener] + body
  }

  function AllSource(blocks: seq<Block>): seq<string> {
    if blocks == [] then [] else SourceLines(blocks[0]) + AllSource(blocks[1..])
  }

  /** All lines but the blank ones outside fences and the ones that close a fence. */
  function Kept(lines: seq<string>, fence: Option<char>): seq<string> {
    if lines == [] then []
    else if fence.Some? then
      if FenceClose(lines[0], fence.value) then Kept(lines[1..], None) else [lines[0]] + Kept(lines[1..], fence)
    else
      match Classify(lines[0])
      case Blank => Kept(lines[1..], None)
      case Opener(f) => [lines[0]] + Kept(lines[1..], Some(f.marker))
      case _ => [lines[0]] + Kept(lines[1..], None)
  }

  lemma {:induction false} AllSourceConcat(a: seq<Block>, b: seq<Block>)
    ensures AllSource(a + b) == AllSource(a) + AllSource(b)
  {
    if a == [] {
      assert a + b == b;
    } else {
      assert (a + b)[1..] == a[1..] + b;
      AllSourceConcat(a[1..], b);
    }
  }

  lemma AllSourceOne(b: Block)
    ensures AllSource([b]) == SourceLines(b)
  {
    assert [b][1..] == [];
    assert AllSource([b]) == SourceLines(b) + AllSource([]);
  }

  lemma {:induction false} KeptFence(lines: seq<string>, marker: char)
    ensures Kept(lines, Some(marker)) == lines[..FenceBody(lines, marker)] + Kept(AfterFence(lines, marker), None)
  {
    hide FenceClose, Classify;
    if lines != [] {
      if FenceClose(lines[0], marker) {
        assert lines[0 + 1..] == lines[1..];
      } else {
        KeptFence(lines[1..], marker);
        var n := FenceBody(lines[1..], marker);
        assert lines[..n + 1] == [lines[0]] + lines[1..][..n];
        assert AfterFence(lines, marker) == AfterFence(lines[1..], marker);
      }
    }
  }

  lemma {:induction false} KeptPlain(lines: seq<string>)
    ensures Kept(lines, None) == lines[..PlainRun(lines)] + Kept(lines[PlainRun(lines)..], None)
  {
    hide FenceClose, Classify;
    if lines != [] && Classify(lines[0]).Plain? {
      KeptPlain(lines[1..]);
      var n := PlainRun(lines[1..]);
      assert lines[..n + 1] == [lines[0]] + lines[1..][..n] && lines[n + 1..] == lines[1..][n..];
    } else {
      assert lines[0..] == lines;
    }
  }

  lemma {:induction false} KeptItems(lines: seq<string>, ordered: bool)
    ensures Kept(lines, None) == lines[..ItemRun(lines, ordered)] + Kept(lines[ItemRun(lines, ordered)..], None)
  {
    hide FenceClose, Classify;
    if lines != [] && IsItem(lines[0], ordered) {
      KeptItems(lines[1..], ordered);
      var n := ItemRun(lines[1..], ordered);
      assert lines[..n + 1] == [lines[0]] + lines[1..][..n] && lines[n + 1..] == lines[1..][n..];
    } else {
      assert lines[0..] == lines;
    }
  }

  lemma KeptStep(line: string, rest: seq<string>)
    ensures var k := Classify(line);
      Kept([line] + rest, None)
      == if k.Blank? then Kept(rest, None)
         else [line] + Kept(rest, if k.Opener? then Some(k.fence.marker) else None)
  {
    hide Classify, FenceClose;
    var lines := [line] + rest;
    assert lines[0] == line && lines[1..] == rest;
  }

  lemma KeptOpener(line: string, rest: seq<string>)
    requires Classify(line).Opener?
    ensures Kept([line] + rest, None) == AllSource(TakeBlock(line, rest).0) + Kept(TakeBlock(line, rest).1, None)
  {
    hide Classify, FenceClose, Kept, AllSource, FenceBody, AfterFence, PlainRun, ItemRun;
    KeptStep(line, rest);
    var (block, after) := TakeBlock(line, rest);
    AllSourceOne(block[0]);
    KeptFence(rest, Classify(line).fence.marker);
    ConsConcat(line, rest[..FenceBody(rest, Classify(line).fence.marker)], Kept(after, None));
  }

  lemma KeptItem(line: string, rest: seq<string>)
    requires Classify(line).Item?
    ensures Kept([line] + rest, None) == AllSource(TakeBlock(line, rest).0) + Kept(TakeBlock(line, rest).1, None)
  {
    hide Classify, FenceClose, Kept, AllSource, FenceBody, AfterFence, PlainRun, ItemRun;
    KeptStep(line, rest);
    var (block, after) := TakeBlock(line, rest);
    AllSourceOne(block[0]);
    KeptItems(rest, Classify(line).ordered);
    ConsConcat(line, rest[..ItemRun(rest, Classify(line).ordered)], Kept(after, None));
  }

  lemma KeptText(line: string, rest: seq<string>)
    requires Classify(line).Plain?
    ensures Kept([line] + rest, None) == AllSource(TakeBlock(line, rest).0) + Kept(TakeBlock(line, rest).1, None)
  {
    hide Classify, FenceClose, Kept, AllSource, FenceBody, AfterFence, PlainRun, ItemRun;
    KeptStep(line, rest);
    var (block, after) := TakeBlock(line, rest);
    AllSourceOne(block[0]);
    KeptPlain(rest);
    ConsConcat(line, rest[..PlainRun(rest)], Kept(after, None));
  }

  lemma KeptTakes(line: string, rest: seq<string>)
    ensures Kept([line] + rest, None) == AllSource(TakeBlock(line, rest).0) + Kept(TakeBlock(line, rest).1, None)
  {
    hide Classify, FenceClose, Kept, AllSource, FenceBody, AfterFence, PlainRun, ItemRun;
    if Classify(line).Opener? {
      KeptOpener(line, rest);
    } else if Classify(line).Item? {
      KeptItem(line, rest);
    } else if Classify(line).Plain? {
      KeptText(line, rest);
    } else {
      KeptStep(line, rest);
      NoSource();
      if TakeBlock(line, rest).0 != [] { AllSourceOne(TakeBlock(line, rest).0[0]); }
    }
  }

  lemma ConsConcat(line: string, more: seq<string>, tail: seq<string>)
    ensures [line] + (more + tail) == ([line] + more) + tail
  {
  }

  lemma NoSource()
    ensures AllSource([]) == []
  {
  }

  /** Every line that is neither blank nor the end of a fence is in exactly one block, in source order. */
  lemma {:induction false} NoLineIsLost(lines: seq<string>)
    ensures AllSource(Parse(lines)) == Kept(lines, None)
    decreases |lines|
  {
    ParseIsReference(lines);
    if lines != [] {
      hide Classify, FenceClose, TakeBlock, Parse;
      var (block, rest) := TakeBlock(lines[0], lines[1..]);
      NoLineIsLost(rest);
      ParseIsReference(rest);
      KeptTakes(lines[0], lines[1..]);
      assert lines == [lines[0]] + lines[1..];
      AllSourceConcat(block, Reference(rest));
    }
  }

  // --- Blank lines separate ------------------------------------------------------------------------

  /** Whether the lines end inside a fence. */
  predicate LeavesFenceOpen(lines: seq<string>) { RunLines(lines, START).fence.Some? }

  lemma {:induction false} RunConcat(a: seq<string>, b: seq<string>, s: State)
    ensures RunLines(a + b, s) == RunLines(b, RunLines(a, s))
  {
    hide Step;
    if a == [] {
      assert a + b == b;
    } else {
      assert (a + b)[0] == a[0] && (a + b)[1..] == a[1..] + b;
      RunConcat(a[1..], b, Step(s, a[0]));
    }
  }

  lemma BlankLine()
    ensures Classify("") == Blank
  {
    var line := "";
    assert RunOf(' ', line) == 0;
  }

  lemma FlushIsNeutral(s: State)
    requires OneOpen(s) && s.fence.None?
    ensures Flush(s) == Neutral(Finish(s))
  {
  }

  /** After a blank line outside a fence, nothing is open. */
  lemma BlankCloses(s: State)
    requires OneOpen(s) && s.fence.None?
    ensures Step(s, "") == Neutral(Finish(s))
  {
    BlankLine();
    FlushIsNeutral(s);
    hide Classify;
  }

  /** Blocks of lines that follow a closed part and a blank line do not depend on that part. */
  lemma ParseAfterBlank(a: seq<string>, b: seq<string>)
    requires !LeavesFenceOpen(a)
    ensures Parse(a + [""] + b) == Parse(a) + Parse(b)
    ensures LeavesFenceOpen(a + [""] + b) == LeavesFenceOpen(b)
  {
    var s := RunLines(a, START);
    NeutralBlocks([]);
    ReachableOneOpen(a, START);
    RunConcat(a + [""], b, START);
    RunConcat(a, [""], START);
    BlankCloses(s);
    OneLine("", s);
    var neutral := Neutral(Finish(s));
    NeutralBlocks(Finish(s));
    MachineIsReference(b, neutral);
    NeutralCompletion(Finish(s), b);
    ParseIsReference(b);
    FencesAgree(b, neutral, START);
  }

  lemma OneLine(line: string, s: State)
    ensures RunLines([line], s) == Step(s, line)
  {
    hide Step;
    assert [line][1..] == [];
  }

  /** The fence a run ends in does not depend on the blocks, the paragraph or the list it started with. */
  lemma {:induction false} FencesAgree(lines: seq<string>, s: State, t: State)
    requires s.fence == t.fence
    ensures RunLines(lines, s).fence == RunLines(lines, t).fence
  {
    if lines != [] {
      FenceStep(s, t, lines[0]);
      hide Step;
      FencesAgree(lines[1..], Step(s, lines[0]), Step(t, lines[0]));
    }
  }

  lemma FenceStep(s: State, t: State, line: string)
    requires s.fence == t.fence
    ensures Step(s, line).fence == Step(t, line).fence
  {
    FenceOfStep(s, line);
    FenceOfStep(t, line);
    hide Step;
  }

  lemma FenceOfStep(s: State, line: string)
    ensures Step(s, line).fence
         == if s.fence.None? then (if Classify(line).Opener? then Some(line) else None)
            else if FenceClose(line, Marker(s.fence.value)) then None else s.fence
  {
    hide Classify, FenceClose, Marker;
  }
}
