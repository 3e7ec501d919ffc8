/** What each inline construct shows: the passes and recognisers are tied to the constructs they stand for. */
module InlineMeaning {
  import opened Text
  import opened Address
  import opened Escaping
  import opened Html
  import opened Inline
  import opened InlinePieces
  import opened InlineOutput
  import opened Placeholders

  predicate IsMark(c: char) { c == '*' || c == '_' || c == '~' || c == '\n' }

  /** No pass finds anything to rewrite. */
  predicate Settled(s: string) { forall i | 0 <= i < |s| :: !IsMark(s[i]) }

  /** Text without Markdown, line breaks or the renderer's private character. */
  predicate PlainText(s: string) {
    forall i | 0 <= i < |s| :: !IsMark(s[i]) && s[i] != '`' && s[i] != '[' && s[i] != MARK
  }

  // --- Passes --------------------------------------------------------------------------------------

  /** A doubled pass wraps what stands between the first doubled marks, and goes on behind them. */
  lemma DoubledWraps(left: string, body: string, right: string, mark: char, tag: Tag)
    requires mark !in left && body != "" && mark !in body && '\n' !in body
    ensures Doubled(left + ([mark, mark] + body + [mark, mark] + right), mark, tag)
         == left + (OpenText(tag) + body + CloseText(tag) + Doubled(right, mark, tag))
  {
    hide Doubled, OpenText, CloseText;
    var s := [mark, mark] + body + [mark, mark] + right;
    DoubledSkips(left, s, mark, tag);
    assert s[2..] == body + ([mark, mark] + right);
    BodyExactly(body, [mark, mark] + right, mark);
    assert DoubledLength(s, mark) == |body| + 4;
    assert s[2..|body| + 2] == body && s[|body| + 4..] == right;
    DoubledMatches(s, mark, tag);
  }

  lemma DoubledMatches(s: string, mark: char, tag: Tag)
    requires DoubledLength(s, mark) > 0
    ensures var n := DoubledLength(s, mark);
      Doubled(s, mark, tag) == OpenText(tag) + s[2..n - 2] + CloseText(tag) + Doubled(s[n..], mark, tag)
  {
    hide DoubledLength, OpenText, CloseText;
  }

  lemma SingleMatches(s: string, mark: char, tag: Tag)
    requires SingleLength(s, mark) > 0
    ensures var n := SingleLength(s, mark);
      Single(s, mark, tag, true) == OpenText(tag) + s[1..n - 1] + CloseText(tag) + Single(s[n..], mark, tag, false)
  {
    hide SingleLength, OpenText, CloseText;
  }

  /** A single pass wraps what stands between the first two marks, and goes on behind them. */
  lemma SingleWraps(left: string, body: string, right: string, mark: char, tag: Tag)
    requires mark !in left && body != "" && mark !in body && '\n' !in body
    ensures Single(left + ([mark] + body + [mark] + right), mark, tag, true)
         == left + (OpenText(tag) + body + CloseText(tag) + Single(right, mark, tag, false))
  {
    hide Single, OpenText, CloseText;
    var s := [mark] + body + [mark] + right;
    if left != "" { SingleSkips(left, s, mark, tag, true); } else { assert left + s == s; }
    assert s[1..] == body + ([mark] + right);
    BodyExactly(body, [mark] + right, mark);
    assert SingleLength(s, mark) == |body| + 2;
    assert s[1..|body| + 1] == body && s[|body| + 2..] == right;
    SingleMatches(s, mark, tag);
  }

  lemma DoubledAbsent(s: string, mark: char, tag: Tag)
    requires mark !in s
    ensures Doubled(s, mark, tag) == s
  {
    DoubledSkips(s, "", mark, tag);
    assert s + "" == s;
  }

  lemma SingleAbsent(s: string, mark: char, tag: Tag, free: bool)
    requires mark !in s
    ensures Single(s, mark, tag, free) == s
  {
    if s != "" { SingleSkips(s, "", mark, tag, free); }
    assert s + "" == s;
  }

  /** Marks that are not doubled are none of a doubled pass's business. */
  lemma {:induction false} DoubledLonely(s: string, mark: char, tag: Tag)
    requires forall i | 0 <= i < |s| - 1 :: s[i] != mark || s[i + 1] != mark
    ensures Doubled(s, mark, tag) == s
  {
    if s != "" {
      assert DoubledLength(s, mark) == 0;
      DoubledLonely(s[1..], mark, tag);
    }
  }

  /** Two spaces and a line break become `<br>`. */
  lemma {:induction false} HardBreakBreaks(left: string, right: string)
    requires '\n' !in left
    ensures HardBreaks(left + ([' ', ' ', '\n'] + right)) == left + (Print(Br) + HardBreaks(right))
  {
    hide HardBreaks, Print;
    var b := [' ', ' ', '\n'] + right;
    var s := left + b;
    HardBreaksStep(s);
    if left == "" {
      assert s == b && b[3..] == right;
    } else {
      assert s[0] == left[0] && s[1..] == left[1..] + b;
      assert !BreakAt(s) by {
        if |left| <= 2 { assert s[2] == ' '; } else { assert s[2] == left[2]; }
      }
      HardBreakBreaks(left[1..], right);
    }
  }

  predicate EndsInTwoSpaces(s: string) { |s| >= 2 && s[|s| - 1] == ' ' && s[|s| - 2] == ' ' }

  lemma Behind(left: string, b: string)
    requires left != ""
    ensures var s := left + b; s[0] == left[0] && s[1..] == left[1..] + b && s == [left[0]] + (left[1..] + b)
  {
  }

  lemma AtBreak(right: string)
    ensures HardBreaks(['\n'] + right) == ['\n'] + HardBreaks(right)
  {
    hide HardBreaks, BreakAt;
    var b := ['\n'] + right;
    assert b[1..] == right;
    HardBreaksStep(b);
    NoBreakFirst(b);
  }

  /** Any other line break stays, for the last pass to make a space of it. */
  lemma {:induction false} SoftBreakStays(left: string, right: string)
    requires '\n' !in left && !EndsInTwoSpaces(left)
    ensures HardBreaks(left + (['\n'] + right)) == left + (['\n'] + HardBreaks(right))
  {
    hide HardBreaks, BreakAt, EndsInTwoSpaces;
    var b, after := ['\n'] + right, ['\n'] + HardBreaks(right);
    if left == "" {
      AtBreak(right);
      assert left + b == b && left + after == after;
    } else {
      NotBroken(left, b);
      Behind(left, b);
      Behind(left, after);
      HardBreaksStep(left + b);
      SoftBreakStays(left[1..], right);
    }
  }

  lemma NoBreakFirst(b: string)
    requires b != "" && b[0] == '\n'
    ensures !BreakAt(b)
  {
  }

  lemma NotBroken(left: string, b: string)
    requires left != "" && '\n' !in left && !EndsInTwoSpaces(left) && b != "" && b[0] == '\n'
    ensures !BreakAt(left + b) && !EndsInTwoSpaces(left[1..])
  {
    var s := left + b;
    if |left| == 1 { assert s[1] == b[0]; }
    if |left| >= 3 { assert s[2] == left[2]; }
  }

  lemma {:induction false} NoBreak(s: string)
    requires '\n' !in s
    ensures HardBreaks(s) == s
  {
    if s != "" { NoBreak(s[1..]); }
  }

  lemma SettledHasNoMarks(s: string)
    requires Settled(s)
    ensures '*' !in s && '_' !in s && '~' !in s && '\n' !in s
  {
  }

  lemma SettledStays(s: string)
    requires Settled(s)
    ensures Emphasize(s) == s
  {
    SettledHasNoMarks(s);
    DoubledAbsent(s, '*', Strong);
    DoubledAbsent(s, '_', Strong);
    DoubledAbsent(s, '~', Del);
    SingleAbsent(s, '*', Em, true);
    SingleAbsent(s, '_', Em, true);
    NoBreak(s);
    ReplaceAbsent(s, '\n', " ");
  }

  // --- Emphasis ------------------------------------------------------------------------------------

  /** `**`, `__`, `~~`, `*` and `_`. */
  datatype Style = Style(mark: char, doubled: bool, tag: Tag)

  predicate Known(st: Style) {
    || st == Style('*', true, Strong) || st == Style('_', true, Strong) || st == Style('~', true, Del)
    || st == Style('*', false, Em) || st == Style('_', false, Em)
  }

  function Delimiter(st: Style): string { if st.doubled then [st.mark, st.mark] else [st.mark] }

  function Emphasized(st: Style, left: string, body: string, right: string): string {
    left + (OpenText(st.tag) + body + CloseText(st.tag) + right)
  }

  function Written(st: Style, left: string, body: string, right: string): string {
    left + (Delimiter(st) + body + Delimiter(st) + right)
  }

  function Opening(st: Style): string {
    if st.mark == '~' then "<del>" else if st.doubled then "<strong>" else "<em>"
  }

  function Closing(st: Style): string {
    if st.mark == '~' then "</del>" else if st.doubled then "</strong>" else "</em>"
  }

  lemma StyleTags(st: Style)
    requires Known(st)
    ensures OpenText(st.tag) == Opening(st) && CloseText(st.tag) == Closing(st)
  {
    EmphasisTags();
    hide OpenText, CloseText;
  }

  lemma TagsSettled(t: Tag)
    requires t == Strong || t == Del || t == Em
    ensures Settled(OpenText(t)) && Settled(CloseText(t)) && MARK !in OpenText(t) && MARK !in CloseText(t)
  {
    TagIsQuiet(t, Name(t), OpenText(t));
    TagIsQuiet(t, Name(t), CloseText(t));
  }

  lemma EmphasizedSettled(st: Style, left: string, body: string, right: string)
    requires Known(st) && Settled(left) && Settled(body) && Settled(right)
    ensures Settled(Emphasized(st, left, body, right))
  {
    TagsSettled(st.tag);
    hide OpenText, CloseText;
  }

  lemma OnlyItsMark(st: Style, left: string, body: string, right: string, other: char)
    requires Settled(left) && Settled(body) && Settled(right) && other != st.mark && IsMark(other)
    ensures other !in Written(st, left, body, right)
  {
  }

  lemma PassWraps(st: Style, left: string, body: string, right: string)
    requires Known(st) && body != "" && Settled(left) && Settled(body) && Settled(right)
    ensures var s := Written(st, left, body, right);
      (if st.doubled then Doubled(s, st.mark, st.tag) else Single(s, st.mark, st.tag, true))
      == Emphasized(st, left, body, right)
  {
    hide Doubled, Single, OpenText, CloseText;
    SettledHasNoMarks(left);
    SettledHasNoMarks(body);
    SettledHasNoMarks(right);
    if st.doubled {
      DoubledWraps(left, body, right, st.mark, st.tag);
      DoubledAbsent(right, st.mark, st.tag);
    } else {
      SingleWraps(left, body, right, st.mark, st.tag);
      SingleAbsent(right, st.mark, st.tag, false);
    }
  }

  lemma SinglesAreLonely(st: Style, left: string, body: string, right: string)
    requires Known(st) && !st.doubled && body != "" && Settled(left) && Settled(body) && Settled(right)
    ensures Doubled(Written(st, left, body, right), st.mark, Strong) == Written(st, left, body, right)
  {
    hide Doubled;
    DoubledLonely(Written(st, left, body, right), st.mark, Strong);
  }

  /** All the passes together on one emphasised stretch. */
  lemma EmphasizeWraps(st: Style, left: string, body: string, right: string)
    requires Known(st) && body != "" && Settled(left) && Settled(body) && Settled(right)
    ensures Emphasize(Written(st, left, body, right)) == Emphasized(st, left, body, right)
  {
    hide Doubled, Single, HardBreaks, Replace, Written, Emphasized, Settled;
    var s, t := Written(st, left, body, right), Emphasized(st, left, body, right);
    EmphasizedSettled(st, left, body, right);
    SettledHasNoMarks(t);
    PassWraps(st, left, body, right);
    if st.mark != '*' {
      OnlyItsMark(st, left, body, right, '*');
      DoubledAbsent(s, '*', Strong);
      SingleAbsent(s, '*', Em, true);
    }
    if st.mark != '_' { OnlyItsMark(st, left, body, right, '_'); DoubledAbsent(s, '_', Strong); }
    if st.mark != '~' { OnlyItsMark(st, left, body, right, '~'); DoubledAbsent(s, '~', Del); }
    if !st.doubled { SinglesAreLonely(st, left, body, right); }
    DoubledAbsent(t, '_', Strong);
    DoubledAbsent(t, '~', Del);
    SingleAbsent(t, '*', Em, true);
    SingleAbsent(t, '_', Em, true);
    NoBreak(t);
    ReplaceAbsent(t, '\n', " ");
  }

  // --- Whole inputs --------------------------------------------------------------------------------

  lemma {:induction false} EscapedSettled(s: string)
    requires PlainText(s)
    ensures Settled(EscapeHtml(s)) && MARK !in EscapeHtml(s) && (s != "" ==> EscapeHtml(s) != "")
  {
    EscapeIsPointwise(s);
    hide EscapeHtml, Entity;
    if s != "" {
      EscapeIsPointwise(s[1..]);
      EscapedSettled(s[1..]);
      if IsEscaped(s[0]) { EntityIsQuiet(s[0], Entity(s[0])); } else { EntityOfOther(s[0]); }
    }
  }

  lemma EntityOfOther(c: char)
    requires !IsEscaped(c)
    ensures Entity(c) == [c]
  {
  }

  lemma RestoreNothing(s: string, tokens: seq<string>)
    requires MARK !in s
    ensures Restore(s, tokens) == s
  {
    RestoreSkips(s, "", tokens);
    EmptyRestore(tokens);
    assert s + "" == s;
  }

  lemma NothingProtected(s: string, depth: nat)
    requires '`' !in s && '[' !in s
    ensures Protect(s, depth) == Protected(s, [])
  {
    hide ProtectCode, ProtectLinks;
    NoCodeSpan(s, []);
    LinksSkip(s, "", [], depth);
    NoLinksInNothing(depth);
    assert s + "" == s;
  }

  lemma NoLinksInNothing(depth: nat)
    ensures ProtectLinks("", [], depth) == Protected("", [])
  {
  }

  lemma RenderAsProtected(s: string, depth: nat)
    ensures s == "" ==> RenderInline(s, depth) == EscapeHtml(s)
    ensures s != "" ==>
      var p := Protect(s, depth);
      RenderInline(s, depth) == Restore(Emphasize(EscapeHtml(p.value)), p.tokens)
  {
    hide Protect, Emphasize, Restore;
    EscapeIsPointwise("");
  }

  /** Text without Markdown shows as it is. */
  lemma PlainRenders(s: string, depth: nat)
    requires PlainText(s)
    ensures RenderInline(s, depth) == EscapeHtml(s)
  {
    hide Protect, Emphasize, Restore, EscapeHtml, RenderInline;
    RenderAsProtected(s, depth);
    if s != "" {
      NothingProtected(s, depth);
      EscapedSettled(s);
      SettledStays(EscapeHtml(s));
      RestoreNothing(EscapeHtml(s), []);
    }
  }

  lemma EscapeFive(a: string, b: string, c: string, d: string, e: string)
    ensures EscapeHtml(a + (b + c + d + e))
         == EscapeHtml(a) + (EscapeHtml(b) + EscapeHtml(c) + EscapeHtml(d) + EscapeHtml(e))
  {
    hide EscapeHtml;
    EscapeConcat(a, b + c + d + e);
    EscapeConcat(b + c + d, e);
    EscapeConcat(b + c, d);
    EscapeConcat(b, c);
  }

  lemma StyleRenders(st: Style, left: string, body: string, right: string, depth: nat)
    requires Known(st) && body != "" && PlainText(left) && PlainText(body) && PlainText(right)
    ensures RenderInline(Written(st, left, body, right), depth)
         == Emphasized(st, EscapeHtml(left), EscapeHtml(body), EscapeHtml(right))
  {
    hide Protect, Emphasize, Restore, EscapeHtml, RenderInline, OpenText, CloseText, Settled;
    var s := Written(st, left, body, right);
    assert '`' !in s && '[' !in s;
    RenderAsProtected(s, depth);
    NothingProtected(s, depth);
    EscapeFive(left, Delimiter(st), body, Delimiter(st), right);
    EscapePlain(Delimiter(st));
    EscapedSettled(left);
    EscapedSettled(body);
    EscapedSettled(right);
    EmphasizeWraps(st, EscapeHtml(left), EscapeHtml(body), EscapeHtml(right));
    TagsSettled(st.tag);
    RestoreNothing(Emphasized(st, EscapeHtml(left), EscapeHtml(body), EscapeHtml(right)), []);
  }

  /** Each kind of emphasis shows its text in its element, between the text around it. */
  lemma EmphasisRenders(st: Style, left: string, body: string, right: string, depth: nat)
    requires Known(st) && body != "" && PlainText(left) && PlainText(body) && PlainText(right)
    ensures RenderInline(Written(st, left, body, right), depth)
         == EscapeHtml(left) + (Opening(st) + EscapeHtml(body) + Closing(st) + EscapeHtml(right))
  {
    StyleRenders(st, left, body, right, depth);
    StyleTags(st);
    hide EscapeHtml, RenderInline, OpenText, CloseText, Opening, Closing, Written, PlainText;
  }

  // --- Tags may cross ------------------------------------------------------------------------------

  function Crossed(a: string, b: string, c: string): string {
    OpenText(Strong) + a + (OpenText(Del) + (b + CloseText(Strong) + c) + CloseText(Del))
  }

  lemma CrossedSettled(a: string, b: string, c: string)
    requires Settled(a) && Settled(b) && Settled(c)
    ensures Settled(Crossed(a, b, c)) && Settled(OpenText(Strong) + a) && Settled(b + CloseText(Strong) + c)
  {
    TagsSettled(Strong);
    TagsSettled(Del);
    hide OpenText, CloseText;
  }

  lemma StrongCrosses(a: string, b: string, c: string)
    requires Settled(a) && Settled(b) && Settled(c)
    ensures Doubled("" + (['*', '*'] + (a + ['~', '~'] + b) + ['*', '*'] + (c + ['~', '~'])), '*', Strong)
         == OpenText(Strong) + a + (['~', '~'] + (b + CloseText(Strong) + c) + ['~', '~'] + "")
  {
    hide Doubled, OpenText, CloseText;
    var body, right := a + ['~', '~'] + b, c + ['~', '~'];
    assert '*' !in body && '\n' !in body && '*' !in right;
    DoubledWraps("", body, right, '*', Strong);
    DoubledAbsent(right, '*', Strong);
  }

  lemma DelCrosses(a: string, b: string, c: string)
    requires Settled(OpenText(Strong) + a) && Settled(b + CloseText(Strong) + c)
    ensures Doubled(OpenText(Strong) + a + (['~', '~'] + (b + CloseText(Strong) + c) + ['~', '~'] + ""), '~', Del)
         == Crossed(a, b, c)
  {
    hide Doubled, OpenText, CloseText;
    var left, body := OpenText(Strong) + a, b + CloseText(Strong) + c;
    SettledHasNoMarks(left);
    SettledHasNoMarks(body);
    CloseNotEmpty();
    DoubledWraps(left, body, "", '~', Del);
    DoubledAbsent("", '~', Del);
  }

  lemma CloseNotEmpty()
    ensures CloseText(Strong) != ""
  {
  }

  lemma NoUnderscore(a: string, b: string, c: string)
    requires Settled(OpenText(Strong) + a) && Settled(b + CloseText(Strong) + c)
    ensures '_' !in OpenText(Strong) + a + (['~', '~'] + (b + CloseText(Strong) + c) + ['~', '~'] + "")
  {
    hide OpenText, CloseText;
    SettledHasNoMarks(OpenText(Strong) + a);
    SettledHasNoMarks(b + CloseText(Strong) + c);
  }

  lemma EmphasizeCrosses(a: string, b: string, c: string)
    requires Settled(a) && Settled(b) && Settled(c)
    ensures Emphasize("" + (['*', '*'] + (a + ['~', '~'] + b) + ['*', '*'] + (c + ['~', '~']))) == Crossed(a, b, c)
  {
    hide Doubled, Single, HardBreaks, Replace, Settled, OpenText, CloseText, Crossed;
    CrossedSettled(a, b, c);
    StrongCrosses(a, b, c);
    NoUnderscore(a, b, c);
    DoubledAbsent(OpenText(Strong) + a + (['~', '~'] + (b + CloseText(Strong) + c) + ['~', '~'] + ""), '_', Strong);
    DelCrosses(a, b, c);
    var t := Crossed(a, b, c);
    SettledHasNoMarks(t);
    SingleAbsent(t, '*', Em, true);
    SingleAbsent(t, '_', Em, true);
    NoBreak(t);
    ReplaceAbsent(t, '\n', " ");
  }

  lemma CrossedSource(a: string, b: string, c: string)
    requires PlainText(a) && PlainText(b) && PlainText(c)
    ensures var s := "" + (['*', '*'] + (a + ['~', '~'] + b) + ['*', '*'] + (c + ['~', '~']));
      && s != "" && '`' !in s && '[' !in s
      && EscapeHtml(s) == "" + (['*', '*'] + (EscapeHtml(a) + ['~', '~'] + EscapeHtml(b)) + ['*', '*']
                                + (EscapeHtml(c) + ['~', '~']))
  {
    hide EscapeHtml;
    var stars, tildes := ['*', '*'], ['~', '~'];
    EscapePlain(stars);
    EscapePlain(tildes);
    EscapePlain("");
    EscapeFive("", stars, a + tildes + b, stars, c + tildes);
    EscapeConcat(a + tildes, b);
    EscapeConcat(a, tildes);
    EscapeConcat(c, tildes);
  }

  /** Tags of different kinds need not nest: here the strong element ends inside the deleted one. */
  lemma TagsMayCross(a: string, b: string, c: string, depth: nat)
    requires PlainText(a) && PlainText(b) && PlainText(c)
    ensures RenderInline("" + (['*', '*'] + (a + ['~', '~'] + b) + ['*', '*'] + (c + ['~', '~'])), depth)
         == "<strong>" + EscapeHtml(a) + ("<del>" + (EscapeHtml(b) + "</strong>" + EscapeHtml(c)) + "</del>")
  {
    EmphasisTags();
    hide Protect, Emphasize, Restore, EscapeHtml, RenderInline, OpenText, CloseText, Settled, PlainText;
    var s := "" + (['*', '*'] + (a + ['~', '~'] + b) + ['*', '*'] + (c + ['~', '~']));
    CrossedSource(a, b, c);
    RenderAsProtected(s, depth);
    NothingProtected(s, depth);
    EscapedSettled(a);
    EscapedSettled(b);
    EscapedSettled(c);
    EmphasizeCrosses(EscapeHtml(a), EscapeHtml(b), EscapeHtml(c));
    TagsSettled(Strong);
    TagsSettled(Del);
    RestoreNothing(Crossed(EscapeHtml(a), EscapeHtml(b), EscapeHtml(c)), []);
  }

  // --- Code spans and links ------------------------------------------------------------------------

  lemma CodeStep(s: string, tokens: seq<string>)
    requires s != "" && s[0] != '`'
    ensures var r := ProtectCode(s[1..], tokens); ProtectCode(s, tokens) == Protected([s[0]] + r.value, r.tokens)
  {
  }

  lemma {:induction false} CodeSkips(a: string, b: string, tokens: seq<string>)
    requires '`' !in a
    ensures ProtectCode(a + b, tokens) == Protected(a + ProtectCode(b, tokens).value, ProtectCode(b, tokens).tokens)
    decreases |a|
  {
    hide ProtectCode;
    if a == "" {
      assert a + b == b;
      assert a + ProtectCode(b, tokens).value == ProtectCode(b, tokens).value;
    } else {
      assert (a + b)[0] == a[0] && (a + b)[1..] == a[1..] + b;
      CodeStep(a + b, tokens);
      CodeSkips(a[1..], b, tokens);
      assert [a[0]] + (a[1..] + ProtectCode(b, tokens).value) == a + ProtectCode(b, tokens).value;
    }
  }

  lemma CodeProtected(left: string, code: string, right: string)
    requires '`' !in left && '`' !in right && code != "" && '`' !in code && '\n' !in code
    ensures ProtectCode(left + (['`'] + code + ['`'] + right), [])
         == Protected(left + (Placeholder(0) + right), [OpenText(Code) + EscapeHtml(code) + CloseText(Code)])
  {
    hide Placeholder, EscapeHtml, OpenText, CloseText;
    var s := ['`'] + code + ['`'] + right;
    CodeSkips(left, s, []);
    CodeSpanExactly(code, right);
    var span := s[..|code| + 2];
    assert span == ['`'] + code + ['`'] && span[1..|span| - 1] == code && s[|code| + 2..] == right;
    assert [] + [CodeToken(span)] == [CodeToken(span)];
    NoCodeSpan(right, [CodeToken(span)]);
  }

  /** A placeholder between settled texts is replaced by its token and nothing else happens. */
  lemma TokenShows(left: string, right: string, token: string)
    requires PlainText(left) && PlainText(right)
    ensures Restore(Emphasize(EscapeHtml(left + (Placeholder(0) + right))), [token])
         == EscapeHtml(left) + (token + EscapeHtml(right))
  {
    hide Emphasize, Restore, EscapeHtml, Placeholder, Decimal;
    var hole := Placeholder(0);
    PlaceholderIsPlain(0, hole);
    EscapeConcat(left, hole + right);
    EscapeConcat(hole, right);
    EscapePlain(hole);
    EscapedSettled(left);
    EscapedSettled(right);
    var e := EscapeHtml(left) + (hole + EscapeHtml(right));
    assert Settled(e);
    SettledStays(e);
    RestoreSkips(EscapeHtml(left), hole + EscapeHtml(right), [token]);
    RestorePlaceholder(0, EscapeHtml(right), [token]);
    RestoreNothing(EscapeHtml(right), [token]);
    ValueOfDecimal(0);
  }

  /** A code span shows its code, escaped and otherwise untouched, whatever it contains. */
  lemma CodeRenders(left: string, code: string, right: string, depth: nat)
    requires PlainText(left) && PlainText(right) && code != "" && '`' !in code && '\n' !in code
    ensures RenderInline(left + (['`'] + code + ['`'] + right), depth)
         == EscapeHtml(left) + (("<code>" + EscapeHtml(code) + "</code>") + EscapeHtml(right))
  {
    CodeTag();
    hide Emphasize, Restore, EscapeHtml, RenderInline, OpenText, CloseText, Placeholder, ProtectCode, ProtectLinks;
    var s := left + (['`'] + code + ['`'] + right);
    var token := OpenText(Code) + EscapeHtml(code) + CloseText(Code);
    RenderAsProtected(s, depth);
    CodeProtected(left, code, right);
    var value := left + (Placeholder(0) + right);
    PlaceholderIsPlain(0, Placeholder(0));
    assert '[' !in value;
    LinksSkip(value, "", [token], depth);
    NoLinksLeft([token], depth);
    assert value + "" == value;
    TokenShows(left, right, token);
  }

  lemma NoLinksLeft(tokens: seq<string>, depth: nat)
    ensures ProtectLinks("", tokens, depth) == Protected("", tokens)
  {
  }

  predicate PlainUrl(url: string) {
    url != "" && forall i | 0 <= i < |url| :: !IsSpace(url[i]) && url[i] != ')' && url[i] != '`'
  }

  /** What may stand between an address and the closing parenthesis. */
  datatype Title = NoTitle | Title(space: string, open: char, text: string, close: char)

  predicate GoodTitle(t: Title) {
    t.Title? ==>
      && t.space != "" && AllSpace(t.space) && IsQuote(t.open) && IsQuote(t.close)
      && ')' !in t.text && '`' !in t.text
  }

  function TitleText(t: Title): string {
    if t.NoTitle? then "" else t.space + ([t.open] + t.text + [t.close])
  }

  function TitledLink(caption: string, url: string, t: Title): string {
    ['['] + caption + [']', '('] + url + TitleText(t) + [')']
  }

  function LinkText(caption: string, url: string): string { ['['] + caption + [']', '('] + url + [')'] }

  lemma UrlAtClose(s: string, q: nat)
    requires q < |s| && s[q] == ')'
    ensures UrlEnd(s, q) == Some((q, q + 1))
  {
    NoTitleHere(s, q);
    hide TitleEnd;
  }

  /** A title needs white space in front. */
  lemma NoTitleHere(s: string, p: nat)
    requires p < |s| && !IsSpace(s[p])
    ensures TitleEnd(s, p) == 0
  {
    hide IsSpace;
    assert s[p..][0] == s[p];
    assert Run(IsSpace, s[p..]) == 0;
  }

  lemma QuotesAreNoSpace(c: char)
    requires IsQuote(c)
    ensures !IsSpace(c)
  {
  }

  lemma TitleAtSpace(s: string, p: nat, q: nat, r: nat)
    requires p < q < |s| && q == p + Run(IsSpace, s[p..]) && IsQuote(s[q])
    requires q + 1 < r < |s| && r == q + 1 + Run(c => c != ')', s[q + 1..]) && IsQuote(s[r - 1])
    ensures TitleEnd(s, p) == r + 1
  {
    hide Run, IsSpace, IsQuote;
  }

  lemma TitleSlices(front: string, space: string, open: char, text: string, close: char, rest: string)
    ensures var s, p := front + (space + ([open] + text + [close]) + rest), |front|;
      var q := p + |space|;
      var r := q + |text| + 2;
      && r <= |s| && s[p..] == space + ([open] + text + [close] + rest)
      && s[q] == open && s[q + 1..] == (text + [close]) + rest && s[r - 1] == close
  {
    var s, p := front + (space + ([open] + text + [close]) + rest), |front|;
    assert s[p..] == space + ([open] + text + [close]) + rest;
  }

  lemma NoneIsClose(text: string, close: char)
    requires ')' !in text && IsQuote(close)
    ensures forall i | 0 <= i < |text + [close]| :: (text + [close])[i] != ')'
  {
  }

  lemma TitleExactly(front: string, t: Title, right: string)
    requires t.Title? && GoodTitle(t)
    ensures var s := front + (TitleText(t) + ([')'] + right));
      TitleEnd(s, |front|) == |front| + |TitleText(t)| + 1
  {
    hide IsSpace, TitleEnd, Run, IsQuote;
    var rest := [')'] + right;
    var s := front + (TitleText(t) + rest);
    var p := |front|;
    var q := p + |t.space|;
    TitleSlices(front, t.space, t.open, t.text, t.close, rest);
    QuotesAreNoSpace(t.open);
    RunExactly(IsSpace, t.space, [t.open] + t.text + [t.close] + rest);
    NoneIsClose(t.text, t.close);
    RunExactly(c => c != ')', t.text + [t.close], rest);
    TitleAtSpace(s, p, q, q + |t.text| + 2);
  }

  lemma UrlAtTitle(s: string, q: nat, e: nat)
    requires q <= |s| && TitleEnd(s, q) == e > 0
    ensures UrlEnd(s, q) == Some((q, e))
  {
    hide TitleEnd;
  }

  /** The lazy address runs to the first place where the rest of a link matches. */
  lemma {:induction false} UrlExactly(s: string, p: nat, q: nat, e: nat)
    requires p <= q <= |s| && UrlEnd(s, q) == Some((q, e)) && forall i | p <= i < q :: !IsSpace(s[i]) && s[i] != ')'
    ensures UrlEnd(s, p) == Some((q, e))
    decreases q - p
  {
    hide IsSpace, TitleEnd;
    if p < q {
      NoTitleHere(s, p);
      UrlExactly(s, p + 1, q, e);
    }
  }

  lemma LinkCharacters(caption: string, url: string, rest: string)
    requires PlainUrl(url)
    ensures var s, n, q := ['['] + caption + [']', '('] + url + rest, |caption|, |caption| + 3 + |url|;
      && q <= |s| && s[0] == '[' && s[n + 1] == ']' && s[n + 2] == '(' && s[q..] == rest && s[n + 3] == url[0]
      && s[1..] == caption + ([']', '('] + url + rest)
      && s[1..n + 1] == caption && s[n + 3..q] == url
      && forall i | n + 3 <= i < q :: !IsSpace(s[i]) && s[i] != ')'
  {
    hide IsSpace;
    var s, n, q := ['['] + caption + [']', '('] + url + rest, |caption|, |caption| + 3 + |url|;
    forall i | n + 3 <= i < q ensures !IsSpace(s[i]) && s[i] != ')' {
      assert s[i] == url[i - n - 3];
    }
  }

  lemma LabelIs(s: string, n: nat)
    requires s != "" && s[0] == '[' && 0 < n && BodyLength(s[1..], ']') == n && n + 3 < |s|
    requires s[n + 1] == ']' && s[n + 2] == '(' && !IsSpace(s[n + 3])
    ensures LabelLength(s) == n
  {
    hide BodyLength, IsSpace;
  }

  lemma LinkShaped(s: string, n: nat, q: nat, e: nat)
    requires 0 < n && LabelLength(s) == n && n + 3 <= q < e <= |s| && UrlEnd(s, n + 4) == Some((q, e))
    ensures LinkAt(s) == Some(Link(e, s[1..n + 1], s[n + 3..q]))
  {
    hide LabelLength, UrlEnd;
  }

  lemma LinkFound(caption: string, url: string, rest: string, e: nat)
    requires caption != "" && ']' !in caption && '\n' !in caption && PlainUrl(url) && rest != ""
    requires var s, q := ['['] + caption + [']', '('] + url + rest, |caption| + 3 + |url|;
      q < e <= |s| && UrlEnd(s, q) == Some((q, e))
    ensures LinkAt(['['] + caption + [']', '('] + url + rest) == Some(Link(e, caption, url))
  {
    hide LinkAt, IsSpace, UrlEnd, BodyLength, LabelLength;
    var s, n, q := ['['] + caption + [']', '('] + url + rest, |caption|, |caption| + 3 + |url|;
    LinkCharacters(caption, url, rest);
    BodyExactly(caption, [']', '('] + url + rest, ']');
    LabelIs(s, n);
    UrlExactly(s, n + 4, q, e);
    LinkShaped(s, n, q, e);
  }

  lemma LinkExactly(caption: string, url: string, right: string)
    requires caption != "" && ']' !in caption && '\n' !in caption && PlainUrl(url)
    ensures LinkAt(LinkText(caption, url) + right) == Some(Link(|caption| + |url| + 4, caption, url))
  {
    hide LinkAt, UrlEnd, PlainUrl;
    var front := ['['] + caption + [']', '('] + url;
    var s := front + ([')'] + right);
    assert s[|front|] == ')';
    UrlAtClose(s, |front|);
    LinkFound(caption, url, [')'] + right, |front| + 1);
    assert LinkText(caption, url) + right == s;
  }

  lemma TitledLinkExactly(caption: string, url: string, t: Title, right: string)
    requires caption != "" && ']' !in caption && '\n' !in caption && PlainUrl(url) && GoodTitle(t)
    ensures LinkAt(TitledLink(caption, url, t) + right)
         == Some(Link(|caption| + |url| + |TitleText(t)| + 4, caption, url))
  {
    hide LinkAt, UrlEnd, PlainUrl, TitleText, TitleEnd, GoodTitle;
    var front, rest := ['['] + caption + [']', '('] + url, TitleText(t) + ([')'] + right);
    var s := front + rest;
    assert TitledLink(caption, url, t) + right == s;
    if t.NoTitle? {
      NoTitleText();
      assert rest == [')'] + right && TitledLink(caption, url, t) == LinkText(caption, url);
      LinkExactly(caption, url, right);
    } else {
      TitleExactly(front, t, right);
      UrlAtTitle(s, |front|, |front| + |TitleText(t)| + 1);
      LinkFound(caption, url, rest, |front| + |TitleText(t)| + 1);
    }
  }

  lemma NoTitleText()
    ensures TitleText(NoTitle) == ""
  {
  }

  /** What a label shows: it is rendered on its own, up to the depth guard. */
  function Shown(caption: string, depth: nat): string {
    if depth < 2 then RenderInline(caption, depth + 1) else EscapeHtml(caption)
  }

  function Opened(href: string): string { "<a href=\"" + href + "\" target=\"_blank\" rel=\"noopener noreferrer\">" }

  lemma LabelRenders(link: Link, depth: nat)
    requires SafeUrl(link.url).Some?
    ensures LinkToken(link, depth)
         == Opened(EscapeAttribute(SafeUrl(link.url).value)) + Shown(link.text, depth) + "</a>"
  {
    AnchorTags(EscapeAttribute(SafeUrl(link.url).value));
    hide EscapeHtml, EscapeAttribute, LinkOpenText, CloseText, RenderInline, SafeUrl;
  }

  lemma TitleHasNoTick(t: Title)
    requires GoodTitle(t)
    ensures '`' !in TitleText(t)
  {
  }

  /** A link with a safe address, with or without a title, shows its label, rendered on its own, as an anchor to
      that address; a plain label shows as it is. With any other address a link shows as it was written, without
      its title. */
  lemma LinkRenders(left: string, caption: string, url: string, t: Title, right: string, depth: nat)
    requires PlainText(left) && PlainText(right) && PlainUrl(url) && GoodTitle(t)
    requires caption != "" && ']' !in caption && '\n' !in caption && '`' !in caption
    ensures SafeUrl(url).Some? ==>
      var anchor := Opened(EscapeAttribute(SafeUrl(url).value)) + Shown(caption, depth) + "</a>";
      RenderInline(left + (TitledLink(caption, url, t) + right), depth) == EscapeHtml(left) + (anchor + EscapeHtml(right))
    ensures PlainText(caption) ==> Shown(caption, depth) == EscapeHtml(caption)
    ensures SafeUrl(url).None? && PlainText(caption) && PlainText(url) ==>
      RenderInline(left + (TitledLink(caption, url, t) + right), depth)
      == EscapeHtml(left + (LinkText(caption, url) + right))
  {
    hide Emphasize, Restore, EscapeHtml, RenderInline, LinkOpenText, CloseText, Placeholder, ProtectCode, ProtectLinks,
         SafeUrl, LinkToken, EscapeAttribute, LinkAt, TitleText, GoodTitle, Shown, Opened;
    var l := TitledLink(caption, url, t) + right;
    var s := left + l;
    var link := Link(|caption| + |url| + |TitleText(t)| + 4, caption, url);
    TitleHasNoTick(t);
    assert '`' !in s;
    RenderAsProtected(s, depth);
    NoCodeSpan(s, []);
    LinksSkip(left, l, [], depth);
    TitledLinkExactly(caption, url, t, right);
    assert l[link.length..] == right && right + "" == right;
    PlainLabel(link, depth);
    if SafeUrl(url).Some? {
      SafeLinkReplaced(l, link, [], depth);
      var token := LinkToken(link, depth);
      assert [] + [token] == [token];
      LinksSkip(right, "", [token], depth);
      NoLinksLeft([token], depth);
      LabelRenders(link, depth);
      TokenShows(left, right, token);
    } else if PlainText(url) && PlainText(caption) {
      UnsafeLinkCopied(l, link, [], depth);
      LinksSkip(right, "", [], depth);
      NoLinksLeft([], depth);
      CopiedLink(caption, url, right);
      CopiedShows(left, caption, url, right);
    }
  }

  lemma PlainLabel(link: Link, depth: nat)
    ensures PlainText(link.text) ==> Shown(link.text, depth) == EscapeHtml(link.text)
  {
    hide EscapeHtml, RenderInline;
    if PlainText(link.text) { PlainRenders(link.text, depth + 1); }
  }

  lemma CopiedLink(caption: string, url: string, right: string)
    ensures "[" + caption + "](" + url + ")" + right == LinkText(caption, url) + right
  {
  }

  lemma CopiedShows(left: string, caption: string, url: string, right: string)
    requires PlainText(left) && PlainText(right) && PlainText(caption) && PlainText(url)
    ensures var e := EscapeHtml(left + (LinkText(caption, url) + right)); Restore(Emphasize(e), []) == e
  {
    hide Emphasize, Restore, EscapeHtml;
    var head, middle, last := ['['], [']', '('], [')'];
    assert LinkText(caption, url) + right == head + (caption + middle + url + (last + right));
    EscapeConcat(left, LinkText(caption, url) + right);
    EscapeFive(head, caption, middle, url, last + right);
    EscapeConcat(last, right);
    EscapePlain(head);
    EscapePlain(middle);
    EscapePlain(last);
    EscapedSettled(left);
    EscapedSettled(caption);
    EscapedSettled(url);
    EscapedSettled(right);
    var e := EscapeHtml(left + (LinkText(caption, url) + right));
    SettledStays(e);
    RestoreNothing(e, []);
  }

  // --- Line breaks ---------------------------------------------------------------------------------

  /** The passes before the breaks do nothing to plain text with line breaks. */
  lemma BreaksOnly(s: string)
    requires '*' !in s && '_' !in s && '~' !in s
    ensures Emphasize(s) == Replace(HardBreaks(s), '\n', " ")
  {
    hide Doubled, Single, HardBreaks, Replace;
    DoubledAbsent(s, '*', Strong);
    DoubledAbsent(s, '_', Strong);
    DoubledAbsent(s, '~', Del);
    SingleAbsent(s, '*', Em, true);
    SingleAbsent(s, '_', Em, true);
  }

  lemma ReplaceOneBreak(left: string, middle: string, right: string)
    requires '\n' !in left && '\n' !in right
    ensures Replace(left + (middle + right), '\n', " ") == left + (Replace(middle, '\n', " ") + right)
  {
    hide Replace;
    ReplaceConcat(left, middle + right, '\n', " ");
    ReplaceConcat(middle, right, '\n', " ");
    ReplaceAbsent(left, '\n', " ");
    ReplaceAbsent(right, '\n', " ");
  }

  lemma EscapeThree(a: string, b: string, c: string)
    ensures EscapeHtml(a + (b + c)) == EscapeHtml(a) + (EscapeHtml(b) + EscapeHtml(c))
  {
    hide EscapeHtml;
    EscapeConcat(a, b + c);
    EscapeConcat(b, c);
  }

  /** Two spaces and a line break show as a break; a line break with no two spaces before it shows as a space. */
  lemma BreaksRender(left: string, right: string, depth: nat)
    requires PlainText(left) && PlainText(right)
    ensures RenderInline(left + ([' ', ' ', '\n'] + right), depth) == EscapeHtml(left) + ("<br>" + EscapeHtml(right))
    ensures !EndsInTwoSpaces(EscapeHtml(left)) ==>
      RenderInline(left + (['\n'] + right), depth) == EscapeHtml(left) + ([' '] + EscapeHtml(right))
  {
    BreakTag();
    hide Emphasize, Restore, EscapeHtml, RenderInline, Protect, HardBreaks, Replace, Print;
    EscapedSettled(left);
    EscapedSettled(right);
    var l, r := EscapeHtml(left), EscapeHtml(right);
    BreakShows(left, [' ', ' ', '\n'], right, depth);
    BreakShows(left, ['\n'], right, depth);
    NoBreak(r);
    HardBreakBreaks(l, r);
    BreakIsQuiet(Print(Br));
    ReplaceOneBreak(l, Print(Br), r);
    ReplaceAbsent(Print(Br), '\n', " ");
    RestoreNothing(l + (Print(Br) + r), []);
    if !EndsInTwoSpaces(l) {
      SoftBreakStays(l, r);
      ReplaceOneBreak(l, ['\n'], r);
      ReplaceOne('\n', " ");
      RestoreNothing(l + ([' '] + r), []);
    }
  }

  lemma BreakIsQuiet(s: string)
    requires s == Print(Br)
    ensures '\n' !in s && MARK !in s
  {
    BreakPrint(s);
  }

  lemma BreakShows(left: string, middle: string, right: string, depth: nat)
    requires PlainText(left) && PlainText(right) && (middle == [' ', ' ', '\n'] || middle == ['\n'])
    ensures RenderInline(left + (middle + right), depth)
         == Restore(Replace(HardBreaks(EscapeHtml(left) + (middle + EscapeHtml(right))), '\n', " "), [])
  {
    hide Emphasize, Restore, EscapeHtml, RenderInline, Protect, HardBreaks, Replace;
    var s := left + (middle + right);
    RenderAsProtected(s, depth);
    NothingProtected(s, depth);
    EscapeThree(left, middle, right);
    EscapePlain(middle);
    EscapedSettled(left);
    EscapedSettled(right);
    BreaksOnly(EscapeHtml(left) + (middle + EscapeHtml(right)));
  }
}
