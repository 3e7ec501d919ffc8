/** Syntax emphasis in code blocks (`highlightCode` and the tokenizer it runs). */
module Highlight {
  import opened Text
  import opened Escaping
  import opened Html

  // --- Languages -----------------------------------------------------------------------------------

  /** Lower case, as far as the filter below can tell: besides ASCII, only the Kelvin sign and the dotted
      capital I have lower-case forms with an ASCII letter in them. */
  function LowerChar(c: char): string {
    if 'A' <= c <= 'Z' then [c - 'A' + 'a']
    else if c == '\U{212A}' then "k"
    else if c == '\U{0130}' then "i\U{0307}"
    else [c]
  }

  function Lower(s: string): string {
    if s == [] then "" else LowerChar(s[0]) + Lower(s[1..])
  }

  predicate IsLanguageChar(c: char) {
    'a' <= c <= 'z' || IsDigit(c) || c == '+' || c == '#' || c == '-'
  }

  function LanguageChars(s: string): string {
    if s == [] then ""
    else (if IsLanguageChar(s[0]) then [s[0]] else "") + LanguageChars(s[1..])
  }

  function Alias(language: string): Option<string> {
    if language in ["cjs", "js", "jsx", "mjs"] then Some("javascript")
    else if language == "py" then Some("python")
    else if language == "rb" then Some("ruby")
    else if language == "rs" then Some("rust")
    else if language in ["sh", "shell"] then Some("bash")
    else if language in ["ts", "tsx"] then Some("typescript")
    else if language == "yml" then Some("yaml")
    else None
  }

  function NormalizeLanguage(info: string): string {
    var trimmed := Trim(info);
    var first := trimmed[..Run(c => !IsSpace(c) && c != ',', trimmed)];
    var language := Lower(first);
    match Alias(language)
    case Some(name) => name
    case None =>
      var kept := LanguageChars(language);
      if |kept| > 24 then kept[..24] else kept
  }

  predicate HasKeywords(language: string) {
    language in ["javascript", "typescript", "python", "rust", "json", "bash", "shell"]
  }

  // The words between the bars of each language's pattern; only a whole word matches `^(?:a|b|c)$`.

  const JAVASCRIPT: seq<string> :=
    ["as", "async", "await", "break", "case", "catch", "class", "const", "continue", "debugger", "default",
     "delete", "do", "else", "export", "extends", "finally", "for", "from", "function", "if", "import", "in",
     "instanceof", "let", "new", "of", "return", "static", "super", "switch", "this", "throw", "try", "typeof",
     "var", "void", "while", "with", "yield"]

  const TYPESCRIPT: seq<string> :=
    ["as", "async", "await", "break", "case", "catch", "class", "const", "continue", "debugger", "default",
     "delete", "do", "else", "export", "extends", "finally", "for", "from", "function", "if", "implements",
     "import", "in", "instanceof", "interface"]
    + ["keyof", "let", "namespace", "never", "new", "of", "private", "public", "readonly", "return", "static",
       "string", "super", "switch", "this", "throw", "try", "type", "typeof", "unknown", "var", "void", "while",
       "with", "yield"]

  const PYTHON: seq<string> :=
    ["and", "as", "assert", "async", "await", "break", "case", "class", "continue", "def", "del", "elif", "else",
     "except", "False", "finally", "for", "from", "global", "if", "import", "in", "is", "lambda", "match", "None",
     "nonlocal", "not", "or", "pass", "raise", "return", "True", "try", "while", "with", "yield"]

  const RUST: seq<string> :=
    ["as", "async", "await", "break", "const", "continue", "crate", "dyn", "else", "enum", "extern", "false",
     "fn", "for", "if", "impl", "in", "let", "loop", "match", "mod", "move", "mut", "pub", "ref", "return",
     "self", "Self", "static", "struct", "super", "trait", "true", "type", "unsafe", "use", "where", "while"]

  const JSON: seq<string> :=
    ["true", "false", "null"]

  const SHELL: seq<string> :=
    ["case", "do", "done", "elif", "else", "esac", "fi", "for", "function", "if", "in", "select", "then", "until",
     "while"]

  function Keywords(language: string): seq<string>
    requires HasKeywords(language)
  {
    if language == "javascript" then JAVASCRIPT
    else if language == "typescript" then TYPESCRIPT
    else if language == "python" then PYTHON
    else if language == "rust" then RUST
    else if language == "json" then JSON
    else SHELL
  }

  predicate IsHighlighted(language: string) {
    HasKeywords(language) || language in ["css", "html", "xml", "yaml", "markdown", "md"]
  }

  // --- Tokens --------------------------------------------------------------------------------------

  predicate IsWord(c: char) { 'a' <= c <= 'z' || 'A' <= c <= 'Z' || IsDigit(c) || c == '_' }

  predicate IsNameChar(c: char) { IsWord(c) || c == '$' }

  predicate IsHex(c: char) { IsDigit(c) || 'a' <= c <= 'f' || 'A' <= c <= 'F' }

  predicate WordAt(s: string, i: int) { 0 <= i < |s| && IsWord(s[i]) }

  /** `\b` */
  predicate Boundary(s: string, i: nat) { WordAt(s, i - 1) != WordAt(s, i) }

  /** The end of the first `*``/` at or after `p`, 0 if there is none. */
  function CommentClose(s: string, p: nat): (e: nat)
    ensures e == 0 || p + 2 <= e <= |s|
    decreases |s| - p
  {
    if p + 1 >= |s| then 0
    else if s[p] == '*' && s[p + 1] == '/' then p + 2
    else CommentClose(s, p + 1)
  }

  function LineEnd(s: string, p: nat): (e: nat)
    requires p <= |s|
    ensures p <= e <= |s|
  {
    p + Run(c => c != '\n', s[p..])
  }

  /** `(?:\\.|[^q\\])*q` from `p` on: the position after the closing quote, 0 if there is none. */
  function QuoteClose(s: string, quote: char, p: nat): (e: nat)
    requires p <= |s|
    ensures e == 0 || p < e <= |s|
    decreases |s| - p
  {
    if p == |s| then 0
    else if s[p] == quote then p + 1
    else if s[p] == '\\' then
      if p + 1 < |s| && !IsLineTerminator(s[p + 1]) then QuoteClose(s, quote, p + 2) else 0
    else QuoteClose(s, quote, p + 1)
  }

  /** `\b(?:0x[\da-f]+|\d+(?:\.\d+)?)\b` */
  function NumberEnd(s: string, i: nat): (e: nat)
    requires i < |s|
    ensures e == 0 || i < e <= |s|
  {
    if !IsDigit(s[i]) || WordAt(s, i - 1) then 0
    else
      var hex := if s[i] == '0' && i + 1 < |s| && (s[i + 1] == 'x' || s[i + 1] == 'X') then Run(IsHex, s[i + 2..]) else 0;
      if hex > 0 && !WordAt(s, i + 2 + hex) then i + 2 + hex
      else
        var whole := i + Run(IsDigit, s[i..]);
        var fraction := if whole < |s| && s[whole] == '.' then Run(IsDigit, s[whole + 1..]) else 0;
        if fraction > 0 && !WordAt(s, whole + 1 + fraction) then whole + 1 + fraction
        else if whole > i && !WordAt(s, whole) then whole
        else 0
  }

  /** The last word boundary in `(i, e]`, 0 if there is none. */
  function LastBoundary(s: string, i: nat, e: nat): (r: nat)
    requires i <= e <= |s|
    ensures r == 0 || i < r <= e
  {
    if e == i then 0 else if Boundary(s, e) then e else LastBoundary(s, i, e - 1)
  }

  /** `\b[A-Za-z_$][\w$]*\b` */
  function NameEnd(s: string, i: nat): (e: nat)
    requires i < |s|
    ensures e == 0 || i < e <= |s|
  {
    if !IsNameChar(s[i]) || IsDigit(s[i]) || !Boundary(s, i) then 0
    else LastBoundary(s, i, i + Run(IsNameChar, s[i..]))
  }

  /** The end of the token at position `i`: the first alternative that matches. 0 if none does. */
  function MatchEnd(s: string, i: nat): (e: nat)
    requires i < |s|
    ensures e == 0 || i < e <= |s|
  {
    var c := s[i];
    var d := if i + 1 < |s| then s[i + 1] else ' ';
    var comment := if c == '/' && d == '*' then CommentClose(s, i + 2) else 0;
    if comment > 0 then comment
    else if (c == '/' && d == '/') || (c == '-' && d == '-') then LineEnd(s, i + 2)
    else if c == '#' then LineEnd(s, i + 1)
    else if c == '"' || c == '\'' || c == '`' then QuoteClose(s, c, i + 1)
    else
      var number := NumberEnd(s, i);
      if number > 0 then number else NameEnd(s, i)
  }

  datatype Match = Match(start: nat, end: nat)

  /** Spans in order, apart from each other and not empty, between `last` and the end of the code. */
  predicate ValidSpans(spans: seq<Match>, last: nat, n: nat) {
    if spans == [] then last <= n
    else last <= spans[0].start < spans[0].end <= n && ValidSpans(spans[1..], spans[0].end, n)
  }

  /** All matches from position `i` on, leftmost first. */
  function Spans(s: string, i: nat): (spans: seq<Match>)
    requires i <= |s|
    decreases |s| - i
  {
    if i == |s| then []
    else
      var e := MatchEnd(s, i);
      if e > 0 then [Match(i, e)] + Spans(s, e) else Spans(s, i + 1)
  }

  lemma {:induction false} SpansValid(s: string, i: nat, last: nat)
    requires last <= i <= |s|
    ensures ValidSpans(Spans(s, i), last, |s|)
    decreases |s| - i
  {
    if i < |s| {
      var e := MatchEnd(s, i);
      if e > 0 {
        SpansValid(s, e, e);
        assert Spans(s, i)[1..] == Spans(s, e);
      } else {
        SpansValid(s, i + 1, last);
      }
    }
  }

  /** The matches a global search finds: each is the token at its start, and no token starts in a gap. */
  ghost predicate Leftmost(s: string, spans: seq<Match>, i: nat) {
    if spans == [] then forall p: nat | i <= p < |s| :: MatchEnd(s, p) == 0
    else
      && i <= spans[0].start < |s| && MatchEnd(s, spans[0].start) == spans[0].end > 0
      && (forall p: nat | i <= p < spans[0].start :: MatchEnd(s, p) == 0)
      && Leftmost(s, spans[1..], spans[0].end)
  }

  lemma {:induction false} SpansLeftmost(s: string, i: nat)
    requires i <= |s|
    ensures Leftmost(s, Spans(s, i), i)
    decreases |s| - i
  {
    hide MatchEnd;
    if i < |s| {
      var e := MatchEnd(s, i);
      if e > 0 {
        SpansLeftmost(s, e);
        assert Spans(s, i)[1..] == Spans(s, e);
      } else {
        SpansLeftmost(s, i + 1);
      }
    }
  }

  /** And there is only one such list. */
  lemma {:induction false} LeftmostIsUnique(s: string, spans: seq<Match>, i: nat)
    requires i <= |s| && Leftmost(s, spans, i)
    ensures spans == Spans(s, i)
    decreases |s| - i
  {
    hide MatchEnd;
    if i < |s| {
      var e := MatchEnd(s, i);
      if e > 0 {
        LeftmostIsUnique(s, spans[1..], e);
        assert spans == [spans[0]] + spans[1..];
      } else {
        LeftmostIsUnique(s, spans, i + 1);
      }
    }
  }

  function TokenClass(token: string, language: string): Option<string> {
    if "//" <= token || "#" <= token || "--" <= token || "/*" <= token then Some("comment")
    else if "\"" <= token || "'" <= token || "`" <= token then Some("string")
    else if token != "" && IsDigit(token[0]) then Some("number")
    else if HasKeywords(language) && token in Keywords(language) then Some("keyword")
    else None
  }

  /** How the tokens of one language are classified. */
  function Classifier(language: string): string -> Option<string> { token => TokenClass(token, language) }

  function RenderToken(token: string, classify: string -> Option<string>): string {
    match classify(token)
    case Some(kind) => SpanOpenText(kind) + EscapeHtml(token) + CloseText(Span)
    case None => EscapeHtml(token)
  }

  /** Gaps are escaped, tokens are escaped and wrapped. */
  function RenderSpans(code: string, spans: seq<Match>, last: nat, classify: string -> Option<string>): string
    requires ValidSpans(spans, last, |code|)
    decreases spans
  {
    if spans == [] then EscapeHtml(code[last..])
    else
      EscapeHtml(code[last..spans[0].start])
      + RenderToken(code[spans[0].start..spans[0].end], classify)
      + RenderSpans(code, spans[1..], spans[0].end, classify)
  }

  function HighlightCode(code: string, language: string): string {
    var normalized := NormalizeLanguage(language);
    if !IsHighlighted(normalized) then EscapeHtml(code)
    else
      SpansValid(code, 0, 0);
      RenderSpans(code, Spans(code, 0), 0, Classifier(normalized))
  }

  /** The loop of `highlightCode`: scan for the next match, append the gap and the token, go on after it. */
  method Highlight(code: string, language: string) returns (output: string)
    ensures output == HighlightCode(code, language)
  {
    hide IsHighlighted, EscapeHtml, RenderToken, MatchEnd;
    var normalized := NormalizeLanguage(language);
    hide NormalizeLanguage;
    if !IsHighlighted(normalized) {
      return EscapeHtml(code);
    }
    output := "";
    var lastIndex, index := 0, 0;
    ghost var whole := HighlightCode(code, language);
    SpansValid(code, 0, 0);
    while index < |code|
      invariant lastIndex <= index <= |code|
      invariant ValidSpans(Spans(code, index), lastIndex, |code|)
      invariant whole == output + RenderSpans(code, Spans(code, index), lastIndex, Classifier(normalized))
    {
      var end := MatchEnd(code, index);
      if end > 0 {
        assert Spans(code, index)[1..] == Spans(code, end);
        var token := code[index..end];
        var gap := code[lastIndex..index];
        output := output + EscapeHtml(gap) + RenderToken(token, Classifier(normalized));
        lastIndex, index := end, end;
      } else {
        index := index + 1;
      }
    }
    output := output + EscapeHtml(code[lastIndex..]);
  }

  // --- Nothing but tags is added -------------------------------------------------------------------

  /** Removes everything from a `<` to the next `>`. */
  function StripTags(s: string): string
    decreases |s|
  {
    if s == [] then ""
    else if s[0] == '<' then
      var n := Run(c => c != '>', s);
      if n < |s| then StripTags(s[n + 1..]) else ""
    else [s[0]] + StripTags(s[1..])
  }

  lemma {:induction false} StripText(a: string, b: string)
    requires NoRaw(a)
    ensures StripTags(a + b) == a + StripTags(b)
  {
    if a == [] {
      assert a + b == b;
    } else {
      assert (a + b)[0] == a[0] && (a + b)[1..] == a[1..] + b;
      assert forall i | 0 <= i < |a| - 1 :: a[1..][i] == a[i + 1];
      StripText(a[1..], b);
      assert a == [a[0]] + a[1..];
    }
  }

  lemma StripPlain(a: string)
    requires NoRaw(a)
    ensures StripTags(a) == a
  {
    StripText(a, "");
    assert a + "" == a;
  }

  lemma {:induction false} RunToEnd(a: string, b: string)
    requires '>' !in a && b != "" && b[0] == '>'
    ensures Run(c => c != '>', a + b) == |a|
  {
    if a == [] {
      assert a + b == b;
    } else {
      assert (a + b)[0] == a[0] && (a + b)[1..] == a[1..] + b;
      RunToEnd(a[1..], b);
    }
  }

  lemma StripTag(name: string, b: string)
    requires '>' !in name
    ensures StripTags(['<'] + name + ['>'] + b) == StripTags(b)
  {
    var s := ['<'] + name + ['>'] + b;
    assert s == (['<'] + name) + (['>'] + b);
    RunToEnd(['<'] + name, ['>'] + b);
    assert s[|name| + 2..] == b;
  }

  predicate IsKind(kind: string) { kind in ["comment", "string", "number", "keyword"] }

  ghost predicate GoodClassifier(classify: string -> Option<string>) {
    forall token :: classify(token).Some? ==> IsKind(classify(token).value)
  }

  lemma KindChars(kind: string)
    requires IsKind(kind)
    ensures '>' !in kind
  {
    if kind == "comment" { assert '>' !in kind; }
    else if kind == "string" { assert '>' !in kind; }
    else if kind == "number" { assert '>' !in kind; }
    else { assert '>' !in kind; }
  }

  lemma SpanName(kind: string, before: string, name: string)
    requires '>' !in kind
    requires before == "span class=\"code-token-" && name == before + kind + ['"']
    ensures '>' !in name
  {
    assert '>' !in before;
  }

  lemma SpanOpening(kind: string, before: string, name: string)
    requires before == "span class=\"code-token-" && name == before + kind + ['"']
    ensures SpanOpenText(kind) == ['<'] + name + ['>']
  {
    assert "<span class=\"code-token-" == ['<'] + before;
  }

  lemma StripToken(token: string, classify: string -> Option<string>, b: string)
    requires GoodClassifier(classify)
    ensures StripTags(RenderToken(token, classify) + b) == EscapeHtml(token) + StripTags(b)
  {
    hide EscapeHtml, StripTags;
    EscapeLeavesNoRaw(token);
    var text := EscapeHtml(token);
    match classify(token)
    case None =>
      StripText(text, b);
    case Some(kind) =>
      var before := "span class=\"code-token-";
      var name := before + kind + ['"'];
      KindChars(kind);
      SpanName(kind, before, name);
      SpanOpening(kind, before, name);
      var close := ['/', 's', 'p', 'a', 'n'];
      CloseSpan(close);
      hide SpanOpenText, CloseText;
      assert RenderToken(token, classify) + b
          == ['<'] + name + ['>'] + (text + (['<'] + close + ['>'] + b));
      StripTag(name, text + (['<'] + close + ['>'] + b));
      StripText(text, ['<'] + close + ['>'] + b);
      StripTag(close, b);
  }

  lemma CloseSpan(close: string)
    requires close == ['/', 's', 'p', 'a', 'n']
    ensures CloseText(Span) == ['<'] + close + ['>'] && '>' !in close
  {
  }

  lemma LanguagesClassify(language: string)
    ensures GoodClassifier(Classifier(language))
  {
    hide Keywords, HasKeywords;
  }

  /** For any ordered, disjoint, non-empty spans: without the tags, the output is the escaped code. */
  lemma {:induction false} SpansPreserveText(code: string, spans: seq<Match>, last: nat, classify: string -> Option<string>)
    requires ValidSpans(spans, last, |code|) && GoodClassifier(classify)
    ensures StripTags(RenderSpans(code, spans, last, classify)) == EscapeHtml(code[last..])
  {
    hide EscapeHtml, RenderToken, GoodClassifier, StripTags;
    if spans == [] {
      EscapeLeavesNoRaw(code[last..]);
      StripPlain(EscapeHtml(code[last..]));
    } else {
      var gap, token := code[last..spans[0].start], code[spans[0].start..spans[0].end];
      var rest := RenderSpans(code, spans[1..], spans[0].end, classify);
      SpansPreserveText(code, spans[1..], spans[0].end, classify);
      EscapeLeavesNoRaw(gap);
      StripToken(token, classify, rest);
      StripText(EscapeHtml(gap), RenderToken(token, classify) + rest);
      assert EscapeHtml(gap) + RenderToken(token, classify) + rest
          == EscapeHtml(gap) + (RenderToken(token, classify) + rest);
      EscapeConcat(token, code[spans[0].end..]);
      EscapeConcat(gap, token + code[spans[0].end..]);
      assert code[last..] == gap + (token + code[spans[0].end..]);
    }
  }

  /** Highlighting preserves text, and the code can be read back from what is shown. */
  lemma HighlightPreservesText(code: string, language: string)
    ensures StripTags(HighlightCode(code, language)) == EscapeHtml(code)
    ensures Decode(StripTags(HighlightCode(code, language))) == code
  {
    hide IsHighlighted, NormalizeLanguage, EscapeHtml, Spans, GoodClassifier, Classifier, RenderSpans, StripTags;
    DecodeEscape(code);
    if IsHighlighted(NormalizeLanguage(language)) {
      SpansValid(code, 0, 0);
      LanguagesClassify(NormalizeLanguage(language));
      SpansPreserveText(code, Spans(code, 0), 0, Classifier(NormalizeLanguage(language)));
      assert code[0..] == code;
    } else {
      EscapeLeavesNoRaw(code);
      StripPlain(EscapeHtml(code));
    }
  }

  lemma TokenWellFormed(token: string, classify: string -> Option<string>)
    requires GoodClassifier(classify)
    ensures WellFormed(RenderToken(token, classify))
  {
    WellFormedEscaped(token);
    hide EscapeHtml, WellFormed;
    if classify(token).Some? {
      WellFormedElement(SpanOpen(classify(token).value), EscapeHtml(token), Span);
    }
  }

  lemma {:induction false} SpansWellFormed(code: string, spans: seq<Match>, last: nat, classify: string -> Option<string>)
    requires ValidSpans(spans, last, |code|) && GoodClassifier(classify)
    ensures WellFormed(RenderSpans(code, spans, last, classify))
  {
    hide EscapeHtml, RenderToken, WellFormed, GoodClassifier;
    if spans == [] {
      WellFormedEscaped(code[last..]);
    } else {
      var gap, token := code[last..spans[0].start], code[spans[0].start..spans[0].end];
      WellFormedEscaped(gap);
      TokenWellFormed(token, classify);
      SpansWellFormed(code, spans[1..], spans[0].end, classify);
      WellFormedConcat(EscapeHtml(gap), RenderToken(token, classify));
      WellFormedConcat(EscapeHtml(gap) + RenderToken(token, classify),
                       RenderSpans(code, spans[1..], spans[0].end, classify));
    }
  }

  lemma HighlightWellFormed(code: string, language: string)
    ensures WellFormed(HighlightCode(code, language))
  {
    hide IsHighlighted, NormalizeLanguage, EscapeHtml, WellFormed, Spans, GoodClassifier, Classifier, RenderSpans;
    if IsHighlighted(NormalizeLanguage(language)) {
      SpansValid(code, 0, 0);
      LanguagesClassify(NormalizeLanguage(language));
      SpansWellFormed(code, Spans(code, 0), 0, Classifier(NormalizeLanguage(language)));
    } else {
      WellFormedEscaped(code);
    }
  }
}
