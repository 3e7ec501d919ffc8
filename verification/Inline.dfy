/** Inline Markdown (`renderInline`): code spans and links are protected behind numbered placeholders,
    the rest is escaped and rewritten by seven whole-string passes, and the placeholders are restored. */
module Inline {
  import opened Text
  import opened Address
  import opened Escaping
  import opened Html

  /** `[^mark\n]*` at the front of `s`. */
  function BodyLength(s: string, mark: char): (n: nat)
    ensures n <= |s|
    ensures forall i | 0 <= i < n :: s[i] != mark && s[i] != '\n'
    ensures n < |s| ==> s[n] == mark || s[n] == '\n'
  {
    if s == [] || s[0] == mark || s[0] == '\n' then 0 else 1 + BodyLength(s[1..], mark)
  }

  /** The value being rewritten and the HTML set aside so far. */
  datatype Protected = Protected(value: string, tokens: seq<string>)

  // --- `([^`\n]+)` ------------------------------------------------------------------------------

  /** Length of a code span at the front of `s`, 0 if there is none. */
  function CodeSpanLength(s: string): (n: nat)
    ensures n == 0 || (3 <= n <= |s| && s[0] == '`' && s[n - 1] == '`')
  {
    if s == [] || s[0] != '`' then 0
    else
      var n := BodyLength(s[1..], '`');
      if n > 0 && n + 1 < |s| && s[n + 1] == '`' then n + 2 else 0
  }

  function CodeToken(span: string): string
    requires |span| >= 3
  {
    OpenText(Code) + EscapeHtml(span[1..|span| - 1]) + CloseText(Code)
  }

  function ProtectCode(s: string, tokens: seq<string>): (r: Protected)
    decreases |s|
  {
    if s == [] then Protected("", tokens)
    else
      var n := CodeSpanLength(s);
      if n > 0 then
        var r := ProtectCode(s[n..], tokens + [CodeToken(s[..n])]);
        Protected(Placeholder(|tokens|) + r.value, r.tokens)
      else
        var r := ProtectCode(s[1..], tokens);
        Protected([s[0]] + r.value, r.tokens)
  }

  // --- \[([^\]\n]+)\]\((\S+?)(?:\s+["'][^)]*["'])?\) -----------------------------------------------

  predicate IsQuote(c: char) { c == '"' || c == '\'' }

  /** `\s+["'][^)]*["']\)` at position `p`: the position after it, or 0. */
  function TitleEnd(s: string, p: nat): (e: nat)
    requires p <= |s|
    ensures e == 0 || p < e <= |s|
  {
    var q := p + Run(IsSpace, s[p..]);
    if p < q < |s| && IsQuote(s[q]) then
      var r := q + 1 + Run(c => c != ')', s[q + 1..]);
      if r < |s| && q + 1 < r && IsQuote(s[r - 1]) then r + 1 else 0
    else 0
  }

  /** The lazy `\S+?`: the first place at or after `p` where the rest of the pattern matches.
      Returns the end of the URL and the end of the match. */
  function UrlEnd(s: string, p: nat): (r: Option<(nat, nat)>)
    requires p <= |s|
    ensures r.Some? ==> p <= r.value.0 < r.value.1 <= |s|
    decreases |s| - p
  {
    var title := TitleEnd(s, p);
    if title > 0 then Some((p, title))
    else if p < |s| && s[p] == ')' then Some((p, p + 1))
    else if p < |s| && !IsSpace(s[p]) then UrlEnd(s, p + 1)
    else None
  }

  datatype Link = Link(length: nat, text: string, url: string)

  /** `\[([^\]\n]+)\]\(\S` at the front of `s`: the length of the label, 0 if it does not match. */
  function LabelLength(s: string): (n: nat)
    ensures n > 0 ==> n + 3 < |s| && s[0] == '[' && s[n + 1] == ']' && s[n + 2] == '(' && ']' !in s[1..n + 1]
  {
    if s == [] || s[0] != '[' then 0
    else
      var n := BodyLength(s[1..], ']');
      if n > 0 && n + 3 < |s| && s[n + 1] == ']' && s[n + 2] == '(' && !IsSpace(s[n + 3]) then n else 0
  }

  function LinkAt(s: string): (r: Option<Link>)
    ensures r.Some? ==> 3 + |r.value.text| + |r.value.url| < r.value.length <= |s|
    ensures r.Some? ==> 0 < |r.value.text| < r.value.length && r.value.text == s[1..1 + |r.value.text|]
    ensures r.Some? ==> ']' !in r.value.text
  {
    var n := LabelLength(s);
    if n == 0 then None
    else
      match UrlEnd(s, n + 4)
      case None => None
      case Some((u, e)) => Some(Link(e, s[1..n + 1], s[n + 3..u]))
  }

  /** The anchor set aside for a safe link; labels are rendered recursively, two levels deep. */
  function LinkToken(link: Link, depth: nat): string
    requires SafeUrl(link.url).Some?
    decreases if depth <= 2 then 3 - depth else 0, 0, 0
  {
    var content := if depth < 2 then RenderInline(link.text, depth + 1) else EscapeHtml(link.text);
    LinkOpenText(EscapeAttribute(SafeUrl(link.url).value)) + content + CloseText(Anchor)
  }

  function ProtectLinks(s: string, tokens: seq<string>, depth: nat): (r: Protected)
    decreases if depth <= 2 then 3 - depth else 0, 0, |s|
  {
    if s == [] then Protected("", tokens)
    else
      match LinkAt(s)
      case None =>
        var r := ProtectLinks(s[1..], tokens, depth);
        Protected([s[0]] + r.value, r.tokens)
      case Some(link) =>
        match SafeUrl(link.url)
        case None =>
          var r := ProtectLinks(s[link.length..], tokens, depth);
          Protected("[" + link.text + "](" + link.url + ")" + r.value, r.tokens)
        case Some(target) =>
          var r := ProtectLinks(s[link.length..], tokens + [LinkToken(link, depth)], depth);
          Protected(Placeholder(|tokens|) + r.value, r.tokens)
  }

  // --- The passes over the escaped value -----------------------------------------------------------

  /** Length of `mark mark [^mark\n]+ mark mark` at the front of `s`, 0 if it does not match. */
  function DoubledLength(s: string, mark: char): (n: nat)
    ensures n == 0 || (5 <= n <= |s| && s[0] == s[1] == s[n - 2] == s[n - 1] == mark)
  {
    if |s| < 2 || s[0] != mark || s[1] != mark then 0
    else
      var n := BodyLength(s[2..], mark);
      if n > 0 && n + 3 < |s| && s[n + 2] == mark && s[n + 3] == mark then n + 4 else 0
  }

  /** `value.replace(/mm([^m\n]+)mm/g, "<tag>$1</tag>")`. */
  function Doubled(s: string, mark: char, tag: Tag): string
    decreases |s|
  {
    if s == [] then ""
    else
      var n := DoubledLength(s, mark);
      if n > 0 then OpenText(tag) + s[2..n - 2] + CloseText(tag) + Doubled(s[n..], mark, tag)
      else [s[0]] + Doubled(s[1..], mark, tag)
  }

  function SingleLength(s: string, mark: char): (n: nat)
    ensures n == 0 || (3 <= n <= |s| && s[0] == s[n - 1] == mark)
  {
    if s == [] || s[0] != mark then 0
    else
      var n := BodyLength(s[1..], mark);
      if n > 0 && n + 1 < |s| && s[n + 1] == mark then n + 2 else 0
  }

  /** `value.replace(/(^|[^m])m([^m\n]+)m/g, "$1<tag>$2</tag>")`. `free` says that the mark at the front
      may open: it is at the very start, or its left neighbour is no mark and belongs to no earlier match. */
  function Single(s: string, mark: char, tag: Tag, free: bool): string
    decreases |s|
  {
    if s == [] then ""
    else
      var n := SingleLength(s, mark);
      if free && n > 0 then OpenText(tag) + s[1..n - 1] + CloseText(tag) + Single(s[n..], mark, tag, false)
      else [s[0]] + Single(s[1..], mark, tag, s[0] != mark)
  }

  /** `value.replace(/ {2}\n/g, "<br>")`. */
  function HardBreaks(s: string): string
    decreases |s|
  {
    if s == [] then ""
    else if |s| >= 3 && s[0] == ' ' && s[1] == ' ' && s[2] == '\n' then Print(Br) + HardBreaks(s[3..])
    else [s[0]] + HardBreaks(s[1..])
  }

  function Emphasize(s: string): string {
    var strong := Doubled(Doubled(s, '*', Strong), '_', Strong);
    var deleted := Doubled(strong, '~', Del);
    var em := Single(Single(deleted, '*', Em, true), '_', Em, true);
    Replace(HardBreaks(em), '\n', " ")
  }

  // --- Restoring -----------------------------------------------------------------------------------

  /** Length of a placeholder at the front of `s`, 0 if there is none. */
  function PlaceholderLength(s: string): (n: nat)
    ensures n == 0 || |TOKEN_PREFIX| + 2 <= n <= |s|
  {
    var k := |TOKEN_PREFIX|;
    if TOKEN_PREFIX <= s then
      var d := Run(IsDigit, s[k..]);
      if d > 0 && k + d < |s| && s[k + d..k + d + 1] == TOKEN_SUFFIX then k + d + 1 else 0
    else 0
  }

  function Value(digits: string): nat {
    if digits == [] then 0
    else
      var last := digits[|digits| - 1];
      10 * Value(digits[..|digits| - 1]) + if IsDigit(last) then (last - '0') as int else 0
  }

  /** `tokens[index]` for a string `index`: only canonical decimals name an element, and a missing
      element is inserted as the word "undefined". */
  function Lookup(digits: string, tokens: seq<string>): string {
    var i := Value(digits);
    if i < |tokens| && Decimal(i) == digits then tokens[i] else "undefined"
  }

  function Restore(s: string, tokens: seq<string>): string
    decreases |s|
  {
    if s == [] then ""
    else
      var n := PlaceholderLength(s);
      if n > 0 then Lookup(s[|TOKEN_PREFIX|..n - 1], tokens) + Restore(s[n..], tokens)
      else [s[0]] + Restore(s[1..], tokens)
  }

  function Protect(source: string, depth: nat): Protected
    decreases if depth <= 2 then 3 - depth else 0, 1, |source|
  {
    var code := ProtectCode(source, []);
    ProtectLinks(code.value, code.tokens, depth)
  }

  function RenderInline(source: string, depth: nat): string
    decreases if depth <= 2 then 3 - depth else 0, 2, |source|
  {
    if source == "" then ""
    else
      var p := Protect(source, depth);
      Restore(Emphasize(EscapeHtml(p.value)), p.tokens)
  }
}
