/** Every anchor in rendered output leads to an allowed address, as a statement about the output's text. */
module Anchors {
  import opened Text
  import opened Address
  import opened Escaping
  import opened Html
  import opened Markdown

  const ANCHOR_START := "<a href=\""

  /** The anchor with this `href` begins at position `p`. */
  predicate AnchorAt(s: string, p: nat, href: string) {
    p <= |s| && '"' !in href && ANCHOR_START + href + ['"'] <= s[p..]
  }

  lemma NamesAreShort(t: Tag, name: string)
    requires name == Name(t)
    ensures name != "" && '<' !in name && (name[0] == 'a' ==> t == Anchor)
  {
  }

  lemma NoRawHasNoLess(s: string)
    requires NoRaw(s)
    ensures '<' !in s && '"' !in s
  {
  }

  /** No `<` but, possibly, the first character. */
  predicate OnlyFirst(s: string) { forall k | 0 < k < |s| :: s[k] != '<' }

  lemma LessInFront(head: string, middle: string, tail: string)
    requires head != "" && OnlyFirst(head) && '<' !in middle && '<' !in tail
    ensures OnlyFirst(head + middle + tail)
  {
  }

  /** A piece that begins with `<` is a tag, and has no other `<`; only an anchor's second character is an `a`. */
  ghost predicate TagLike(p: Piece, s: string) {
    s != "" && (s[0] == '<' ==> |s| >= 3 && (s[1] == 'a' ==> p.LinkOpen?))
  }

  lemma OpenIsTag(t: Tag, name: string)
    requires name == Name(t) && t != Anchor
    ensures TagLike(Open(t), OpenText(t)) && OnlyFirst(OpenText(t))
  {
    NamesAreShort(t, name);
    assert OpenText(t) == ['<'] + name + ['>'];
    LessInFront(['<'], name, ['>']);
  }

  lemma CloseIsTag(t: Tag, name: string)
    requires name == Name(t)
    ensures TagLike(Close(t), CloseText(t)) && OnlyFirst(CloseText(t))
  {
    NamesAreShort(t, name);
    assert CloseText(t) == ['<', '/'] + name + ['>'];
    LessInFront(['<', '/'], name, ['>']);
  }

  /** The beginning of a tag with attributes. */
  predicate TagHead(head: string) { |head| >= 3 && head[0] == '<' && head[1] != 'a' && OnlyFirst(head) }

  lemma PreHead(head: string, attribute: string)
    requires head == "<pre class=\"markdown-code\"" && attribute == " data-language=\""
    ensures TagHead(head) && '<' !in attribute
  {
    assert OnlyFirst(head) && head[1] == 'p';
    assert forall k | 0 <= k < |attribute| :: attribute[k] != '<';
  }

  lemma PrePrint(language: string, head: string, attribute: string)
    requires head == "<pre class=\"markdown-code\"" && attribute == " data-language=\""
    ensures PreOpenText(language) == head + (if language == "" then "" else attribute + language + ['"']) + ['>']
  {
  }

  lemma HeadIsTag(p: Piece, head: string, middle: string, tail: string, s: string)
    requires TagHead(head) && '<' !in middle && '<' !in tail && s == head + middle + tail
    ensures TagLike(p, s) && OnlyFirst(s)
  {
    LessInFront(head, middle, tail);
  }

  lemma PreIsTag(language: string, head: string, attribute: string)
    requires NoRaw(language) && head == "<pre class=\"markdown-code\"" && attribute == " data-language=\""
    ensures TagLike(PreOpen(language), PreOpenText(language))
    ensures OnlyFirst(PreOpenText(language))
  {
    hide TagHead, PreOpenText, TagLike, OnlyFirst;
    NoRawHasNoLess(language);
    PreHead(head, attribute);
    PrePrint(language, head, attribute);
    var middle := if language == "" then "" else attribute + language + ['"'];
    HeadIsTag(PreOpen(language), head, middle, ['>'], PreOpenText(language));
  }

  lemma SpanHead(kind: string, head: string)
    requires kind in ["comment", "string", "number", "keyword"] && head == "<span class=\"code-token-"
    ensures TagHead(head) && '<' !in kind && SpanOpenText(kind) == head + kind + ['"', '>']
  {
  }

  lemma SpanIsTag(kind: string, head: string)
    requires kind in ["comment", "string", "number", "keyword"] && head == "<span class=\"code-token-"
    ensures TagLike(SpanOpen(kind), SpanOpenText(kind))
    ensures OnlyFirst(SpanOpenText(kind))
  {
    hide TagHead, SpanOpenText, TagLike, OnlyFirst;
    SpanHead(kind, head);
    HeadIsTag(SpanOpen(kind), head, kind, ['"', '>'], SpanOpenText(kind));
  }

  lemma LinkIsTag(href: string, after: string)
    requires NoRaw(href) && after == "\" target=\"_blank\" rel=\"noopener noreferrer\">"
    ensures TagLike(LinkOpen(href), LinkOpenText(href))
    ensures LinkOpenText(href) == ANCHOR_START + href + after && after[0] == '"'
    ensures OnlyFirst(LinkOpenText(href))
  {
    NoRawHasNoLess(href);
    assert OnlyFirst(ANCHOR_START) && forall k | 0 <= k < |after| :: after[k] != '<';
    assert LinkOpenText(href) == ANCHOR_START + href + after;
    LessInFront(ANCHOR_START, href, after);
  }

  lemma EntityIsNoTag(c: char, s: string)
    requires IsEscaped(c) && s == Entity(c)
    ensures s != "" && s[0] == '&' && '<' !in s
  {
  }

  lemma PieceIsTag(p: Piece, s: string)
    requires Legal(p) && s == Print(p)
    ensures s != "" && TagLike(p, s) && OnlyFirst(s)
  {
    match p
    case Lit(c) =>
    case Ent(c) => EntityIsNoTag(c, s);
    case Open(t) => OpenIsTag(t, Name(t));
    case Close(t) => CloseIsTag(t, Name(t));
    case PreOpen(language) => PreIsTag(language, "<pre class=\"markdown-code\"", " data-language=\"");
    case SpanOpen(kind) => SpanIsTag(kind, "<span class=\"code-token-");
    case LinkOpen(href) => LinkIsTag(href, "\" target=\"_blank\" rel=\"noopener noreferrer\">");
    case Br =>
    case Rule =>
    case Hole(_) =>
  }

  /** Two texts without quotes that are followed by a quote at the same place. */
  lemma {:induction false} QuotedAlike(a: string, b: string, rest: string)
    requires '"' !in a && '"' !in b && rest != "" && rest[0] == '"' && b + ['"'] <= a + rest
    ensures a == b
    decreases |a|
  {
    var s, t := a + rest, b + ['"'];
    assert t[0] == s[0];
    assert b == "" || b[0] in b;
    assert a == "" || a[0] in a;
    if a != "" && b != "" {
      assert s[1..] == a[1..] + rest && t[1..] == b[1..] + ['"'];
      assert t[1..] == s[1..][..|t| - 1];
      QuotedAlike(a[1..], b[1..], rest);
      assert a == [a[0]] + a[1..] && b == [b[0]] + b[1..];
    }
  }

  lemma FirstAnchor(href: string, after: string, rest: string, other: string)
    requires NoRaw(href) && after != "" && after[0] == '"'
    requires '"' !in other && ANCHOR_START + other + ['"'] <= ANCHOR_START + href + after + rest
    ensures href == other
  {
    NoRawHasNoLess(href);
    var n := |ANCHOR_START|;
    var s, t := ANCHOR_START + href + after + rest, ANCHOR_START + other + ['"'];
    assert s[n..] == href + (after + rest) && t[n..] == other + ['"'];
    assert s[..|t|] == t;
    assert other + ['"'] == s[..|t|][n..] == s[n..|t|] == s[n..][..|t| - n];
    QuotedAlike(href, other, after + rest);
  }

  lemma {:induction false} AnchorIsPiece(ps: seq<Piece>, p: nat, href: string)
    requires AllLegal(ps) && AnchorAt(Flatten(ps), p, href)
    ensures SafeHref(href)
    decreases |ps|
  {
    StartIsLess();
    hide Print, SafeHref, ANCHOR_START;
    var s := Flatten(ps);
    var t := ANCHOR_START + href + ['"'];
    assert s[p..][0] == t[0] && s[p..][1] == t[1];
    assert s[p] == '<' && s[p + 1] == 'a';
    var first, rest := Print(ps[0]), Flatten(ps[1..]);
    PieceIsTag(ps[0], first);
    if p >= |first| {
      assert s[p..] == rest[p - |first|..];
      AnchorIsPiece(ps[1..], p - |first|, href);
    } else {
      assert p == 0 && first[0] == '<' && first[1] == 'a' && s[0..] == s;
      AnchorPieceIsSafe(ps[0], rest, href);
    }
  }

  lemma StartIsLess()
    ensures |ANCHOR_START| > 2 && ANCHOR_START[0] == '<' && ANCHOR_START[1] == 'a'
  {
  }

  lemma AnchorPieceIsSafe(p: Piece, rest: string, href: string)
    requires Legal(p) && p.LinkOpen? && '"' !in href && ANCHOR_START + href + ['"'] <= Print(p) + rest
    ensures SafeHref(href)
  {
    var after := "\" target=\"_blank\" rel=\"noopener noreferrer\">";
    LinkIsTag(p.href, after);
    hide ANCHOR_START, LinkOpenText;
    FirstAnchor(p.href, after, rest, href);
  }

  /** Wherever an anchor stands in the rendering of any text, its `href` is an allowed address, escaped. */
  lemma EveryAnchorIsSafe(markdown: string, p: nat, href: string)
    requires AnchorAt(RenderMarkdown(markdown), p, href)
    ensures SafeHref(href)
  {
    hide RenderMarkdown, Flatten, AllLegal, Paired, AnchorAt, SafeHref;
    OutputWellFormed(markdown);
    var ps :| Reads(ps, RenderMarkdown(markdown));
    AnchorIsPiece(ps, p, href);
  }
}
