/** The vocabulary of the renderer's output, and what it means for HTML to be well paired. */
module Html {
  import opened Address
  import opened Escaping

  datatype Tag =
    | P | H1 | H2 | H3 | Ul | Ol | Li | Blockquote
    | Strong | Del | Em | Code | Pre | Span | Anchor

  /** One unit of output: a character of text, an entity, or one of the renderer's own tags.
      `Hole(i)` is the placeholder of protected token `i`; finished output has none. */
  datatype Piece =
    | Lit(c: char)
    | Ent(c: char)
    | Open(tag: Tag)
    | PreOpen(language: string)
    | SpanOpen(kind: string)
    | LinkOpen(href: string)
    | Close(tag: Tag)
    | Br
    | Rule
    | Hole(index: nat)

  function Name(t: Tag): string {
    match t
    case P => "p" case H1 => "h1" case H2 => "h2" case H3 => "h3"
    case Ul => "ul" case Ol => "ol" case Li => "li" case Blockquote => "blockquote"
    case Strong => "strong" case Del => "del" case Em => "em"
    case Code => "code" case Pre => "pre" case Span => "span" case Anchor => "a"
  }

  function OpenText(t: Tag): string { "<" + Name(t) + ">" }

  function CloseText(t: Tag): string { "</" + Name(t) + ">" }

  function PreOpenText(language: string): string {
    "<pre class=\"markdown-code\"" + (if language == "" then "" else " data-language=\"" + language + "\"") + ">"
  }

  function SpanOpenText(kind: string): string { "<span class=\"code-token-" + kind + "\">" }

  function LinkOpenText(href: string): string {
    "<a href=\"" + href + "\" target=\"_blank\" rel=\"noopener noreferrer\">"
  }

  /** `n` in decimal, as a template literal prints it. */
  function Decimal(n: nat): string {
    if n < 10 then [Digit(n)] else Decimal(n / 10) + [Digit(n % 10)]
  }

  function Digit(d: nat): char requires d < 10 { '0' + d as char }

  const TOKEN_PREFIX := "\U{E000}PIPERTOKEN"
  const TOKEN_SUFFIX := "\U{E001}"

  function Placeholder(i: nat): string { TOKEN_PREFIX + Decimal(i) + TOKEN_SUFFIX }

  function Print(p: Piece): string {
    match p
    case Lit(c) => [c]
    case Ent(c) => Entity(c)
    case Open(t) => OpenText(t)
    case PreOpen(language) => PreOpenText(language)
    case SpanOpen(kind) => SpanOpenText(kind)
    case LinkOpen(href) => LinkOpenText(href)
    case Close(t) => CloseText(t)
    case Br => "<br>"
    case Rule => "<hr>"
    case Hole(i) => Placeholder(i)
  }

  function Flatten(ps: seq<Piece>): string {
    if ps == [] then "" else Print(ps[0]) + Flatten(ps[1..])
  }

  // What the tags are.

  lemma EmphasisTags()
    ensures OpenText(Strong) == "<strong>" && CloseText(Strong) == "</strong>"
    ensures OpenText(Del) == "<del>" && CloseText(Del) == "</del>"
    ensures OpenText(Em) == "<em>" && CloseText(Em) == "</em>"
  {
  }

  lemma BreakTag()
    ensures Print(Br) == "<br>"
  {
  }

  lemma CodeTag()
    ensures OpenText(Code) == "<code>" && CloseText(Code) == "</code>"
  {
  }

  lemma AnchorTags(href: string)
    ensures LinkOpenText(href) == "<a href=\"" + href + "\" target=\"_blank\" rel=\"noopener noreferrer\">"
    ensures CloseText(Anchor) == "</a>"
  {
  }

  predicate IsEscaped(c: char) { c == '&' || IsRaw(c) }

  /** Text that may stand between the quotes of an attribute. */
  predicate AttributeText(s: string) { NoRaw(s) }

  /** An attribute text that stands for an allowed address. */
  ghost predicate SafeHref(href: string) {
    AttributeText(href) && exists url :: Allowed(url) && href == EscapeAttribute(url)
  }

  /** The pieces finished output may consist of. */
  ghost predicate Legal(p: Piece) {
    match p
    case Lit(c) => !IsEscaped(c)
    case Ent(c) => IsEscaped(c)
    case Open(t) => t != Pre && t != Span && t != Anchor
    case PreOpen(language) => AttributeText(language)
    case SpanOpen(kind) => kind in ["comment", "string", "number", "keyword"]
    case LinkOpen(href) => SafeHref(href)
    case Hole(_) => false
    case _ => true
  }

  ghost predicate AllLegal(ps: seq<Piece>) { forall i | 0 <= i < |ps| :: Legal(ps[i]) }

  /** How a piece changes the number of open `t` elements. */
  function Delta(p: Piece, t: Tag): int {
    match p
    case Open(u) => if u == t then 1 else 0
    case PreOpen(_) => if t == Pre then 1 else 0
    case SpanOpen(_) => if t == Span then 1 else 0
    case LinkOpen(_) => if t == Anchor then 1 else 0
    case Close(u) => if u == t then -1 else 0
    case _ => 0
  }

  /** Opening minus closing tags of one kind. */
  function Depth(ps: seq<Piece>, t: Tag): int {
    if ps == [] then 0 else Delta(ps[0], t) + Depth(ps[1..], t)
  }

  function Min(a: int, b: int): int { if a < b then a else b }

  /** The lowest depth any prefix reaches; 0 means that no closing tag comes before its opening tag. */
  function Low(ps: seq<Piece>, t: Tag): (n: int)
    ensures n <= 0
  {
    if ps == [] then 0 else Min(0, Delta(ps[0], t) + Low(ps[1..], t))
  }

  /** Each kind of tag, looked at on its own, is a balanced sequence of parentheses. */
  ghost predicate Paired(ps: seq<Piece>) {
    forall t: Tag :: Depth(ps, t) == 0 && Low(ps, t) == 0
  }

  ghost predicate Reads(ps: seq<Piece>, s: string) { AllLegal(ps) && Paired(ps) && Flatten(ps) == s }

  /** `s` is a word over escaped text and the renderer's tags, with every kind of tag paired. */
  ghost predicate WellFormed(s: string) { exists ps :: Reads(ps, s) }

  lemma {:induction false} FlattenConcat(a: seq<Piece>, b: seq<Piece>)
    ensures Flatten(a + b) == Flatten(a) + Flatten(b)
  {
    hide Print;
    if a == [] {
      assert a + b == b;
    } else {
      assert (a + b)[1..] == a[1..] + b;
      FlattenConcat(a[1..], b);
    }
  }

  lemma {:induction false} DepthConcat(a: seq<Piece>, b: seq<Piece>, t: Tag)
    ensures Depth(a + b, t) == Depth(a, t) + Depth(b, t)
    ensures Low(a + b, t) == Min(Low(a, t), Depth(a, t) + Low(b, t))
  {
    if a == [] {
      assert a + b == b;
    } else {
      assert (a + b)[1..] == a[1..] + b;
      DepthConcat(a[1..], b, t);
    }
  }

  lemma FlattenOne(p: Piece)
    ensures Flatten([p]) == Print(p)
  {
    assert [p][1..] == [];
    assert Flatten([p]) == Print(p) + Flatten([]);
  }

  lemma LegalConcat(a: seq<Piece>, b: seq<Piece>)
    requires AllLegal(a) && AllLegal(b)
    ensures AllLegal(a + b)
  {
    hide Legal;
  }

  lemma ReadsConcat(ps: seq<Piece>, a: string, qs: seq<Piece>, b: string)
    requires Reads(ps, a) && Reads(qs, b)
    ensures Reads(ps + qs, a + b)
  {
    hide Flatten, Depth, Low, AllLegal;
    LegalConcat(ps, qs);
    FlattenConcat(ps, qs);
    forall t: Tag ensures Depth(ps + qs, t) == 0 && Low(ps + qs, t) == 0 {
      DepthConcat(ps, qs, t);
    }
  }

  lemma WellFormedConcat(a: string, b: string)
    requires WellFormed(a) && WellFormed(b)
    ensures WellFormed(a + b)
  {
    hide Reads;
    var ps :| Reads(ps, a);
    var qs :| Reads(qs, b);
    ReadsConcat(ps, a, qs, b);
  }

  lemma WellFormedEmpty()
    ensures WellFormed("")
  {
    assert Reads([], "");
  }

  lemma LegalOne(p: Piece)
    requires Legal(p)
    ensures AllLegal([p])
  {
    hide Legal;
  }

  lemma DepthOne(p: Piece, t: Tag)
    ensures Depth([p], t) == Delta(p, t)
    ensures Low([p], t) == Min(0, Delta(p, t))
  {
    hide Delta;
    assert [p][1..] == [];
    assert Depth([p], t) == Delta(p, t) + Depth([], t);
    assert Low([p], t) == Min(0, Delta(p, t) + Low([], t));
  }

  lemma WellFormedVoid(p: Piece)
    requires Legal(p) && forall t: Tag :: Delta(p, t) == 0
    ensures WellFormed(Print(p))
  {
    hide Print, Flatten, Depth, Low, Delta, AllLegal;
    FlattenOne(p);
    LegalOne(p);
    forall t: Tag ensures Depth([p], t) == 0 && Low([p], t) == 0 { DepthOne(p, t); }
    assert Reads([p], Print(p));
  }

  lemma OpenPaired(open: Piece, ps: seq<Piece>, t: Tag)
    requires Delta(open, t) >= 0 && Depth(ps, t) == 0 && Low(ps, t) == 0
    ensures Depth([open] + ps, t) == Delta(open, t) && Low([open] + ps, t) == 0
  {
    hide Delta;
    assert ([open] + ps)[1..] == ps;
  }

  lemma ClosePaired(front: seq<Piece>, tag: Tag, t: Tag)
    requires Depth(front, t) == (if t == tag then 1 else 0) && Low(front, t) == 0
    ensures Depth(front + [Close(tag)], t) == 0 && Low(front + [Close(tag)], t) == 0
  {
    DepthConcat(front, [Close(tag)], t);
    DepthOne(Close(tag), t);
  }

  lemma ElementPaired(open: Piece, ps: seq<Piece>, tag: Tag, t: Tag)
    requires Delta(open, t) == (if t == tag then 1 else 0) && Depth(ps, t) == 0 && Low(ps, t) == 0
    ensures Depth([open] + ps + [Close(tag)], t) == 0 && Low([open] + ps + [Close(tag)], t) == 0
  {
    hide Depth, Low, Delta;
    OpenPaired(open, ps, t);
    ClosePaired([open] + ps, tag, t);
  }

  lemma ElementFlatten(open: Piece, ps: seq<Piece>, tag: Tag)
    ensures Flatten([open] + ps + [Close(tag)]) == Print(open) + Flatten(ps) + CloseText(tag)
  {
    assert Print(Close(tag)) == CloseText(tag);
    hide Print, Flatten, CloseText;
    FlattenConcat([open] + ps, [Close(tag)]);
    FlattenConcat([open], ps);
    FlattenOne(open);
    FlattenOne(Close(tag));
  }

  lemma ElementLegal(open: Piece, ps: seq<Piece>, tag: Tag)
    requires Legal(open) && AllLegal(ps)
    ensures AllLegal([open] + ps + [Close(tag)])
  {
    assert Legal(Close(tag));
    hide Legal, AllLegal;
    LegalOne(open);
    LegalOne(Close(tag));
    LegalConcat([open], ps);
    LegalConcat([open] + ps, [Close(tag)]);
  }

  /** An element around well-formed content. */
  lemma WellFormedElement(open: Piece, content: string, tag: Tag)
    requires Legal(open) && forall t: Tag :: Delta(open, t) == (if t == tag then 1 else 0)
    requires WellFormed(content)
    ensures WellFormed(Print(open) + content + CloseText(tag))
  {
    hide Print, Flatten, Depth, Low, Delta, Legal, AllLegal, CloseText;
    var ps :| Reads(ps, content);
    var all := [open] + ps + [Close(tag)];
    ElementFlatten(open, ps, tag);
    ElementLegal(open, ps, tag);
    forall t: Tag ensures Depth(all, t) == 0 && Low(all, t) == 0 { ElementPaired(open, ps, tag, t); }
    assert Reads(all, Print(open) + content + CloseText(tag));
  }

  function EscapedPiece(c: char): Piece { if IsEscaped(c) then Ent(c) else Lit(c) }

  /** Escaped text as pieces. */
  function EscapedPieces(s: string): seq<Piece> {
    if s == [] then [] else [EscapedPiece(s[0])] + EscapedPieces(s[1..])
  }

  lemma EscapedPieceReads(c: char)
    ensures Legal(EscapedPiece(c)) && Print(EscapedPiece(c)) == Entity(c)
    ensures forall t: Tag :: Delta(EscapedPiece(c), t) == 0
  {
  }

  lemma ConsReads(p: Piece, ps: seq<Piece>, t: Tag)
    ensures Flatten([p] + ps) == Print(p) + Flatten(ps)
    ensures Depth([p] + ps, t) == Delta(p, t) + Depth(ps, t)
    ensures Low([p] + ps, t) == Min(0, Delta(p, t) + Low(ps, t))
  {
    hide Print, Delta;
    assert ([p] + ps)[1..] == ps;
  }

  lemma {:induction false} EscapedReads(s: string)
    ensures var ps := EscapedPieces(s);
      AllLegal(ps) && Flatten(ps) == EscapeEach(s) && forall t: Tag :: Depth(ps, t) == 0 && Low(ps, t) == 0
  {
    hide Entity, Print, Delta, Legal, EscapedPiece;
    if s != [] {
      var p, tail := EscapedPiece(s[0]), EscapedPieces(s[1..]);
      EscapedReads(s[1..]);
      EscapedPieceReads(s[0]);
      hide Flatten, Depth, Low, AllLegal;
      LegalOne(p);
      LegalConcat([p], tail);
      ConsReads(p, tail, P);
      forall t: Tag ensures Depth([p] + tail, t) == 0 && Low([p] + tail, t) == 0 { ConsReads(p, tail, t); }
    }
  }

  lemma WellFormedEscaped(s: string)
    ensures WellFormed(EscapeHtml(s))
  {
    hide EscapeHtml, EscapeEach, EscapedPieces, Flatten, Depth, Low, AllLegal;
    EscapeIsPointwise(s);
    EscapedReads(s);
    assert Reads(EscapedPieces(s), EscapeHtml(s));
  }
}
