/** Whether the private characters of a placeholder can be left in the output: the exact condition. */
module Remains {
  import opened Text
  import opened Address
  import opened Escaping
  import opened Html
  import opened Inline
  import opened InlinePieces
  import opened InlineOutput
  import opened Placeholders
  import opened InlineMeaning

  predicate Unmarked(s: string) { MARK !in s }

  predicate AllUnmarked(tokens: seq<string>) { forall i | 0 <= i < |tokens| :: Unmarked(tokens[i]) }

  // --- Escaping and trimming neither add nor remove the mark ---------------------------------------

  lemma UnmarkedConcat(a: string, b: string)
    ensures Unmarked(a + b) <==> Unmarked(a) && Unmarked(b)
  {
    if MARK in a {
      var i :| 0 <= i < |a| && a[i] == MARK;
      assert (a + b)[i] == MARK;
    }
    if MARK in b {
      var i :| 0 <= i < |b| && b[i] == MARK;
      assert (a + b)[|a| + i] == MARK;
    }
  }

  lemma UnmarkedAround(a: string, b: string, c: string)
    requires Unmarked(a) && Unmarked(c)
    ensures Unmarked(a + b + c) <==> Unmarked(b)
  {
    hide Unmarked;
    UnmarkedConcat(a + b, c);
    UnmarkedConcat(a, b);
  }

  lemma UnmarkedHead(s: string)
    requires s != ""
    ensures Unmarked(s) <==> s[0] != MARK && Unmarked(s[1..])
  {
    UnmarkedConcat([s[0]], s[1..]);
    assert s == [s[0]] + s[1..];
  }

  lemma EntityMarked(c: char, entity: string)
    requires entity == Entity(c)
    ensures Unmarked(entity) <==> c != MARK
  {
  }

  lemma {:induction false} EscapeMarked(s: string)
    ensures Unmarked(EscapeHtml(s)) <==> Unmarked(s)
  {
    EscapeIsPointwise(s);
    hide EscapeHtml, Entity, Unmarked;
    if s != [] {
      EscapeMarked(s[1..]);
      EscapeIsPointwise(s[1..]);
      EntityMarked(s[0], Entity(s[0]));
      UnmarkedConcat(Entity(s[0]), EscapeEach(s[1..]));
      UnmarkedHead(s);
    }
  }

  lemma {:induction false} ReplaceMarked(s: string, c: char, entity: string)
    requires c != MARK && Unmarked(entity)
    ensures Unmarked(Replace(s, c, entity)) <==> Unmarked(s)
  {
    if s != [] {
      ReplaceMarked(s[1..], c, entity);
      UnmarkedHead(s);
      UnmarkedConcat(if s[0] == c then entity else [s[0]], Replace(s[1..], c, entity));
    }
  }

  lemma AttributeMarked(s: string, entity: string)
    requires entity == "&#96;"
    ensures Unmarked(EscapeAttribute(s)) <==> Unmarked(s)
  {
    EscapeMarked(s);
    hide EscapeHtml;
    assert Unmarked(entity);
    ReplaceMarked(EscapeHtml(s), '`', entity);
  }

  lemma {:induction false} TrimEndMarked(s: string)
    ensures Unmarked(TrimEnd(s)) <==> Unmarked(s)
  {
    if s != [] && IsSpace(s[|s| - 1]) {
      TrimEndMarked(s[..|s| - 1]);
      UnmarkedConcat(s[..|s| - 1], [s[|s| - 1]]);
      assert s == s[..|s| - 1] + [s[|s| - 1]];
    }
  }

  lemma TrimMarked(s: string)
    ensures Unmarked(Trim(s)) <==> Unmarked(s)
  {
    var k := Run(IsSpace, s);
    assert Unmarked(s[..k]);
    UnmarkedConcat(s[..k], s[k..]);
    assert s == s[..k] + s[k..];
    TrimEndMarked(TrimStart(s));
  }

  // --- Code tokens ---------------------------------------------------------------------------------

  /** No code span has a placeholder inside it. */
  predicate CodeSpansClear(s: string)
    decreases |s|
  {
    if s == [] then true
    else
      var n := CodeSpanLength(s);
      if n > 0 then Unmarked(s[..n]) && CodeSpansClear(s[n..]) else CodeSpansClear(s[1..])
  }

  lemma TagUnmarked(t: Tag, name: string)
    requires t == Code || t == Anchor
    requires name == Name(t)
    ensures Unmarked(OpenText(t)) && Unmarked(CloseText(t))
  {
    assert Unmarked(name);
  }

  lemma CodeTokenMarked(span: string)
    requires |span| >= 3 && span[0] == '`' && span[|span| - 1] == '`'
    ensures Unmarked(CodeToken(span)) <==> Unmarked(span)
  {
    var body := span[1..|span| - 1];
    TagUnmarked(Code, Name(Code));
    EscapeMarked(body);
    assert span == ['`'] + body + ['`'];
    UnmarkedAround(['`'], body, ['`']);
    hide EscapeHtml, OpenText, CloseText;
    UnmarkedAround(OpenText(Code), EscapeHtml(body), CloseText(Code));
  }

  lemma AllUnmarkedSnoc(tokens: seq<string>, token: string)
    ensures AllUnmarked(tokens + [token]) <==> AllUnmarked(tokens) && Unmarked(token)
  {
    hide Unmarked;
    var more := tokens + [token];
    assert more[|tokens|] == token;
    if AllUnmarked(more) {
      forall i | 0 <= i < |tokens| ensures Unmarked(tokens[i]) { assert more[i] == tokens[i]; }
    }
  }

  lemma {:induction false} CodeTokensMarked(s: string, tokens: seq<string>)
    ensures AllUnmarked(ProtectCode(s, tokens).tokens) <==> AllUnmarked(tokens) && CodeSpansClear(s)
    decreases |s|
  {
    hide CodeToken, AllUnmarked, Unmarked;
    if s != [] {
      var n := CodeSpanLength(s);
      if n > 0 {
        CodeTokenMarked(s[..n]);
        AllUnmarkedSnoc(tokens, CodeToken(s[..n]));
        CodeTokensMarked(s[n..], tokens + [CodeToken(s[..n])]);
      } else {
        CodeTokensMarked(s[1..], tokens);
      }
    }
  }

  lemma {:induction false} UnmarkedSpansClear(s: string)
    requires Unmarked(s)
    ensures CodeSpansClear(s)
    decreases |s|
  {
    hide CodeSpanLength;
    if s != [] {
      var n := CodeSpanLength(s);
      UnmarkedSpansClear(if n > 0 then s[n..] else s[1..]);
    }
  }

  /** The first piece of a draft that begins with something else than the mark. */
  lemma FirstIsLit(ps: seq<Piece>)
    requires Drafted(ps) && Flatten(ps) != "" && Flatten(ps)[0] != MARK
    ensures ps != [] && ps[0] == Lit(Flatten(ps)[0]) && Flatten(ps[1..]) == Flatten(ps)[1..]
  {
    hide Print;
    DraftPrint(ps[0], Print(ps[0]));
  }

  lemma CodeSpanCut(ps: seq<Piece>, s: string, n: nat) returns (j: nat)
    requires Drafted(ps) && s == Flatten(ps) && n == CodeSpanLength(s) > 0
    ensures j < |ps| && Flatten(ps[j + 1..]) == s[n..]
  {
    hide Flatten, Drafted, CodeSpanLength;
    j := DraftCut(ps, n - 1);
  }

  lemma CodeSpanProtected(s: string, tokens: seq<string>)
    requires s != "" && CodeSpanLength(s) > 0
    ensures var n := CodeSpanLength(s);
      var r := ProtectCode(s[n..], tokens + [CodeToken(s[..n])]);
      ProtectCode(s, tokens) == Protected(Placeholder(|tokens|) + r.value, r.tokens)
  {
    hide CodeSpanLength, CodeToken, Placeholder;
  }

  lemma NoSpanProtected(p: Piece, rest: string, tokens: seq<string>)
    requires (p.Hole? || p.Lit?) && CodeSpanLength(Print(p) + rest) == 0
    ensures ProtectCode(Print(p) + rest, tokens)
         == Protected(Print(p) + ProtectCode(rest, tokens).value, ProtectCode(rest, tokens).tokens)
  {
    var s := Print(p) + rest;
    if p.Hole? {
      HoleChars(p.index, TOKEN_PREFIX, Print(p));
      hide ProtectCode;
      CodeSkips(Print(p), rest, tokens);
    } else {
      hide CodeSpanLength;
      LitPrint(p.c);
      assert s[0] == p.c && s[1..] == rest;
    }
  }

  ghost predicate CodeDrafted(s: string, tokens: seq<string>, qs: seq<Piece>) {
    var r := ProtectCode(s, tokens);
    && |tokens| <= |r.tokens|
    && Drafted(qs) && Flatten(qs) == r.value && HasAll(Marks(qs), |tokens|, |r.tokens|)
  }

  lemma PrependHole(s: string, tokens: seq<string>, tail: seq<Piece>)
    requires s != "" && CodeSpanLength(s) > 0
    requires CodeDrafted(s[CodeSpanLength(s)..], tokens + [CodeToken(s[..CodeSpanLength(s)])], tail)
    ensures CodeDrafted(s, tokens, [Hole(|tokens|)] + tail)
  {
    hide CodeSpanLength, CodeToken, Placeholder, HasAll, Marks, Flatten, ProtectCode;
    CodeSpanProtected(s, tokens);
    var n := |tokens|;
    HolePrint(n);
    HoleMark(n);
    KeepFlatten(Hole(n), tail);
    MarksConcat([Hole(n)], tail);
    HasAllNew(Marks(tail), n, |ProtectCode(s, tokens).tokens|);
  }

  lemma PrependPiece(p: Piece, rest: string, tokens: seq<string>, tail: seq<Piece>)
    requires (p.Hole? || (p.Lit? && p.c != MARK)) && CodeSpanLength(Print(p) + rest) == 0
    requires CodeDrafted(rest, tokens, tail)
    ensures CodeDrafted(Print(p) + rest, tokens, [p] + tail)
  {
    hide CodeSpanLength, HasAll, Marks, Flatten, ProtectCode, Print;
    NoSpanProtected(p, rest, tokens);
    KeepFlatten(p, tail);
    MarksConcat([p], tail);
    HasAllMore(Marks([p]), Marks(tail), |tokens|, |ProtectCode(rest, tokens).tokens|);
  }

  /** Code protection of a draft that already has placeholders: every new one is there. */
  lemma {:induction false} CodeDraftAgain(ps: seq<Piece>, s: string, tokens: seq<string>) returns (qs: seq<Piece>)
    requires Drafted(ps) && s == Flatten(ps)
    ensures CodeDrafted(s, tokens, qs)
    decreases |ps|
  {
    if ps == [] { return []; }
    hide CodeSpanLength, CodeToken, CodeDrafted, Flatten, Drafted, Print;
    FlattenFirst(ps);
    DraftedTail(ps);
    var n := CodeSpanLength(s);
    if n > 0 {
      var j := CodeSpanCut(ps, s, n);
      var tail := CodeDraftAgain(ps[j + 1..], s[n..], tokens + [CodeToken(s[..n])]);
      PrependHole(s, tokens, tail);
      qs := [Hole(|tokens|)] + tail;
    } else {
      DraftedHead(ps);
      var tail := CodeDraftAgain(ps[1..], Flatten(ps[1..]), tokens);
      PrependPiece(ps[0], Flatten(ps[1..]), tokens, tail);
      qs := [ps[0]] + tail;
    }
  }

  lemma DraftedHead(ps: seq<Piece>)
    requires Drafted(ps) && ps != []
    ensures ps[0].Hole? || (ps[0].Lit? && ps[0].c != MARK)
  {
  }

  // --- Restoring a draft ---------------------------------------------------------------------------

  /** The tokens whose placeholders are there have no mark in them; placeholders without a token do not count. */
  ghost predicate UsedUnmarked(marks: seq<int>, tokens: seq<string>) {
    forall m: nat | m in marks && m < |tokens| :: Unmarked(tokens[m])
  }

  predicate NoStray(ps: seq<Piece>) { forall i | 0 <= i < |ps| :: ps[i] != Lit(MARK) }

  lemma {:induction false} DraftMarksAreIndices(ps: seq<Piece>)
    requires Drafted(ps)
    ensures -1 !in Marks(ps)
  {
    if ps != [] { DraftMarksAreIndices(ps[1..]); }
  }

  lemma InConcat(m: int, a: seq<int>, b: seq<int>)
    ensures m in a + b <==> m in a || m in b
  {
    if m in a {
      var i :| 0 <= i < |a| && a[i] == m;
      assert (a + b)[i] == m;
    }
    if m in b {
      var i :| 0 <= i < |b| && b[i] == m;
      assert (a + b)[|a| + i] == m;
    }
  }

  lemma {:induction false} MarksShowStrays(ps: seq<Piece>)
    requires -1 !in Marks(ps)
    ensures NoStray(ps)
  {
    if ps != [] {
      InConcat(-1, MarkOf(ps[0]), Marks(ps[1..]));
      MarksShowStrays(ps[1..]);
    }
  }

  lemma LookupMarked(i: nat, tokens: seq<string>, missing: string)
    requires missing == "undefined"
    ensures Unmarked(Lookup(Decimal(i), tokens)) <==> (i < |tokens| ==> Unmarked(tokens[i]))
  {
    assert Unmarked(missing);
    ValueOfDecimal(i);
    hide Decimal, Unmarked;
  }

  lemma UsedUnmarkedHole(i: nat, marks: seq<int>, tokens: seq<string>)
    ensures UsedUnmarked([i as int] + marks, tokens)
       <==> (i < |tokens| ==> Unmarked(tokens[i])) && UsedUnmarked(marks, tokens)
  {
    hide Unmarked;
    var all := [i as int] + marks;
    assert all[0] == i as int;
    assert forall m: int :: m in all <==> m == i as int || m in marks;
  }

  /** Restoring an inert value leaves a mark exactly if a token that is inserted has one. */
  lemma {:induction false} RestoreMarked(ps: seq<Piece>, tokens: seq<string>)
    requires AllInert(ps) && NoStray(ps)
    ensures Unmarked(Restore(Flatten(ps), tokens)) <==> UsedUnmarked(Marks(ps), tokens)
  {
    if ps == [] {
    } else {
      var p, rest := ps[0], Flatten(ps[1..]);
      InertPrint(p, Print(p));
      FlattenFirst(ps);
      RestoreMarked(ps[1..], tokens);
      MarksHead(ps);
      hide Print, Restore, Flatten, Marks, UsedUnmarked, Unmarked, AllInert, Lookup, Decimal, Inert;
      if p.Hole? {
        HolePrint(p.index);
        RestorePlaceholder(p.index, rest, tokens);
        LookupMarked(p.index, tokens, "undefined");
        UnmarkedConcat(Lookup(Decimal(p.index), tokens), Restore(rest, tokens));
        UsedUnmarkedHole(p.index, Marks(ps[1..]), tokens);
      } else {
        PlainPieceUnmarked(p);
        RestoreSkips(Print(p), rest, tokens);
        UnmarkedConcat(Print(p), Restore(rest, tokens));
      }
    }
  }

  lemma MarksHead(ps: seq<Piece>)
    requires ps != []
    ensures ps[0].Hole? ==> Marks(ps) == [ps[0].index as int] + Marks(ps[1..])
    ensures !ps[0].Hole? && ps[0] != Lit(MARK) ==> Marks(ps) == Marks(ps[1..])
  {
  }

  lemma PlainPieceUnmarked(p: Piece)
    requires Inert(p) && !p.Hole? && p != Lit(MARK)
    ensures Unmarked(Print(p)) && '\U{E000}' !in Print(p)
  {
    InertPrint(p, Print(p));
    hide Print;
  }

  /** A draft on its way to the output. */
  lemma DraftRestored(ps: seq<Piece>, tokens: seq<string>)
    requires Drafted(ps)
    ensures Unmarked(Restore(Emphasize(EscapeHtml(Flatten(ps))), tokens)) <==> UsedUnmarked(Marks(ps), tokens)
  {
    hide Emphasize, EscapeHtml, Restore, Marks, Flatten, AllInert, Unmarked, UsedUnmarked;
    DraftMarksAreIndices(ps);
    var escaped := EscapeDraft(ps);
    var qs := EmphasizeRefines(escaped);
    MarksShowStrays(qs);
    RestoreMarked(qs, tokens);
  }

  // --- Labels --------------------------------------------------------------------------------------

  lemma {:induction false} CodeKeepsNoBracket(s: string, tokens: seq<string>)
    requires ']' !in s
    ensures ']' !in ProtectCode(s, tokens).value
    decreases |s|
  {
    hide Placeholder, CodeToken;
    if s != [] {
      var n := CodeSpanLength(s);
      if n > 0 {
        CodeKeepsNoBracket(s[n..], tokens + [CodeToken(s[..n])]);
        BracketFreePlaceholder(|tokens|);
      } else {
        CodeKeepsNoBracket(s[1..], tokens);
      }
    }
  }

  lemma NoBracketNoLink(s: string)
    requires ']' !in s
    ensures LinkAt(s) == None
  {
    if s != "" && s[0] == '[' {
      var n := BodyLength(s[1..], ']');
      assert n + 1 < |s| ==> s[n + 1] in s;
    }
  }

  /** Without a closing bracket there is no link: labels do not contain links. */
  lemma {:induction false} NoBracketNoLinks(s: string, tokens: seq<string>, depth: nat)
    requires ']' !in s
    ensures ProtectLinks(s, tokens, depth) == Protected(s, tokens)
    decreases |s|
  {
    hide LinkAt, ProtectLinks;
    if s == "" {
      NoLinksLeft(tokens, depth);
    } else {
      NoBracketNoLink(s);
      NoLinkStep(s, tokens, depth);
      NoBracketNoLinks(s[1..], tokens, depth);
      assert s == [s[0]] + s[1..];
    }
  }

  lemma AllUsed(marks: seq<int>, tokens: seq<string>, n: nat)
    requires HasAll(marks, n, |tokens|) && forall i | 0 <= i < n && i < |tokens| :: Unmarked(tokens[i])
    ensures UsedUnmarked(marks, tokens) <==> AllUnmarked(tokens)
  {
    hide Unmarked;
    if UsedUnmarked(marks, tokens) {
      forall i | 0 <= i < |tokens| ensures Unmarked(tokens[i]) { assert i >= n ==> i in marks; }
    }
  }

  /** Rendering a label: the placeholders it came with do not show, unless one is inside a code span of its own. */
  lemma LabelMarked(ps: seq<Piece>, text: string, depth: nat)
    requires Drafted(ps) && text == Flatten(ps) && ']' !in text
    ensures Unmarked(RenderInline(text, depth)) <==> CodeSpansClear(text)
  {
    hide RenderInline, Emphasize, EscapeHtml, Restore, Marks, Flatten, ProtectCode, ProtectLinks, UsedUnmarked, AllUnmarked,
         HasAll, Drafted, CodeSpansClear;
    RenderAsProtected(text, depth);
    if text == "" {
      NothingIsClear();
    } else {
      var code := ProtectCode(text, []);
      var qs := CodeDraftAgain(ps, text, []);
      CodeKeepsNoBracket(text, []);
      NoBracketNoLinks(code.value, code.tokens, depth);
      DraftRestored(qs, code.tokens);
      AllUsed(Marks(qs), code.tokens, 0);
      CodeTokensMarked(text, []);
      NoTokensUnmarked();
    }
  }

  lemma NoTokensUnmarked()
    ensures AllUnmarked([])
  {
  }

  lemma NothingIsClear()
    ensures CodeSpansClear("") && Unmarked("") && EscapeHtml("") == ""
  {
    EscapeIsPointwise("");
  }

  // --- Link tokens ---------------------------------------------------------------------------------

  /** No placeholder in the address, and none inside a code span of the label. */
  predicate Sealed(link: Link, depth: nat) {
    Unmarked(link.url) && if depth < 2 then CodeSpansClear(link.text) else Unmarked(link.text)
  }

  /** Every safe link match is sealed. */
  predicate LinksSealed(s: string, depth: nat)
    decreases |s|
  {
    if s == [] then true
    else
      match LinkAt(s)
      case None => LinksSealed(s[1..], depth)
      case Some(link) => (SafeUrl(link.url).Some? ==> Sealed(link, depth)) && LinksSealed(s[link.length..], depth)
  }

  lemma LinkOpenMarked(href: string, before: string, after: string)
    requires before == "<a href=\"" && after == "\" target=\"_blank\" rel=\"noopener noreferrer\">"
    ensures Unmarked(LinkOpenText(href)) <==> Unmarked(href)
  {
    assert Unmarked(before) && Unmarked(after);
    UnmarkedAround(before, href, after);
    assert LinkOpenText(href) == before + href + after;
  }

  lemma HrefMarked(url: string)
    requires SafeUrl(url).Some?
    ensures Unmarked(LinkOpenText(EscapeAttribute(SafeUrl(url).value))) <==> Unmarked(url)
  {
    SafeUrlIsAllowed(url);
    TrimMarked(url);
    hide SafeUrl, LinkOpenText, EscapeAttribute, Trim, Allowed, Unmarked;
    AttributeMarked(SafeUrl(url).value, "&#96;");
    LinkOpenMarked(EscapeAttribute(SafeUrl(url).value), "<a href=\"", "\" target=\"_blank\" rel=\"noopener noreferrer\">");
  }

  lemma ContentMarked(ps: seq<Piece>, link: Link, depth: nat)
    requires Drafted(ps) && link.text == Flatten(ps) && ']' !in link.text
    ensures Unmarked(if depth < 2 then RenderInline(link.text, depth + 1) else EscapeHtml(link.text))
       <==> if depth < 2 then CodeSpansClear(link.text) else Unmarked(link.text)
  {
    hide RenderInline, EscapeHtml, CodeSpansClear, Unmarked;
    LabelMarked(ps, link.text, depth + 1);
    EscapeMarked(link.text);
  }

  lemma LinkTokenMarked(ps: seq<Piece>, link: Link, depth: nat)
    requires SafeUrl(link.url).Some? && Drafted(ps) && link.text == Flatten(ps) && ']' !in link.text
    ensures Unmarked(LinkToken(link, depth)) <==> Sealed(link, depth)
  {
    hide RenderInline, EscapeAttribute, EscapeHtml, SafeUrl, LinkOpenText, CloseText, CodeSpansClear, Flatten;
    var content := if depth < 2 then RenderInline(link.text, depth + 1) else EscapeHtml(link.text);
    var open := LinkOpenText(EscapeAttribute(SafeUrl(link.url).value));
    HrefMarked(link.url);
    ContentMarked(ps, link, depth);
    TagUnmarked(Anchor, Name(Anchor));
    hide Unmarked;
    UnmarkedConcat(open + content, CloseText(Anchor));
    UnmarkedConcat(open, content);
  }

  lemma {:induction false} SealedSkips(a: string, b: string, depth: nat)
    requires '[' !in a
    ensures LinksSealed(a + b, depth) == LinksSealed(b, depth)
  {
    var s := a + b;
    if a == [] {
      assert s == b;
    } else {
      assert s[0] == a[0] && s[1..] == a[1..] + b;
      assert LinkAt(s) == None;
      SealedSkips(a[1..], b, depth);
    }
  }

  lemma SealedInFront(p: Piece, rest: string, depth: nat)
    requires (p.Hole? || p.Lit?) && LinkAt(Print(p) + rest) == None
    ensures LinksSealed(Print(p) + rest, depth) == LinksSealed(rest, depth)
  {
    var s := Print(p) + rest;
    if p.Hole? {
      HoleChars(p.index, TOKEN_PREFIX, Print(p));
      hide LinksSealed;
      SealedSkips(Print(p), rest, depth);
    } else {
      LitPrint(p.c);
      hide LinkAt;
      assert s[0] == p.c && s[1..] == rest;
    }
  }

  /** The label of a link match is a draft of its own. */
  lemma LabelDraft(ps: seq<Piece>, s: string, link: Link) returns (ls: seq<Piece>)
    requires Drafted(ps) && s == Flatten(ps) && LinkAt(s) == Some(link)
    ensures Drafted(ls) && Flatten(ls) == link.text && ']' !in link.text
  {
    hide LinkAt, Flatten, Print;
    LinkLabel(s, link);
    LabelNoBracket(s, link);
    var n := |link.text|;
    FirstIsLit(ps);
    var j := DraftCut(ps, n + 1);
    assert Flatten(ps[..j]) == s[..n + 1];
    if j == 0 { NothingFlattens(); }
    ls := ps[1..j];
    assert ps[..j] == [ps[0]] + ls;
    KeepFlatten(ps[0], ls);
    LitPrint(s[0]);
    assert s[..n + 1] == [s[0]] + s[1..n + 1];
  }

  lemma NothingFlattens()
    ensures Flatten([]) == ""
  {
  }

  lemma LabelNoBracket(s: string, link: Link)
    requires LinkAt(s) == Some(link)
    ensures ']' !in link.text
  {
  }

  lemma NoLinkSealed(p: Piece, rest: string, tokens: seq<string>, depth: nat)
    requires (p.Hole? || p.Lit?) && LinkAt(Print(p) + rest) == None
    ensures ProtectLinks(Print(p) + rest, tokens, depth).tokens == ProtectLinks(rest, tokens, depth).tokens
    ensures LinksSealed(Print(p) + rest, depth) == LinksSealed(rest, depth)
  {
    hide Print, LinkAt, LinksSealed, ProtectLinks;
    NoLinkInFront(p, rest, tokens, depth);
    SealedInFront(p, rest, depth);
  }

  lemma LinkSealed(s: string, link: Link, depth: nat)
    requires s != "" && LinkAt(s) == Some(link)
    ensures LinksSealed(s, depth)
       <==> (SafeUrl(link.url).Some? ==> Sealed(link, depth)) && LinksSealed(s[link.length..], depth)
  {
    hide LinkAt, SafeUrl, Sealed;
  }

  /** The link tokens have no mark in them exactly if every safe link is sealed. */
  lemma {:induction false} LinkTokensMarked(ps: seq<Piece>, s: string, tokens: seq<string>, depth: nat)
    requires Drafted(ps) && s == Flatten(ps)
    ensures AllUnmarked(ProtectLinks(s, tokens, depth).tokens) <==> AllUnmarked(tokens) && LinksSealed(s, depth)
    decreases |ps|
  {
    if ps == [] {
      NoLinksLeft(tokens, depth);
    } else {
      hide LinkAt, LinksSealed, ProtectLinks, Flatten, Print, LinkToken, Sealed, SafeUrl, AllUnmarked, Unmarked, Drafted;
      FlattenFirst(ps);
      DraftedTail(ps);
      DraftedHead(ps);
      match LinkAt(s)
      case None =>
        NoLinkSealed(ps[0], Flatten(ps[1..]), tokens, depth);
        LinkTokensMarked(ps[1..], Flatten(ps[1..]), tokens, depth);
      case Some(link) =>
        var _, j := LinkDraft(ps, s, link);
        NotEmpty(s, link);
        LinkSealed(s, link, depth);
        if SafeUrl(link.url).None? {
          UnsafeLinkCopied(s, link, tokens, depth);
          LinkTokensMarked(ps[j..], s[link.length..], tokens, depth);
        } else {
          SafeLinkReplaced(s, link, tokens, depth);
          var token := LinkToken(link, depth);
          var ls := LabelDraft(ps, s, link);
          LinkTokenMarked(ls, link, depth);
          AllUnmarkedSnoc(tokens, token);
          LinkTokensMarked(ps[j..], s[link.length..], tokens + [token], depth);
        }
    }
  }

  lemma NotEmpty(s: string, link: Link)
    requires LinkAt(s) == Some(link)
    ensures s != ""
  {
  }

  lemma {:induction false} TokensKept(s: string, tokens: seq<string>, depth: nat)
    ensures tokens <= ProtectLinks(s, tokens, depth).tokens
    decreases |s|
  {
    hide LinkToken, SafeUrl, LinkAt;
    if s != "" {
      match LinkAt(s)
      case None => TokensKept(s[1..], tokens, depth);
      case Some(link) =>
        TokensKept(s[link.length..], if SafeUrl(link.url).Some? then tokens + [LinkToken(link, depth)] else tokens, depth);
    }
  }

  // --- The result ----------------------------------------------------------------------------------

  /** For a source without U+E000: none is left in the output if and only if, after code spans have become
      placeholders, no safe link has a placeholder in its address or inside a code span of its label. */
  lemma NothingRemainsIff(source: string, depth: nat)
    requires Unmarked(source)
    ensures Unmarked(RenderInline(source, depth)) <==> LinksSealed(ProtectCode(source, []).value, depth)
  {
    hide RenderInline, Emphasize, EscapeHtml, Restore, Marks, Flatten, ProtectCode, ProtectLinks, UsedUnmarked, AllUnmarked,
         HasAll, Drafted, LinksSealed, LinksAccounted, CodeSpansClear;
    RenderAsProtected(source, depth);
    if source == "" {
      NothingIsClear();
      NothingIsSealed(depth);
    } else {
      var code := ProtectCode(source, []);
      var r := ProtectLinks(code.value, code.tokens, depth);
      var qs := CodeDraft(source, []);
      var ls, lost := LinksDraft(qs, code.value, code.tokens, depth);
      AccountedParts(qs, code.value, code.tokens, depth, ls, lost);
      DraftRestored(ls, r.tokens);
      UnmarkedSpansClear(source);
      CodeTokensMarked(source, []);
      NoTokensUnmarked();
      TokensKept(code.value, code.tokens, depth);
      FrontUnmarked(code.tokens, r.tokens);
      AllUsed(Marks(ls), r.tokens, |code.tokens|);
      LinkTokensMarked(qs, code.value, code.tokens, depth);
    }
  }

  lemma NothingIsSealed(depth: nat)
    ensures ProtectCode("", []).value == "" && LinksSealed("", depth)
  {
  }

  lemma AccountedParts(ps: seq<Piece>, s: string, tokens: seq<string>, depth: nat, qs: seq<Piece>, lost: seq<int>)
    requires LinksAccounted(ps, s, tokens, depth, qs, lost)
    ensures var r := ProtectLinks(s, tokens, depth);
      Drafted(qs) && Flatten(qs) == r.value && HasAll(Marks(qs), |tokens|, |r.tokens|)
  {
    hide ProtectLinks, Flatten, Marks, HasAll, Accounts, LinksClear, Drafted;
  }

  lemma FrontUnmarked(tokens: seq<string>, more: seq<string>)
    requires tokens <= more && AllUnmarked(tokens)
    ensures forall i | 0 <= i < |tokens| && i < |more| :: Unmarked(more[i])
  {
    hide Unmarked;
    forall i | 0 <= i < |tokens| && i < |more| ensures Unmarked(more[i]) { assert more[i] == tokens[i]; }
  }

  lemma {:induction false} ClearIsSealed(s: string, depth: nat)
    requires LinksClear(s)
    ensures LinksSealed(s, depth)
    decreases |s|
  {
    hide LinkAt, SafeUrl, CodeSpansClear, Unmarked;
    if s != "" {
      match LinkAt(s)
      case None => ClearIsSealed(s[1..], depth);
      case Some(link) =>
        ClearIsSealed(s[link.length..], depth);
        if SafeUrl(link.url).Some? {
          LinkLabel(s, link);
          LinkAddress(s, link, |link.text|);
          assert s[0..link.length] == s[..link.length];
          PartsUnmarked(s, link);
          UnmarkedSpansClear(link.text);
        }
    }
  }

  lemma PartsUnmarked(s: string, link: Link)
    requires UrlStop(link) < link.length <= |s| && MARK !in s[..link.length] && |link.text| + 3 <= UrlStop(link)
    requires link.text == s[1..|link.text| + 1] && link.url == s[|link.text| + 3..UrlStop(link)]
    ensures Unmarked(link.text) && Unmarked(link.url)
  {
    var front := s[..link.length];
    assert link.text == front[1..|link.text| + 1] && link.url == front[|link.text| + 3..UrlStop(link)];
  }

  /** In particular nothing remains if no link match drops a placeholder. */
  lemma NothingRemains(source: string, depth: nat)
    requires Unmarked(source) && LinksClear(ProtectCode(source, []).value)
    ensures Unmarked(RenderInline(source, depth))
  {
    hide RenderInline, ProtectCode, LinksClear, LinksSealed;
    ClearIsSealed(ProtectCode(source, []).value, depth);
    NothingRemainsIff(source, depth);
  }

  // --- Two families of inputs that leave a mark ----------------------------------------------------

  lemma {:induction false} TrimEndNothing(s: string)
    requires s != "" && !IsSpace(s[|s| - 1])
    ensures TrimEnd(s) == s
  {
  }

  lemma TrimNothing(s: string)
    requires s != "" && forall i | 0 <= i < |s| :: !IsSpace(s[i])
    ensures Trim(s) == s
  {
    hide IsSpace;
    assert Run(IsSpace, s) == 0;
    assert s[0..] == s;
    TrimEndNothing(s);
  }

  lemma SlashIsSafe(url: string)
    requires PlainUrl(url) && url[0] == '/'
    ensures SafeUrl(url) == Some(url)
  {
    TrimNothing(url);
    SafeUrlIsAllowed(url);
    assert "/" <= url;
    hide SafeUrl, Trim, StartsWithFolded;
  }

  lemma NoBracketNothingSealed(depth: nat)
    ensures LinksSealed("", depth)
  {
  }

  /** A value that is one link is sealed exactly if that link is. */
  lemma OneLinkSealed(caption: string, url: string, depth: nat)
    requires caption != "" && ']' !in caption && '\n' !in caption && PlainUrl(url) && url[0] == '/'
    ensures LinksSealed(LinkText(caption, url), depth) <==> Sealed(Link(|caption| + |url| + 4, caption, url), depth)
  {
    hide LinkAt, SafeUrl, Sealed, LinksSealed;
    var s := LinkText(caption, url);
    var link := Link(|caption| + |url| + 4, caption, url);
    assert s + "" == s;
    LinkExactly(caption, url, "");
    SlashIsSafe(url);
    LinkSealed(s, link, depth);
    assert s[link.length..] == "";
    NoBracketNothingSealed(depth);
  }

  /** A code span in the address of a safe link: its placeholder ships in the `href`. */
  lemma CodeSpanInAddressRemains(caption: string, code: string, depth: nat)
    requires PlainText(caption) && caption != "" && ']' !in caption
    requires code != "" && '`' !in code && '\n' !in code && Unmarked(code)
    ensures MARK in RenderInline((['['] + caption + [']', '(', '/']) + (['`'] + code + ['`'] + [')']), depth)
  {
    hide RenderInline, ProtectCode, LinksSealed, EscapeHtml, OpenText, CloseText, Placeholder, Decimal;
    var left, right := ['['] + caption + [']', '(', '/'], [')'];
    var source := left + (['`'] + code + ['`'] + right);
    var hole := Placeholder(0);
    CodeProtected(left, code, right);
    PlaceholderIsPlain(0, hole);
    HoleStarts(0, hole);
    var url := ['/'] + hole;
    assert left + (hole + right) == LinkText(caption, url);
    OneLinkSealed(caption, url, depth);
    assert url[1] == MARK;
    NothingRemainsIff(source, depth);
  }

  lemma HoleStarts(i: nat, s: string)
    requires s == Placeholder(i)
    ensures s != "" && s[0] == MARK && forall k | 0 <= k < |s| :: s[k] != ')'
  {
    HoleChars(i, TOKEN_PREFIX, s);
  }

  lemma TickAlone(t: string, tokens: seq<string>)
    requires '`' !in t
    ensures ProtectCode(['`'] + t, tokens) == Protected(['`'] + t, tokens)
  {
    var s := ['`'] + t;
    assert s[1..] == t;
    NoCodeSpan(t, tokens);
  }

  lemma TickBeforeSpan(code: string, rest: string, tokens: seq<string>)
    requires code != "" && '`' !in code && '\n' !in code
    ensures var span := ['`'] + code + ['`'];
      var r := ProtectCode(rest, tokens + [CodeToken(span)]);
      ProtectCode(['`'] + (span + rest), tokens) == Protected(['`'] + (Placeholder(|tokens|) + r.value), r.tokens)
  {
    var span := ['`'] + code + ['`'];
    var s := ['`'] + (span + rest);
    assert s[1..] == span + rest && CodeSpanLength(s) == 0;
    CodeSpanExactly(code, rest);
    assert (span + rest)[..|span|] == span && (span + rest)[|span|..] == rest;
    hide CodeSpanLength, CodeToken, Placeholder;
  }

  lemma TicksProtected(code: string, rest: string)
    requires code != "" && '`' !in code && '\n' !in code && '`' !in rest
    ensures ProtectCode(['['] + (['`'] + ((['`'] + code + ['`']) + (['`'] + rest))), []).value
         == ['['] + (['`'] + (Placeholder(0) + (['`'] + rest)))
  {
    hide ProtectCode, Placeholder, CodeToken;
    var tail := ['`'] + rest;
    var token := CodeToken(['`'] + code + ['`']);
    CodeSkips(['['], ['`'] + ((['`'] + code + ['`']) + tail), []);
    TickBeforeSpan(code, tail, []);
    TickAlone(rest, [] + [token]);
  }

  lemma HeldSpan(hole: string)
    requires hole != "" && hole[0] == MARK && '`' !in hole && '\n' !in hole
    ensures !CodeSpansClear(['`'] + hole + ['`'])
  {
    var s := ['`'] + hole + ['`'];
    assert s + "" == s && s[..|hole| + 2] == s && s[1] == MARK;
    assert ['`'] + hole + ['`'] + "" == s;
    CodeSpanExactly(hole, "");
  }

  /** Code between doubled backticks in a label: the outer backticks and the placeholder between them are a code
      span once the label is rendered on its own, and that shows the placeholder as code. No address is involved. */
  lemma DoubledTicksRemain(code: string, rest: string, depth: nat)
    requires code != "" && '`' !in code && '\n' !in code && Unmarked(code) && rest == [']', '(', '/', 'x', ')'] && depth < 2
    ensures MARK in RenderInline(['['] + (['`'] + ((['`'] + code + ['`']) + (['`'] + rest))), depth)
  {
    hide RenderInline, ProtectCode, LinksSealed, Placeholder, Decimal, CodeSpansClear, CodeToken;
    var source := ['['] + (['`'] + ((['`'] + code + ['`']) + (['`'] + rest)));
    var hole := Placeholder(0);
    PlaceholderIsPlain(0, hole);
    HoleStarts(0, hole);
    TicksProtected(code, rest);
    var caption, url := ['`'] + hole + ['`'], ['/', 'x'];
    assert ['['] + (['`'] + (hole + (['`'] + rest))) == LinkText(caption, url);
    SlashXIsPlain(url);
    OneLinkSealed(caption, url, depth);
    HeldSpan(hole);
    NothingRemainsIff(source, depth);
  }

  lemma SlashXIsPlain(url: string)
    requires url == ['/', 'x']
    ensures PlainUrl(url) && url[0] == '/'
  {
  }
}
