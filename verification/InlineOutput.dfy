/** What inline rendering produces: well-formed HTML for every input, and every placeholder restored. */
module InlineOutput {
  import opened Text
  import opened Address
  import opened Escaping
  import opened Html
  import opened Inline
  import opened InlinePieces

  // --- Every input renders to well-formed HTML -----------------------------------------------------

  ghost predicate AllWellFormed(tokens: seq<string>) { forall i | 0 <= i < |tokens| :: WellFormed(tokens[i]) }

  predicate NoHole(ps: seq<Piece>) { forall i | 0 <= i < |ps| :: !ps[i].Hole? }

  predicate AllStray(marks: seq<int>) { forall i | 0 <= i < |marks| :: marks[i] == -1 }

  lemma {:induction false} NoHoleMarks(ps: seq<Piece>)
    ensures NoHole(ps) <==> AllStray(Marks(ps))
  {
    if ps != [] {
      NoHoleMarks(ps[1..]);
      var first, rest := MarkOf(ps[0]), Marks(ps[1..]);
      assert AllStray(first + rest) <==> AllStray(first) && AllStray(rest) by {
        if AllStray(first + rest) {
          assert forall i | 0 <= i < |first| :: first[i] == (first + rest)[i];
          assert forall i | 0 <= i < |rest| :: rest[i] == (first + rest)[|first| + i];
        }
      }
      assert AllStray(first) <==> !ps[0].Hole? by { if ps[0].Hole? { assert first[0] != -1; } }
      assert NoHole(ps) <==> !ps[0].Hole? && NoHole(ps[1..]) by {
        if NoHole(ps) { assert forall i | 0 <= i < |ps| - 1 :: ps[1..][i] == ps[i + 1]; }
      }
    }
  }

  /** Text without raw or escaped characters is made of literals. */
  function Literals(s: string): seq<Piece> { seq(|s|, i requires 0 <= i < |s| => Lit(s[i])) }

  lemma {:induction false} LiteralsRead(s: string)
    requires forall i | 0 <= i < |s| :: !IsEscaped(s[i])
    ensures Reads(Literals(s), s)
  {
    if s != [] {
      LiteralsRead(s[1..]);
      assert Literals(s)[1..] == Literals(s[1..]);
      forall t: Tag ensures Depth(Literals(s), t) == 0 && Low(Literals(s), t) == 0 {
        assert Delta(Literals(s)[0], t) == 0;
      }
    }
  }

  lemma LookupWellFormed(digits: string, tokens: seq<string>)
    requires AllWellFormed(tokens)
    ensures WellFormed(Lookup(digits, tokens))
  {
    var missing := "undefined";
    LiteralsRead(missing);
  }

  lemma PlaceholderChars(s: string, prefix: string)
    requires prefix == TOKEN_PREFIX
    ensures forall i | 0 <= i < PlaceholderLength(s) :: s[i] != '<' && s[i] != '&'
  {
    var n := PlaceholderLength(s);
    if n > 0 {
      var k := |prefix|;
      assert forall i | 0 <= i < k :: s[i] == prefix[i];
      assert forall i | 0 <= i < n - 1 - k :: s[k..][i] == s[k + i];
      assert s[n - 1..n][0] == s[n - 1] == '\U{E001}';
      forall i | 0 <= i < n ensures s[i] != '<' && s[i] != '&' {
        if k <= i < n - 1 { assert IsDigit(s[k..][i - k]); }
      }
    }
  }

  /** Characters that begin neither a tag nor an entity are pieces of their own. */
  lemma {:induction false} LitPrefix(ps: seq<Piece>, n: nat)
    requires AllInert(ps) && NoHole(ps) && n <= |Flatten(ps)|
    requires forall i | 0 <= i < n :: Flatten(ps)[i] != '<' && Flatten(ps)[i] != '&'
    ensures n <= |ps| && (forall i | 0 <= i < n :: ps[i].Lit?) && Flatten(ps[n..]) == Flatten(ps)[n..]
  {
    hide Print;
    if n > 0 {
      InertPrint(ps[0], Print(ps[0]));
      var s := Flatten(ps);
      assert s[0] == Print(ps[0])[0] && ps[0].Lit?;
      assert s[1..] == Flatten(ps[1..]);
      assert forall i | 0 <= i < n - 1 :: s[1..][i] == s[i + 1];
      LitPrefix(ps[1..], n - 1);
      assert ps[1..][n - 1..] == ps[n..];
      forall i | 0 <= i < n ensures ps[i].Lit? {
        if i > 0 { assert ps[i] == ps[1..][i - 1]; }
      }
    } else {
      assert ps[0..] == ps;
    }
  }

  lemma RestoreStep(s: string, tokens: seq<string>)
    requires s != "" && s[0] != '\U{E000}'
    ensures Restore(s, tokens) == [s[0]] + Restore(s[1..], tokens)
  {
    NoPlaceholder(s, TOKEN_PREFIX);
  }

  lemma {:induction false} RestoreSkips(a: string, b: string, tokens: seq<string>)
    requires '\U{E000}' !in a
    ensures Restore(a + b, tokens) == a + Restore(b, tokens)
  {
    hide Restore;
    if a == [] {
      assert a + b == b;
      assert a + Restore(b, tokens) == Restore(b, tokens);
    } else {
      var s := a + b;
      assert s[0] == a[0] && s[1..] == a[1..] + b;
      RestoreStep(s, tokens);
      RestoreSkips(a[1..], b, tokens);
      assert [a[0]] + (a[1..] + Restore(b, tokens)) == a + Restore(b, tokens);
    }
  }

  lemma NoPlaceholder(s: string, prefix: string)
    requires prefix == TOKEN_PREFIX && s != "" && s[0] != '\U{E000}'
    ensures PlaceholderLength(s) == 0
  {
    assert !(prefix <= s) by { assert prefix[0] == '\U{E000}'; }
  }

  ghost predicate Improves(ps: seq<Piece>, qs: seq<Piece>) {
    forall t: Tag :: Depth(qs, t) == Depth(ps, t) && Low(qs, t) >= Low(ps, t)
  }

  lemma ImprovesConcat(a: seq<Piece>, b: seq<Piece>, a': seq<Piece>, b': seq<Piece>)
    requires Improves(a, a') && Improves(b, b')
    ensures Improves(a + b, a' + b')
  {
    hide Print, Flatten, Depth, Low;
    forall t: Tag ensures Depth(a' + b', t) == Depth(a + b, t) && Low(a' + b', t) >= Low(a + b, t) {
      DepthConcat(a, b, t);
      DepthConcat(a', b', t);
    }
  }

  lemma {:induction false} LitsImproveToPaired(ps: seq<Piece>, qs: seq<Piece>)
    requires (forall i | 0 <= i < |ps| :: ps[i].Lit?) && Paired(qs)
    ensures Improves(ps, qs)
  {
    if ps != [] {
      LitsImproveToPaired(ps[1..], qs);
      forall t: Tag ensures Depth(qs, t) == Depth(ps, t) && Low(qs, t) >= Low(ps, t) {
        assert Depth(ps[1..], t) == Depth(qs, t) && Delta(ps[0], t) == 0;
      }
    }
  }

  /** The placeholder at the front is replaced by its token. */
  lemma RestoreFront(s: string, tokens: seq<string>)
    requires PlaceholderLength(s) > 0
    ensures var n := PlaceholderLength(s);
      Restore(s, tokens) == Lookup(s[|TOKEN_PREFIX|..n - 1], tokens) + Restore(s[n..], tokens)
  {
    hide PlaceholderLength, Lookup;
  }

  lemma RestoreKeeps(p: Piece, rest: string, tokens: seq<string>)
    requires Inert(p) && !p.Hole? && PlaceholderLength(Print(p) + rest) == 0
    ensures Restore(Print(p) + rest, tokens) == Print(p) + Restore(rest, tokens)
  {
    InertPrint(p, Print(p));
    hide Print, PlaceholderLength, Inert;
    var s := Print(p) + rest;
    if p.Lit? {
      assert s[0] == p.c && s[1..] == rest;
    } else {
      hide Restore;
      RestoreSkips(Print(p), rest, tokens);
    }
  }

  lemma FrontLits(ps: seq<Piece>, tokens: seq<string>)
    requires AllInert(ps) && NoHole(ps) && PlaceholderLength(Flatten(ps)) > 0
    ensures var n := PlaceholderLength(Flatten(ps));
      n <= |ps| && (forall i | 0 <= i < n :: ps[i].Lit?) && Flatten(ps[n..]) == Flatten(ps)[n..]
  {
    hide Flatten, PlaceholderLength, Inert;
    PlaceholderChars(Flatten(ps), TOKEN_PREFIX);
    LitPrefix(ps, PlaceholderLength(Flatten(ps)));
  }

  lemma InertTail(ps: seq<Piece>, n: nat)
    requires AllInert(ps) && NoHole(ps) && n <= |ps|
    ensures AllInert(ps[n..]) && NoHole(ps[n..])
  {
    hide Inert;
  }

  /** Restoring replaces plain characters by well-formed HTML. */
  lemma {:induction false} RestoreReads(ps: seq<Piece>, tokens: seq<string>) returns (qs: seq<Piece>)
    requires AllInert(ps) && NoHole(ps) && AllWellFormed(tokens)
    ensures AllLegal(qs) && Flatten(qs) == Restore(Flatten(ps), tokens) && Improves(ps, qs)
    decreases |ps|
  {
    hide Print, Lookup, Improves, Restore, PlaceholderLength, AllLegal, WellFormed, AllWellFormed;
    if ps == [] {
      EmptyImproves(tokens);
      return [];
    }
    var n := PlaceholderLength(Flatten(ps));
    if n > 0 {
      FrontLits(ps, tokens);
      RestoreFront(Flatten(ps), tokens);
      InertTail(ps, n);
      hide Flatten, AllInert, NoHole;
      var tail := RestoreReads(ps[n..], tokens);
      var html := Lookup(Flatten(ps)[|TOKEN_PREFIX|..n - 1], tokens);
      LookupWellFormed(Flatten(ps)[|TOKEN_PREFIX|..n - 1], tokens);
      qs := ReplaceFront(ps, n, html, tail);
    } else {
      InertTail(ps, 1);
      FlattenFirst(ps);
      var tail := RestoreReads(ps[1..], tokens);
      RestoreKeeps(ps[0], Flatten(ps[1..]), tokens);
      hide Flatten;
      qs := KeepFront(ps, tail);
    }
  }

  lemma EmptyImproves(tokens: seq<string>)
    ensures AllLegal([]) && Flatten([]) == "" && Restore("", tokens) == "" && Improves([], [])
  {
  }

  lemma ReplaceFront(ps: seq<Piece>, n: nat, html: string, tail: seq<Piece>) returns (qs: seq<Piece>)
    requires n <= |ps| && (forall i | 0 <= i < n :: ps[i].Lit?) && WellFormed(html)
    requires AllLegal(tail) && Improves(ps[n..], tail)
    ensures AllLegal(qs) && Flatten(qs) == html + Flatten(tail) && Improves(ps, qs)
  {
    hide Flatten, Improves, AllLegal, Paired;
    var ts :| Reads(ts, html);
    LitsImproveToPaired(ps[..n], ts);
    ImprovesConcat(ps[..n], ps[n..], ts, tail);
    assert ps == ps[..n] + ps[n..];
    qs := ts + tail;
    FlattenConcat(ts, tail);
    LegalConcat(ts, tail);
  }

  lemma InertIsLegal(p: Piece)
    requires Inert(p) && !p.Hole?
    ensures AllLegal([p])
  {
  }

  lemma ImprovesSelf(ps: seq<Piece>)
    ensures Improves(ps, ps)
  {
    hide Depth, Low;
  }

  lemma KeepFront(ps: seq<Piece>, tail: seq<Piece>) returns (qs: seq<Piece>)
    requires ps != [] && Inert(ps[0]) && !ps[0].Hole? && AllLegal(tail) && Improves(ps[1..], tail)
    ensures AllLegal(qs) && Flatten(qs) == Print(ps[0]) + Flatten(tail) && Improves(ps, qs)
  {
    InertIsLegal(ps[0]);
    hide Print, Flatten, Improves, AllLegal, Inert;
    ImprovesSelf([ps[0]]);
    ImprovesConcat([ps[0]], ps[1..], [ps[0]], tail);
    assert ps == [ps[0]] + ps[1..];
    qs := [ps[0]] + tail;
    KeepFlatten(ps[0], tail);
    LegalConcat([ps[0]], tail);
  }

  lemma {:induction false} EscapedInert(s: string)
    ensures AllInert(EscapedPieces(s)) && NoHole(EscapedPieces(s))
  {
    if s != "" {
      EscapedInert(s[1..]);
    }
  }

  /** The value between protecting and restoring, whatever the source was. */
  lemma RestoredWellFormed(value: string, tokens: seq<string>)
    requires AllWellFormed(tokens)
    ensures WellFormed(Restore(Emphasize(EscapeHtml(value)), tokens))
  {
    hide EscapedPieces, Flatten, Depth, Low, AllLegal, Restore, Emphasize, EscapeHtml, EscapeEach, Marks, NoHole,
         AllStray, AllInert, AllWellFormed;
    var ps := EscapedPieces(value);
    EscapeIsPointwise(value);
    EscapedReads(value);
    EscapedInert(value);
    NoHoleMarks(ps);
    var qs := EmphasizeRefines(ps);
    NoHoleMarks(qs);
    var rs := RestoreReads(qs, tokens);
    assert Paired(rs);
    assert Reads(rs, Flatten(rs));
  }

  lemma CodeTokenWellFormed(span: string)
    requires |span| >= 3
    ensures WellFormed(CodeToken(span))
  {
    WellFormedEscaped(span[1..|span| - 1]);
    WellFormedElement(Open(Code), EscapeHtml(span[1..|span| - 1]), Code);
  }

  lemma {:induction false} CodeTokensWellFormed(s: string, tokens: seq<string>)
    requires AllWellFormed(tokens)
    ensures AllWellFormed(ProtectCode(s, tokens).tokens)
    decreases |s|
  {
    hide WellFormed, CodeToken;
    if s != [] {
      var n := CodeSpanLength(s);
      if n > 0 {
        CodeTokenWellFormed(s[..n]);
        CodeTokensWellFormed(s[n..], tokens + [CodeToken(s[..n])]);
      } else {
        CodeTokensWellFormed(s[1..], tokens);
      }
    }
  }

  lemma {:induction false} ReplaceKeepsNoRaw(s: string, c: char, entity: string)
    requires NoRaw(s) && NoRaw(entity)
    ensures NoRaw(Replace(s, c, entity))
  {
    if s != [] { ReplaceKeepsNoRaw(s[1..], c, entity); }
  }

  lemma AttributeIsSafe(s: string)
    ensures AttributeText(EscapeAttribute(s))
  {
    EscapeLeavesNoRaw(s);
    var entity := "&#96;";
    assert NoRaw(entity);
    ReplaceKeepsNoRaw(EscapeHtml(s), '`', entity);
  }

  lemma {:induction false} LinkTokensWellFormed(s: string, tokens: seq<string>, depth: nat)
    requires AllWellFormed(tokens)
    ensures AllWellFormed(ProtectLinks(s, tokens, depth).tokens)
    decreases if depth <= 2 then 3 - depth else 0, 0, |s|
  {
    hide WellFormed, LinkToken, SafeUrl, LinkAt;
    if s != [] {
      match LinkAt(s)
      case None => LinkTokensWellFormed(s[1..], tokens, depth);
      case Some(link) =>
        match SafeUrl(link.url)
        case None => LinkTokensWellFormed(s[link.length..], tokens, depth);
        case Some(_) =>
          LinkTokenWellFormed(link, depth);
          LinkTokensWellFormed(s[link.length..], tokens + [LinkToken(link, depth)], depth);
    }
  }

  lemma {:induction false} LinkTokenWellFormed(link: Link, depth: nat)
    requires SafeUrl(link.url).Some?
    ensures WellFormed(LinkToken(link, depth))
    decreases if depth <= 2 then 3 - depth else 0, 0, 0
  {
    hide WellFormed, RenderInline, EscapeAttribute, EscapeHtml, SafeUrl;
    var content := if depth < 2 then RenderInline(link.text, depth + 1) else EscapeHtml(link.text);
    if depth < 2 { InlineWellFormed(link.text, depth + 1); } else { WellFormedEscaped(link.text); }
    var target := EscapeAttribute(SafeUrl(link.url).value);
    AttributeIsSafe(SafeUrl(link.url).value);
    SafeUrlIsAllowed(link.url);
    hide Allowed, Trim;
    assert SafeHref(target);
    WellFormedElement(LinkOpen(target), content, Anchor);
  }

  /** Output grammar, inline level: for every source and depth. */
  lemma {:induction false} InlineWellFormed(source: string, depth: nat)
    ensures WellFormed(RenderInline(source, depth))
    decreases if depth <= 2 then 3 - depth else 0, 2, |source|
  {
    hide WellFormed, Restore, Emphasize, EscapeHtml, ProtectLinks, ProtectCode;
    if source == "" {
      WellFormedEmpty();
    } else {
      var code := ProtectCode(source, []);
      CodeTokensWellFormed(source, []);
      LinkTokensWellFormed(code.value, code.tokens, depth);
      var p := Protect(source, depth);
      RestoredWellFormed(p.value, p.tokens);
    }
  }
}
