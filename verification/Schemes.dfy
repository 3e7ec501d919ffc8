/** `safeUrl` against its regular expressions: which addresses are refused and which are let through. */
module Schemes {
  import opened Text
  import opened Address
  import opened Regex

  /** A character of an expression that ignores case. */
  function Folded(c: char): char -> bool { x => LowerAscii(x) == c }

  /** A text, character by character, ignoring case. */
  function Ignoring(t: string): Regex { if t == "" then Empty else Seq(Class(Folded(t[0])), Ignoring(t[1..])) }

  const COLON: Regex := Class(Is(':'))

  function Scheme(name: string): Regex { Seq(Ignoring(name), COLON) }

  /** `(?:javascript|vbscript|data|file):`, ignoring case */
  const REFUSED: Regex := Alt(Scheme("javascript"), Alt(Scheme("vbscript"), Alt(Scheme("data"), Scheme("file"))))

  /** `https?:`, ignoring case */
  const WEB: Regex := Seq(Ignoring("http"), Seq(Maybe(Class(Folded('s'))), COLON))

  /** `(?:https?:|mailto:|tel:)`, ignoring case */
  const ACCEPTED: Regex := Alt(WEB, Alt(Scheme("mailto"), Scheme("tel")))

  const SLASH: Regex := Class(Is('/'))

  /** `\.\.?\/` */
  const DOTS_SLASH: Regex := Seq(Class(Is('.')), Seq(Maybe(Class(Is('.'))), SLASH))

  /** `(?:\/|\.\.?\/|#)` */
  const RELATIVE: Regex := Alt(SLASH, Alt(DOTS_SLASH, Class(Is('#'))))

  predicate Found(r: Regex, s: string) { Exec(r, s).Some? }

  lemma FoldStep(s: string, i: nat, t: string)
    requires t != "" && i <= |s|
    ensures StartsWithFolded(s[i..], t)
       <==> i < |s| && Folded(t[0])(s[i]) && StartsWithFolded(s[i + 1..], t[1..])
  {
    hide LowerAscii;
    if i < |s| {
      var u, v, t1 := s[i..], s[i + 1..], t[1..];
      assert u[0] == s[i] && (forall k | 0 <= k < |v| :: v[k] == u[k + 1]) && forall k | 0 <= k < |t1| :: t1[k] == t[k + 1];
      if LowerAscii(s[i]) == t[0] && StartsWithFolded(v, t1) {
        forall k | 0 <= k < |t| ensures LowerAscii(u[k]) == t[k] {
          if k > 0 { assert LowerAscii(v[k - 1]) == t1[k - 1]; }
        }
      }
      if StartsWithFolded(u, t) {
        forall k | 0 <= k < |t1| ensures LowerAscii(v[k]) == t1[k] { assert LowerAscii(u[k + 1]) == t[k + 1]; }
      }
    }
  }

  lemma {:induction false} IgnoringTry(t: string, b: Regex, s: string, x: At)
    requires x.pos <= |s|
    ensures Try(Seq(Ignoring(t), b), s, x)
         == if StartsWithFolded(s[x.pos..], t) then Try(b, s, x.(pos := x.pos + |t|)) else None
    decreases |t|
  {
    hide Try, StartsWithFolded;
    if t == "" {
      SeqEmpty(b, s, x);
      NoPrefix(s[x.pos..]);
      assert x.(pos := x.pos + 0) == x;
    } else {
      SeqAssoc(Class(Folded(t[0])), Ignoring(t[1..]), b, s, x);
      SeqClass(Folded(t[0]), Seq(Ignoring(t[1..]), b), s, x);
      FoldStep(s, x.pos, t);
      if x.pos < |s| && Folded(t[0])(s[x.pos]) {
        var y := x.(pos := x.pos + 1);
        IgnoringTry(t[1..], b, s, y);
        assert y.(pos := y.pos + |t[1..]|) == x.(pos := x.pos + |t|);
      }
    }
  }

  lemma NoPrefix(s: string)
    ensures StartsWithFolded(s, "")
  {
  }

  /** A folded prefix and one more character. */
  lemma FoldedMore(s: string, name: string, c: char, prefix: string)
    requires prefix == name + [c]
    ensures StartsWithFolded(s, prefix) <==> StartsWithFolded(s, name) && |name| < |s| && LowerAscii(s[|name|]) == c
  {
    hide LowerAscii;
    assert prefix[|name|] == c && forall k | 0 <= k < |name| :: prefix[k] == name[k];
  }

  lemma ColonFolds(c: char)
    ensures LowerAscii(c) == ':' <==> Is(':')(c)
  {
  }

  lemma SchemeFound(s: string, name: string, prefix: string)
    requires prefix == name + [':']
    ensures Found(Scheme(name), s) <==> StartsWithFolded(s, prefix)
  {
    hide Try, StartsWithFolded, LowerAscii;
    assert s[0..] == s;
    IgnoringTry(name, COLON, s, At(0, []));
    ClassTry(Is(':'), s, At(|name|, []));
    FoldedMore(s, name, ':', prefix);
    if |name| < |s| { ColonFolds(s[|name|]); }
  }

  lemma AltFound(a: Regex, b: Regex, s: string)
    ensures Found(Alt(a, b), s) <==> Found(a, s) || Found(b, s)
  {
    hide Try;
    AltTry(a, b, s, At(0, []));
  }

  lemma RefusedFound(s: string)
    ensures Found(REFUSED, s) <==> StartsWithFolded(s, "javascript:") || StartsWithFolded(s, "vbscript:")
                                   || StartsWithFolded(s, "data:") || StartsWithFolded(s, "file:")
  {
    hide Found, Scheme, StartsWithFolded;
    SchemeFound(s, "javascript", "javascript:");
    SchemeFound(s, "vbscript", "vbscript:");
    SchemeFound(s, "data", "data:");
    SchemeFound(s, "file", "file:");
    AltFound(Scheme("javascript"), Alt(Scheme("vbscript"), Alt(Scheme("data"), Scheme("file"))), s);
    AltFound(Scheme("vbscript"), Alt(Scheme("data"), Scheme("file")), s);
    AltFound(Scheme("data"), Scheme("file"), s);
  }

  lemma WebFound(s: string, http: string, plain: string, secure: string)
    requires http == "http" && plain == "http:" && secure == "https:"
    ensures Found(WEB, s) <==> StartsWithFolded(s, plain) || StartsWithFolded(s, secure)
  {
    hide Try, StartsWithFolded, LowerAscii;
    assert s[0..] == s;
    var x, n := At(4, []), 4;
    IgnoringTry(http, Seq(Maybe(Class(Folded('s'))), COLON), s, At(0, []));
    SeqAlt(Class(Folded('s')), Empty, COLON, s, x);
    SeqClass(Folded('s'), COLON, s, x);
    SeqEmpty(COLON, s, x);
    ClassTry(Is(':'), s, x);
    ClassTry(Is(':'), s, At(5, []));
    FoldedMore(s, http, ':', plain);
    FoldedMore(s, http, 's', http + "s");
    FoldedMore(s, http + "s", ':', secure);
    if 4 < |s| { ColonFolds(s[4]); }
    if 5 < |s| { ColonFolds(s[5]); }
  }

  lemma AcceptedFound(s: string)
    ensures Found(ACCEPTED, s) <==> StartsWithFolded(s, "http:") || StartsWithFolded(s, "https:")
                                    || StartsWithFolded(s, "mailto:") || StartsWithFolded(s, "tel:")
  {
    hide Found, Scheme, StartsWithFolded, WEB;
    WebFound(s, "http", "http:", "https:");
    SchemeFound(s, "mailto", "mailto:");
    SchemeFound(s, "tel", "tel:");
    AltFound(WEB, Alt(Scheme("mailto"), Scheme("tel")), s);
    AltFound(Scheme("mailto"), Scheme("tel"), s);
  }

  lemma DotsFound(s: string)
    ensures Found(DOTS_SLASH, s)
       <==> |s| >= 2 && s[0] == '.' && (s[1] == '/' || (|s| >= 3 && s[1] == '.' && s[2] == '/'))
  {
    hide Try;
    SeqClass(Is('.'), Seq(Maybe(Class(Is('.'))), SLASH), s, At(0, []));
    SeqAlt(Class(Is('.')), Empty, SLASH, s, At(1, []));
    SeqClass(Is('.'), SLASH, s, At(1, []));
    SeqEmpty(SLASH, s, At(1, []));
    ClassTry(Is('/'), s, At(1, []));
    ClassTry(Is('/'), s, At(2, []));
  }

  lemma SignFound(s: string, c: char)
    ensures Found(Class(Is(c)), s) <==> s != "" && s[0] == c
  {
  }

  lemma Prefixes(s: string, one: string, two: string, slash: string, hash: string)
    requires one == ['.', '/'] && two == ['.', '.', '/'] && slash == ['/'] && hash == ['#']
    ensures slash <= s <==> s != "" && s[0] == '/'
    ensures hash <= s <==> s != "" && s[0] == '#'
    ensures one <= s <==> |s| >= 2 && s[0] == '.' && s[1] == '/'
    ensures two <= s <==> |s| >= 3 && s[0] == '.' && s[1] == '.' && s[2] == '/'
  {
  }

  lemma RelativeFound(s: string)
    ensures Found(RELATIVE, s) <==> "/" <= s || "./" <= s || "../" <= s || "#" <= s
  {
    Prefixes(s, "./", "../", "/", "#");
    DotsFound(s);
    SignFound(s, '/');
    SignFound(s, '#');
    hide Found, DOTS_SLASH;
    AltFound(SLASH, Alt(DOTS_SLASH, Class(Is('#'))), s);
    AltFound(DOTS_SLASH, Class(Is('#')), s);
  }

  /** `safeUrl` with the source's three expressions, in the source's order. */
  lemma SafeUrlMatches(value: string)
    ensures var url := Trim(value);
      SafeUrl(value)
         == if url == "" || Found(REFUSED, url) then None
            else if Found(ACCEPTED, url) || Found(RELATIVE, url) then Some(url) else None
  {
    hide Trim, Found, StartsWithFolded, REFUSED, ACCEPTED, RELATIVE;
    var url := Trim(value);
    RefusedFound(url);
    AcceptedFound(url);
    RelativeFound(url);
  }
}
