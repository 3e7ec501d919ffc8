/** Placeholder accounting: which protected tokens come back, how often, and where. */
module Placeholders {
  import opened Text
  import opened Address
  import opened Escaping
  import opened Html
  import opened Inline
  import opened InlinePieces
  import opened InlineOutput

  const MARK: char := '\U{E000}'

  /** The value before escaping: plain characters and placeholders, no stray U+E000. */
  predicate Drafted(ps: seq<Piece>) {
    forall i | 0 <= i < |ps| :: ps[i].Hole? || (ps[i].Lit? && ps[i].c != MARK)
  }

  function Indices(low: nat, high: nat): (r: seq<int>)
    requires low <= high
    ensures |r| == high - low
    decreases high - low
  {
    if low == high then [] else [low as int] + Indices(low + 1, high)
  }

  /** Where the URL of a link match ends. */
  function UrlStop(link: Link): nat { 3 + |link.text| + |link.url| }

  /** The part of a link match that is not copied: all of it, or the title of a link that is not safe. */
  function Uncopied(s: string, link: Link): string
    requires UrlStop(link) < link.length <= |s|
  {
    s[if SafeUrl(link.url).Some? then 0 else UrlStop(link)..link.length]
  }

  /** No link match drops a placeholder. */
  predicate LinksClear(s: string)
    decreases |s|
  {
    if s == [] then true
    else
      match LinkAt(s)
      case None => LinksClear(s[1..])
      case Some(link) => MARK !in Uncopied(s, link) && LinksClear(s[link.length..])
  }

  // --- The shape of a link match -------------------------------------------------------------------

  lemma TitleShape(s: string, p: nat)
    requires p <= |s| && TitleEnd(s, p) > 0
    ensures p < |s| && IsSpace(s[p]) && s[TitleEnd(s, p) - 1] == ')'
  {
    var q := p + Run(IsSpace, s[p..]);
    assert s[p..][0] == s[p];
    var close := (c: char) => c != ')';
    var r := q + 1 + Run(c => c != ')', s[q + 1..]);
    assert s[q + 1..][r - q - 1] == s[r];
  }

  lemma {:induction false} UrlShape(s: string, p: nat)
    requires p <= |s| && UrlEnd(s, p).Some?
    ensures var (u, e) := UrlEnd(s, p).value; s[e - 1] == ')' && (s[u] == ')' || IsSpace(s[u]))
    decreases |s| - p
  {
    if TitleEnd(s, p) > 0 {
      TitleShape(s, p);
    } else if p < |s| && s[p] != ')' {
      UrlShape(s, p + 1);
    }
  }

  lemma LinkLabel(s: string, link: Link)
    requires LinkAt(s) == Some(link)
    ensures LabelLength(s) == |link.text| > 0 && link.text == s[1..|link.text| + 1]
  {
    hide UrlEnd, LabelLength;
  }

  lemma LinkAddress(s: string, link: Link, n: nat)
    requires LinkAt(s) == Some(link) && n == LabelLength(s) == |link.text|
    ensures n + 4 <= UrlStop(link) < link.length <= |s|
    ensures UrlEnd(s, n + 4) == Some((UrlStop(link), link.length))
    ensures link.url == s[n + 3..UrlStop(link)]
  {
    hide UrlEnd, LabelLength;
  }

  lemma LinkSlices(s: string, n: nat, u: nat)
    requires n + 3 <= u <= |s| && s[0] == '[' && s[n + 1] == ']' && s[n + 2] == '('
    ensures s[..u] == ['['] + s[1..n + 1] + [']', '('] + s[n + 3..u]
  {
    assert s[..u] == s[..1] + s[1..n + 1] + s[n + 1..n + 3] + s[n + 3..u];
    assert s[..1] == ['['] && s[n + 1..n + 3] == [']', '('];
  }

  lemma LinkShape(s: string, link: Link)
    requires LinkAt(s) == Some(link)
    ensures s[..UrlStop(link)] == "[" + link.text + "](" + link.url
    ensures s[link.length - 1] == ')' && (s[UrlStop(link)] == ')' || IsSpace(s[UrlStop(link)]))
  {
    hide LinkAt, UrlEnd, IsSpace, LabelLength;
    var n := |link.text|;
    LinkLabel(s, link);
    LinkAddress(s, link, n);
    UrlShape(s, n + 4);
    LinkSlices(s, n, UrlStop(link));
  }

  // --- Drafts --------------------------------------------------------------------------------------

  /** Characters that cannot stand inside a placeholder. */
  predicate Outside(c: char) { c == '[' || c == ']' || c == ')' || c == '`' || IsSpace(c) }

  lemma HoleChars(i: nat, prefix: string, s: string)
    requires prefix == TOKEN_PREFIX && s == prefix + Decimal(i) + ['\U{E001}']
    ensures |s| > 2 && s[0] == MARK && forall k | 0 <= k < |s| :: !Outside(s[k]) && !IsEscaped(s[k])
  {
    DecimalDigits(i);
    assert forall k | 0 <= k < |prefix| :: !Outside(prefix[k]) && !IsEscaped(prefix[k]);
  }

  lemma DraftPrint(p: Piece, s: string)
    requires s == Print(p) && (p.Hole? || (p.Lit? && p.c != MARK))
    ensures p.Lit? ==> s == [p.c]
    ensures p.Hole? ==> |s| > 2 && s[0] == MARK && forall k | 0 <= k < |s| :: !Outside(s[k]) && !IsEscaped(s[k])
  {
    if p.Hole? { HoleChars(p.index, TOKEN_PREFIX, s); }
  }

  lemma {:induction false} DraftMarks(ps: seq<Piece>)
    requires Drafted(ps)
    ensures MARK in Flatten(ps) <==> Marks(ps) != []
  {
    hide Print;
    if ps != [] {
      DraftMarks(ps[1..]);
      DraftPrint(ps[0], Print(ps[0]));
      if ps[0].Hole? { assert Flatten(ps)[0] == MARK; }
    }
  }

  lemma {:induction false} DraftCut(ps: seq<Piece>, k: nat) returns (j: nat)
    requires Drafted(ps) && k < |Flatten(ps)| && Outside(Flatten(ps)[k])
    ensures j < |ps| && ps[j] == Lit(Flatten(ps)[k])
    ensures Flatten(ps[..j]) == Flatten(ps)[..k] && Flatten(ps[j + 1..]) == Flatten(ps)[k + 1..]
  {
    hide Print, Outside, MarkOf;
    var s := Flatten(ps);
    var first := Print(ps[0]);
    DraftPrint(ps[0], first);
    assert s[..|first|] == first && s[|first|..] == Flatten(ps[1..]);
    if k < |first| {
      assert s[k] == first[k];
      j := 0;
    } else {
      var i := DraftCut(ps[1..], k - |first|);
      j := i + 1;
      assert ps[..j] == [ps[0]] + ps[1..][..i];
      KeepFlatten(ps[0], ps[1..][..i]);
      assert ps[j + 1..] == ps[1..][i + 1..];
    }
  }

  /** Code protection leaves the placeholders in order, one for each new token. */
  lemma {:induction false} CodeDraft(s: string, tokens: seq<string>) returns (ps: seq<Piece>)
    requires MARK !in s
    ensures var r := ProtectCode(s, tokens);
      && |tokens| <= |r.tokens|
      && Drafted(ps) && Flatten(ps) == r.value && Marks(ps) == Indices(|tokens|, |r.tokens|)
    decreases |s|
  {
    hide CodeSpanLength, CodeToken, Placeholder;
    if s == [] { return []; }
    var n := CodeSpanLength(s);
    if n > 0 {
      var tail := CodeDraft(s[n..], tokens + [CodeToken(s[..n])]);
      ps := [Hole(|tokens|)] + tail;
      KeepFlatten(Hole(|tokens|), tail);
      assert ps[1..] == tail;
    } else {
      var tail := CodeDraft(s[1..], tokens);
      ps := [Lit(s[0])] + tail;
      KeepFlatten(Lit(s[0]), tail);
      assert ps[1..] == tail;
    }
  }

  lemma NoLinkStep(s: string, tokens: seq<string>, depth: nat)
    requires s != "" && LinkAt(s) == None
    ensures var r := ProtectLinks(s[1..], tokens, depth);
      ProtectLinks(s, tokens, depth) == Protected([s[0]] + r.value, r.tokens)
    ensures LinksClear(s) == LinksClear(s[1..])
  {
  }

  lemma {:induction false} LinksSkip(a: string, b: string, tokens: seq<string>, depth: nat)
    requires '[' !in a
    ensures ProtectLinks(a + b, tokens, depth)
         == Protected(a + ProtectLinks(b, tokens, depth).value, ProtectLinks(b, tokens, depth).tokens)
    ensures LinksClear(a + b) == LinksClear(b)
  {
    hide ProtectLinks, LinksClear;
    var s := a + b;
    if a == [] {
      assert s == b;
      assert a + ProtectLinks(b, tokens, depth).value == ProtectLinks(b, tokens, depth).value;
    } else {
      assert s[0] == a[0] && s[1..] == a[1..] + b;
      assert LinkAt(s) == None;
      hide LinkAt;
      NoLinkStep(s, tokens, depth);
      LinksSkip(a[1..], b, tokens, depth);
      assert a == [a[0]] + a[1..];
    }
  }

  /** The pieces of a link match, cut where its URL stops and where it ends. */
  lemma LinkDraft(ps: seq<Piece>, s: string, link: Link) returns (i: nat, j: nat)
    requires Drafted(ps) && s == Flatten(ps) && LinkAt(s) == Some(link)
    ensures i < j <= |ps| && ps[j - 1] == Lit(')')
    ensures Flatten(ps[..i]) == s[..UrlStop(link)] == "[" + link.text + "](" + link.url
    ensures Flatten(ps[i..j]) == s[UrlStop(link)..link.length]
    ensures Flatten(ps[..j]) == s[..link.length] && Flatten(ps[j..]) == s[link.length..]
  {
    hide Print, Flatten, LinkAt;
    LinkShape(s, link);
    var u, e := UrlStop(link), link.length;
    i := DraftCut(ps, u);
    var k := DraftCut(ps, e - 1);
    j := k + 1;
    assert ps[..j] == ps[..k] + [ps[k]];
    FlattenConcat(ps[..k], [ps[k]]);
    FlattenOne(Lit(')'));
    LitPrint(')');
    assert s[..e] == s[..e - 1] + [s[e - 1]];
    CutOrder(ps, i, j, s, u, e);
  }

  lemma LitPrint(c: char)
    ensures Print(Lit(c)) == [c]
  {
  }

  lemma LongerFront(ps: seq<Piece>, i: nat, j: nat)
    requires i <= j <= |ps|
    ensures Flatten(ps[..j]) == Flatten(ps[..i]) + Flatten(ps[i..j])
  {
    assert ps[..j] == ps[..i] + ps[i..j];
    FlattenConcat(ps[..i], ps[i..j]);
  }

  /** Two cuts of the same pieces are in the order of their positions. */
  lemma CutOrder(ps: seq<Piece>, i: nat, j: nat, s: string, u: nat, e: nat)
    requires i <= |ps| && j <= |ps| && u < e <= |s|
    requires Flatten(ps[..i]) == s[..u] && Flatten(ps[..j]) == s[..e]
    ensures i < j && Flatten(ps[i..j]) == s[u..e]
  {
    hide Print, Flatten;
    if j <= i { LongerFront(ps, j, i); }
    LongerFront(ps, i, j);
    assert s[..e] == s[..u] + s[u..e];
  }

  /** A front without a link is copied piece by piece. */
  lemma NoLinkInFront(p: Piece, rest: string, tokens: seq<string>, depth: nat)
    requires p.Hole? || p.Lit?
    requires LinkAt(Print(p) + rest) == None
    ensures var r := ProtectLinks(rest, tokens, depth);
      ProtectLinks(Print(p) + rest, tokens, depth) == Protected(Print(p) + r.value, r.tokens)
    ensures LinksClear(Print(p) + rest) == LinksClear(rest)
  {
    var s := Print(p) + rest;
    if p.Hole? {
      HoleChars(p.index, TOKEN_PREFIX, Print(p));
      LinksSkip(Print(p), rest, tokens, depth);
    } else {
      LitPrint(p.c);
      assert s[0] == p.c && s[1..] == rest;
    }
  }

  /** The placeholders there were and the new ones are the ones there are and the lost ones. */
  ghost predicate Accounts(before: seq<int>, created: seq<int>, after: seq<int>, lost: seq<int>) {
    multiset(after) + multiset(lost) == multiset(before) + multiset(created)
  }

  lemma AccountsKeep(kept: seq<int>, dropped: seq<int>, before: seq<int>, created: seq<int>,
                     after: seq<int>, lost: seq<int>)
    requires Accounts(before, created, after, lost)
    ensures Accounts(kept + dropped + before, created, kept + after, dropped + lost)
  {
    assert multiset(kept + dropped + before) == multiset(kept) + multiset(dropped) + multiset(before);
    assert multiset(kept + after) == multiset(kept) + multiset(after);
    assert multiset(dropped + lost) == multiset(dropped) + multiset(lost);
    assert (multiset(kept) + multiset(after)) + (multiset(dropped) + multiset(lost))
        == (multiset(kept) + multiset(dropped)) + (multiset(after) + multiset(lost));
  }

  lemma AccountsNew(i: int, dropped: seq<int>, before: seq<int>, created: seq<int>, after: seq<int>, lost: seq<int>)
    requires Accounts(before, created, after, lost)
    ensures Accounts(dropped + before, [i] + created, [i] + after, dropped + lost)
  {
    assert multiset(dropped + before) == multiset(dropped) + multiset(before);
    assert multiset([i] + created) == multiset{i} + multiset(created);
    assert multiset([i] + after) == multiset{i} + multiset(after);
    assert multiset(dropped + lost) == multiset(dropped) + multiset(lost);
    assert (multiset{i} + multiset(after)) + (multiset(dropped) + multiset(lost))
        == (multiset{i} + multiset(dropped)) + (multiset(after) + multiset(lost));
  }

  ghost predicate LinksAccounted(ps: seq<Piece>, s: string, tokens: seq<string>, depth: nat,
                                 qs: seq<Piece>, lost: seq<int>) {
    var r := ProtectLinks(s, tokens, depth);
    && |tokens| <= |r.tokens|
    && Drafted(qs) && Flatten(qs) == r.value
    && Accounts(Marks(ps), Indices(|tokens|, |r.tokens|), Marks(qs), lost)
    && (lost == [] <==> LinksClear(s))
    && HasAll(Marks(qs), |tokens|, |r.tokens|)
  }

  /** The placeholders with these numbers are all there. */
  ghost predicate HasAll(marks: seq<int>, low: nat, high: nat) { forall m: int | low <= m < high :: m in marks }

  lemma HasAllMore(front: seq<int>, marks: seq<int>, low: nat, high: nat)
    requires HasAll(marks, low, high)
    ensures HasAll(front + marks, low, high)
  {
  }

  lemma HasAllNew(marks: seq<int>, low: nat, high: nat)
    requires HasAll(marks, low + 1, high)
    ensures HasAll([low as int] + marks, low, high)
  {
    assert ([low as int] + marks)[0] == low as int;
    HasAllMore([low as int], marks, low + 1, high);
  }

  /** Link protection neither duplicates nor invents placeholders; `lost` are the ones a match dropped. */
  lemma {:induction false} LinksDraft(ps: seq<Piece>, s: string, tokens: seq<string>, depth: nat)
    returns (qs: seq<Piece>, lost: seq<int>)
    requires Drafted(ps) && s == Flatten(ps)
    ensures LinksAccounted(ps, s, tokens, depth, qs, lost)
    decreases |ps|, 1
  {
    if ps == [] {
      assert s == "" && Accounts([], [], [], []);
      return [], [];
    }
    hide LinksAccounted, Flatten, Print, ProtectLinks, LinkToken, Drafted;
    FlattenFirst(ps);
    DraftedTail(ps);
    match LinkAt(s)
    case None =>
      var tail;
      tail, lost := LinksDraft(ps[1..], Flatten(ps[1..]), tokens, depth);
      qs := StepNoLink(ps, s, tokens, depth, tail, lost);
    case Some(link) =>
      var i, j := LinkDraft(ps, s, link);
      var tail, later;
      if SafeUrl(link.url).None? {
        tail, later := LinksDraft(ps[j..], s[link.length..], tokens, depth);
        qs, lost := StepUnsafeLink(ps, s, link, tokens, depth, i, j, tail, later);
      } else {
        var token := LinkToken(link, depth);
        tail, later := LinksDraft(ps[j..], s[link.length..], tokens + [token], depth);
        qs, lost := StepSafeLink(ps, s, link, tokens, depth, i, j, tail, later);
      }
  }

  lemma DraftedTail(ps: seq<Piece>)
    requires Drafted(ps)
    ensures forall j | 0 <= j <= |ps| :: Drafted(ps[j..])
  {
  }

  lemma StepNoLink(ps: seq<Piece>, s: string, tokens: seq<string>, depth: nat, tail: seq<Piece>, lost: seq<int>)
    returns (qs: seq<Piece>)
    requires ps != [] && Drafted(ps) && s == Flatten(ps) && LinkAt(s) == None
    requires LinksAccounted(ps[1..], Flatten(ps[1..]), tokens, depth, tail, lost)
    ensures LinksAccounted(ps, s, tokens, depth, qs, lost)
  {
    hide Print, Flatten, LinkAt, ProtectLinks, Marks, LinksClear;
    var p, rest := ps[0], Flatten(ps[1..]);
    FlattenFirst(ps);
    NoLinkInFront(p, rest, tokens, depth);
    qs := [p] + tail;
    KeepFlatten(p, tail);
    MarksConcat([p], tail);
    MarksConcat([p], ps[1..]);
    assert ps == [p] + ps[1..];
    var created := Indices(|tokens|, |ProtectLinks(rest, tokens, depth).tokens|);
    AccountsKeep(Marks([p]), [], Marks(ps[1..]), created, Marks(tail), lost);
    HasAllMore(Marks([p]), Marks(tail), |tokens|, |ProtectLinks(rest, tokens, depth).tokens|);
    assert Marks([p]) + [] + Marks(ps[1..]) == Marks(ps) && [] + lost == lost;
  }

  lemma UnsafeLinkCopied(s: string, link: Link, tokens: seq<string>, depth: nat)
    requires s != "" && LinkAt(s) == Some(link) && SafeUrl(link.url).None?
    ensures var r := ProtectLinks(s[link.length..], tokens, depth);
      ProtectLinks(s, tokens, depth) == Protected("[" + link.text + "](" + link.url + ")" + r.value, r.tokens)
    ensures LinksClear(s) <==> MARK !in s[UrlStop(link)..link.length] && LinksClear(s[link.length..])
  {
  }

  lemma SafeLinkReplaced(s: string, link: Link, tokens: seq<string>, depth: nat)
    requires s != "" && LinkAt(s) == Some(link) && SafeUrl(link.url).Some?
    ensures var r := ProtectLinks(s[link.length..], tokens + [LinkToken(link, depth)], depth);
      ProtectLinks(s, tokens, depth) == Protected(Placeholder(|tokens|) + r.value, r.tokens)
    ensures LinksClear(s) <==> MARK !in s[..link.length] && LinksClear(s[link.length..])
  {
    assert s[0..link.length] == s[..link.length];
  }

  lemma StepUnsafeLink(ps: seq<Piece>, s: string, link: Link, tokens: seq<string>, depth: nat,
        i: nat, j: nat, tail: seq<Piece>, later: seq<int>)
    returns (qs: seq<Piece>, lost: seq<int>)
    requires i < j <= |ps| && Drafted(ps) && s != "" && LinkAt(s) == Some(link) && SafeUrl(link.url).None?
    requires Flatten(ps[..i]) == "[" + link.text + "](" + link.url
    requires Flatten(ps[i..j]) == s[UrlStop(link)..link.length]
    requires LinksAccounted(ps[j..], s[link.length..], tokens, depth, tail, later)
    ensures LinksAccounted(ps, s, tokens, depth, qs, lost)
  {
    var close := [Lit(')')];
    CloseHasNoMark();
    LitPrint(')');
    FlattenOne(Lit(')'));
    hide Print, Marks, Flatten, LinkAt, LinksClear, SafeUrl, ProtectLinks;
    var r := ProtectLinks(s[link.length..], tokens, depth);
    UnsafeLinkCopied(s, link, tokens, depth);
    var kept := ps[..i] + close;
    qs := kept + tail;
    lost := Marks(ps[i..j]) + later;
    FlattenConcat(kept, tail);
    FlattenConcat(ps[..i], close);
    MarksConcat(kept, tail);
    MarksConcat(ps[..i], close);
    MarksConcat(ps[..j], ps[j..]);
    MarksConcat(ps[..i], ps[i..j]);
    assert ps[..j] == ps[..i] + ps[i..j] && ps == ps[..j] + ps[j..];
    DraftMarks(ps[i..j]);
    AccountsKeep(Marks(ps[..i]), Marks(ps[i..j]), Marks(ps[j..]), Indices(|tokens|, |r.tokens|), Marks(tail), later);
    HasAllMore(Marks(kept), Marks(tail), |tokens|, |r.tokens|);
  }

  lemma StepSafeLink(ps: seq<Piece>, s: string, link: Link, tokens: seq<string>, depth: nat,
        i: nat, j: nat, tail: seq<Piece>, later: seq<int>)
    returns (qs: seq<Piece>, lost: seq<int>)
    requires i < j <= |ps| && Drafted(ps) && s != "" && LinkAt(s) == Some(link) && SafeUrl(link.url).Some?
    requires Flatten(ps[..j]) == s[..link.length]
    requires LinksAccounted(ps[j..], s[link.length..], tokens + [LinkToken(link, depth)], depth, tail, later)
    ensures LinksAccounted(ps, s, tokens, depth, qs, lost)
  {
    hide Print, Marks, Flatten, LinkAt, LinksClear, SafeUrl, ProtectLinks, LinkToken, Placeholder;
    var n := |tokens|;
    var r := ProtectLinks(s[link.length..], tokens + [LinkToken(link, depth)], depth);
    SafeLinkReplaced(s, link, tokens, depth);
    var hole := Hole(n);
    HolePrint(n);
    HoleMark(n);
    qs := [hole] + tail;
    lost := Marks(ps[..j]) + later;
    KeepFlatten(hole, tail);
    MarksConcat([hole], tail);
    MarksConcat(ps[..j], ps[j..]);
    assert ps == ps[..j] + ps[j..];
    DraftMarks(ps[..j]);
    AccountsNew(n, Marks(ps[..j]), Marks(ps[j..]), Indices(n + 1, |r.tokens|), Marks(tail), later);
    HasAllNew(Marks(tail), n, |r.tokens|);
  }

  lemma CloseHasNoMark()
    ensures Marks([Lit(')')]) == []
  {
  }

  lemma HolePrint(i: nat)
    ensures Print(Hole(i)) == Placeholder(i)
  {
  }

  lemma HoleMark(i: nat)
    ensures Marks([Hole(i)]) == [i as int]
  {
    assert [Hole(i)][1..] == [];
    assert Marks([Hole(i)]) == MarkOf(Hole(i)) + Marks([]);
  }

  // --- After escaping ------------------------------------------------------------------------------

  lemma {:induction false} EscapePlain(s: string)
    requires forall i | 0 <= i < |s| :: !IsEscaped(s[i])
    ensures EscapeHtml(s) == s
  {
    EscapeIsPointwise(s);
    hide EscapeHtml;
    if s != [] {
      EscapeIsPointwise(s[1..]);
      EscapePlain(s[1..]);
    }
  }

  lemma EscapePiece(p: Piece, s: string) returns (q: Piece)
    requires s == Print(p) && (p.Hole? || (p.Lit? && p.c != MARK))
    ensures Inert(q) && Print(q) == EscapeHtml(s) && MarkOf(q) == MarkOf(p)
  {
    if p.Hole? {
      DraftPrint(p, s);
      EscapePlain(s);
      q := p;
    } else {
      EscapeOneAs(p.c, Entity(p.c));
      q := if IsEscaped(p.c) then Ent(p.c) else p;
    }
  }

  lemma {:induction false} EscapeDraft(ps: seq<Piece>) returns (qs: seq<Piece>)
    requires Drafted(ps)
    ensures AllInert(qs) && Flatten(qs) == EscapeHtml(Flatten(ps)) && Marks(qs) == Marks(ps)
  {
    if ps == [] {
      EscapePlain("");
      return [];
    }
    var tail := EscapeDraft(ps[1..]);
    var q := EscapePiece(ps[0], Print(ps[0]));
    EscapeConcat(Print(ps[0]), Flatten(ps[1..]));
    hide Print, EscapeHtml, Inert, MarkOf;
    qs := [q] + tail;
    KeepFlatten(q, tail);
    assert qs[1..] == tail;
  }

  // --- Restoring -----------------------------------------------------------------------------------

  lemma {:induction false} ValueOfDecimal(n: nat)
    ensures Value(Decimal(n)) == n
  {
    var d := Decimal(n);
    DecimalDigits(n);
    if n >= 10 {
      ValueOfDecimal(n / 10);
      assert d[..|d| - 1] == Decimal(n / 10) && d[|d| - 1] == Digit(n % 10);
    } else {
      assert d[..0] == "" && Value("") == 0;
    }
  }

  lemma {:induction false} RunExactly(p: char -> bool, a: string, b: string)
    requires forall i | 0 <= i < |a| :: p(a[i])
    requires b != "" && !p(b[0])
    ensures Run(p, a + b) == |a|
  {
    if a == [] {
      assert a + b == b;
    } else {
      assert (a + b)[0] == a[0] && (a + b)[1..] == a[1..] + b;
      RunExactly(p, a[1..], b);
    }
  }

  lemma RestorePlaceholder(i: nat, rest: string, tokens: seq<string>)
    ensures Restore(Placeholder(i) + rest, tokens) == Lookup(Decimal(i), tokens) + Restore(rest, tokens)
  {
    PlaceholderRecognised(i, rest, TOKEN_PREFIX, TOKEN_SUFFIX);
    var s := Placeholder(i) + rest;
    hide PlaceholderLength, Lookup, Decimal;
    assert s[|TOKEN_PREFIX|..|Placeholder(i)| - 1] == Decimal(i);
    assert s[|Placeholder(i)|..] == rest;
  }

  lemma PlaceholderRecognised(i: nat, rest: string, prefix: string, suffix: string)
    requires prefix == TOKEN_PREFIX && suffix == TOKEN_SUFFIX
    ensures PlaceholderLength(prefix + Decimal(i) + suffix + rest) == |prefix + Decimal(i) + suffix|
  {
    hide Decimal, Run, PlaceholderLength;
    var d := Decimal(i);
    DecimalDigits(i);
    var s := prefix + d + suffix + rest;
    var k := |prefix|;
    assert s[..k] == prefix && s[k..] == d + (suffix + rest);
    SuffixIsNoDigit(suffix, rest);
    RunExactly(IsDigit, d, suffix + rest);
    assert s[k + |d|..k + |d| + 1] == suffix;
    DigitsRecognised(s, prefix, |d|);
  }

  lemma SuffixIsNoDigit(suffix: string, rest: string)
    requires suffix == TOKEN_SUFFIX
    ensures |suffix| == 1 && !IsDigit((suffix + rest)[0])
  {
    assert (suffix + rest)[0] == suffix[0];
  }

  lemma DigitsRecognised(s: string, prefix: string, d: nat)
    requires prefix == TOKEN_PREFIX && d > 0 && |prefix| + d + 1 <= |s| && s[..|prefix|] == prefix
    requires Run(IsDigit, s[|prefix|..]) == d && s[|prefix| + d..|prefix| + d + 1] == TOKEN_SUFFIX
    ensures PlaceholderLength(s) == |prefix| + d + 1
  {
    hide Run, IsDigit;
  }

  /** The value with every placeholder replaced by its token. */
  function Fill(ps: seq<Piece>, tokens: seq<string>): string
    requires forall i | 0 <= i < |ps| :: ps[i].Hole? ==> ps[i].index < |tokens|
  {
    if ps == [] then ""
    else (if ps[0].Hole? then tokens[ps[0].index] else Print(ps[0])) + Fill(ps[1..], tokens)
  }

  predicate MarksBelow(marks: seq<int>, n: nat) { forall i | 0 <= i < |marks| :: 0 <= marks[i] < n }

  lemma {:induction false} MarksBound(ps: seq<Piece>, n: nat)
    requires MarksBelow(Marks(ps), n)
    ensures forall i | 0 <= i < |ps| :: (ps[i].Hole? ==> ps[i].index < n) && ps[i] != Lit(MARK)
  {
    if ps != [] {
      var first, rest := MarkOf(ps[0]), Marks(ps[1..]);
      assert forall i | 0 <= i < |first| :: first[i] == (first + rest)[i];
      assert forall i | 0 <= i < |rest| :: rest[i] == (first + rest)[|first| + i];
      MarksBound(ps[1..], n);
      assert forall i | 0 <= i < |first| :: 0 <= first[i] < n;
      assert |first| == 1 ==> 0 <= first[0] < n;
    }
  }

  lemma {:induction false} RestoreFills(ps: seq<Piece>, tokens: seq<string>)
    requires AllInert(ps)
    requires forall i | 0 <= i < |ps| :: (ps[i].Hole? ==> ps[i].index < |tokens|) && ps[i] != Lit(MARK)
    ensures Restore(Flatten(ps), tokens) == Fill(ps, tokens)
  {
    if ps != [] {
      var first, rest := Print(ps[0]), Flatten(ps[1..]);
      InertPrint(ps[0], first);
      RestoreFills(ps[1..], tokens);
      if ps[0].Hole? {
        RestorePlaceholder(ps[0].index, rest, tokens);
        ValueOfDecimal(ps[0].index);
      } else {
        hide Print;
        RestoreSkips(first, rest, tokens);
      }
    }
  }

  // --- The theorems --------------------------------------------------------------------------------

  lemma {:induction false} IndicesBound(low: nat, high: nat)
    requires low <= high
    ensures forall i | 0 <= i < |Indices(low, high)| :: low <= Indices(low, high)[i] < high
    decreases high - low
  {
    if low < high { IndicesBound(low + 1, high); }
  }

  lemma AccountedBound(after: seq<int>, lost: seq<int>, n: nat)
    requires Accounts([], Indices(0, n), after, lost)
    ensures MarksBelow(after, n)
  {
    var all := Indices(0, n);
    IndicesBound(0, n);
    forall i | 0 <= i < |after| ensures 0 <= after[i] < n {
      assert after[i] in multiset(after);
      assert after[i] in multiset([]) + multiset(all);
      assert after[i] in all;
    }
  }

  /** The placeholders of a source without U+E000, up to the point where they are restored. */
  lemma ProtectDraft(source: string, depth: nat) returns (ps: seq<Piece>, lost: seq<int>)
    requires MARK !in source
    ensures var p := Protect(source, depth);
      && Drafted(ps) && Flatten(ps) == p.value
      && Accounts([], Indices(0, |p.tokens|), Marks(ps), lost)
      && (lost == [] <==> LinksClear(ProtectCode(source, []).value))
  {
    hide ProtectCode, ProtectLinks, LinksClear, Marks, Flatten, Drafted;
    var code := ProtectCode(source, []);
    var qs := CodeDraft(source, []);
    ps, lost := LinksDraft(qs, code.value, code.tokens, depth);
    var n, m := |code.tokens|, |Protect(source, depth).tokens|;
    IndicesConcat(0, n, m);
    assert multiset(Indices(0, n) + Indices(n, m)) == multiset(Indices(0, n)) + multiset(Indices(n, m));
    assert multiset([]) + multiset(Indices(0, m)) == multiset(Indices(0, m));
  }

  lemma {:induction false} IndicesConcat(low: nat, middle: nat, high: nat)
    requires low <= middle <= high
    ensures Indices(low, middle) + Indices(middle, high) == Indices(low, high)
    decreases middle - low
  {
    if low < middle {
      IndicesConcat(low + 1, middle, high);
      assert Indices(low, middle) + Indices(middle, high)
          == [low as int] + (Indices(low + 1, middle) + Indices(middle, high));
    } else {
      assert [] + Indices(middle, high) == Indices(middle, high);
    }
  }

  /** For a source without U+E000, the output is the rewritten value with every remaining placeholder
      replaced by its own token, no token is inserted twice, and each is inserted exactly once if and
      only if no link match dropped a placeholder. */
  lemma RestoredOnce(source: string, depth: nat) returns (ps: seq<Piece>)
    requires source != "" && MARK !in source
    ensures var p := Protect(source, depth);
      && AllInert(ps) && Flatten(ps) == Emphasize(EscapeHtml(p.value))
      && (forall i | 0 <= i < |ps| :: (ps[i].Hole? ==> ps[i].index < |p.tokens|) && ps[i] != Lit(MARK))
      && RenderInline(source, depth) == Fill(ps, p.tokens)
      && multiset(Marks(ps)) <= multiset(Indices(0, |p.tokens|))
      && (multiset(Marks(ps)) == multiset(Indices(0, |p.tokens|)) <==> LinksClear(ProtectCode(source, []).value))
  {
    var p := Protect(source, depth);
    assert RenderInline(source, depth) == Restore(Emphasize(EscapeHtml(p.value)), p.tokens);
    hide RenderInline, Protect, Emphasize, EscapeHtml, Restore, LinksClear, ProtectCode, Marks, Flatten, Inert, Fill;
    var draft, lost := ProtectDraft(source, depth);
    var escaped := EscapeDraft(draft);
    ps := EmphasizeRefines(escaped);
    AccountedBound(Marks(ps), lost, |p.tokens|);
    MarksBound(ps, |p.tokens|);
    RestoreFills(ps, p.tokens);
    AllOrLost(Marks(ps), lost, Indices(0, |p.tokens|));
  }

  lemma AllOrLost(after: seq<int>, lost: seq<int>, all: seq<int>)
    requires Accounts([], all, after, lost)
    ensures multiset(after) <= multiset(all)
    ensures multiset(after) == multiset(all) <==> lost == []
  {
    assert multiset(after) + multiset(lost) == multiset(all);
    assert |multiset(lost)| == |lost|;
    if multiset(after) == multiset(all) {
      assert |multiset(after)| + |multiset(lost)| == |multiset(all)|;
    }
  }

  // --- A code span inside a link is lost -----------------------------------------------------------

  lemma {:induction false} NoCodeSpan(s: string, tokens: seq<string>)
    requires '`' !in s
    ensures ProtectCode(s, tokens) == Protected(s, tokens)
    decreases |s|
  {
    if s != [] {
      NoCodeSpan(s[1..], tokens);
      assert s == [s[0]] + s[1..];
    }
  }

  lemma PlaceholderNoBracket(i: nat, prefix: string)
    requires prefix == TOKEN_PREFIX
    ensures ']' !in prefix + Decimal(i) + TOKEN_SUFFIX
  {
    DecimalDigits(i);
    assert ']' !in prefix;
  }

  lemma BracketFreePlaceholder(i: nat)
    ensures ']' !in Placeholder(i)
  {
    PlaceholderNoBracket(i, TOKEN_PREFIX);
  }

  lemma PlaceholderIsPlain(i: nat, s: string)
    requires s == Placeholder(i)
    ensures s != "" && NoSpecial(s) && '[' !in s && '`' !in s && ']' !in s && '\n' !in s
    ensures forall k | 0 <= k < |s| :: !IsEscaped(s[k]) && !IsSpace(s[k])
  {
    DraftPrint(Hole(i), s);
    InertPrint(Hole(i), s);
    BracketFreePlaceholder(i);
    PlaceholderNoTick(i, TOKEN_PREFIX);
  }

  lemma PlaceholderNoTick(i: nat, prefix: string)
    requires prefix == TOKEN_PREFIX
    ensures '`' !in prefix + Decimal(i) + TOKEN_SUFFIX
  {
    DecimalDigits(i);
    assert '`' !in prefix;
  }

  lemma PlainPasses(s: string)
    requires s != "" && NoSpecial(s) && forall k | 0 <= k < |s| :: !IsEscaped(s[k])
    ensures Emphasize(EscapeHtml(s)) == s
  {
    EscapePlain(s);
    hide EscapeHtml;
    assert s + "" == s;
    DoubledSkips(s, "", '*', Strong);
    DoubledSkips(s, "", '_', Strong);
    DoubledSkips(s, "", '~', Del);
    SingleSkips(s, "", '*', Em, true);
    SingleSkips(s, "", '_', Em, true);
    HardBreaksSkips(s, "");
    ReplaceAbsent(s, '\n', " ");
  }

  /** A placeholder that reaches a link label is rendered against the label's own, empty token list. */
  lemma LabelLosesPlaceholder(i: nat, depth: nat)
    ensures RenderInline(Placeholder(i), depth) == "undefined"
  {
    var s := Placeholder(i);
    PlaceholderIsPlain(i, s);
    NoCodeSpan(s, []);
    LinksSkip(s, "", [], depth);
    assert s + "" == s;
    assert Protect(s, depth) == Protected(s, []);
    PlainPasses(s);
    RestorePlaceholder(i, "", []);
    assert RenderInline(s, depth) == Restore(s, []);
  }

  lemma {:induction false} BodyExactly(a: string, b: string, mark: char)
    requires mark !in a && '\n' !in a && b != "" && b[0] == mark
    ensures BodyLength(a + b, mark) == |a|
  {
    if a == [] {
      assert a + b == b;
    } else {
      assert (a + b)[0] == a[0] && (a + b)[1..] == a[1..] + b;
      BodyExactly(a[1..], b, mark);
    }
  }

  lemma CodeSpanExactly(code: string, rest: string)
    requires code != "" && '`' !in code && '\n' !in code
    ensures CodeSpanLength(['`'] + code + ['`'] + rest) == |code| + 2
  {
    var s := ['`'] + code + ['`'] + rest;
    assert s[1..] == code + (['`'] + rest);
    BodyExactly(code, ['`'] + rest, '`');
  }

  /** The end of a link to `/x`: `)` at the end of the text. */
  lemma SlashUrlEnd(s: string, p: nat)
    requires p + 2 == |s| && s[p] == 'x' && s[p + 1] == ')'
    ensures UrlEnd(s, p) == Some((p + 1, p + 2))
  {
    assert s[p..][0] == 'x' && s[p + 1..][0] == ')';
    assert TitleEnd(s, p) == 0 && TitleEnd(s, p + 1) == 0;
    assert UrlEnd(s, p + 1) == Some((p + 1, p + 2));
  }

  lemma SimpleLabel(text: string, tail: string)
    requires text != "" && ']' !in text && '\n' !in text && tail == ['(', '/', 'x', ')']
    ensures LabelLength(['['] + text + [']'] + tail) == |text|
  {
    var s := ['['] + text + [']'] + tail;
    assert s[1..] == text + ([']'] + tail);
    BodyExactly(text, [']'] + tail, ']');
    hide BodyLength;
    assert s[|text| + 1] == ']' && s[|text| + 2] == '(' && s[|text| + 3] == '/';
  }

  /** The link `[text](/x)`, with its closing part as a parameter. */
  lemma SimpleLink(text: string, tail: string)
    requires text != "" && ']' !in text && '\n' !in text && tail == ['(', '/', 'x', ')']
    ensures LinkAt(['['] + text + [']'] + tail) == Some(Link(|text| + 6, text, ['/', 'x']))
  {
    hide LabelLength, UrlEnd, TitleEnd;
    var s := ['['] + text + [']'] + tail;
    var n := |text|;
    SimpleLabel(text, tail);
    SlashUrlEnd(s, n + 4);
    assert s[n + 3..n + 5] == ['/', 'x'] && s[1..n + 1] == text;
  }

  lemma SlashUrl(url: string)
    requires url == ['/', 'x']
    ensures SafeUrl(url) == Some(url) && EscapeAttribute(url) == url
  {
    assert Run(IsSpace, url) == 0;
    assert TrimStart(url) == url && TrimEnd(url) == url;
    assert !StartsWithFolded(url, "javascript:") && !StartsWithFolded(url, "vbscript:");
    assert "/" <= url;
    EscapePlain(url);
    ReplaceAbsent(url, '`', "&#96;");
  }

  lemma ProtectSpanInLink(code: string, tail: string) returns (token: string)
    requires code != "" && '`' !in code && '\n' !in code && tail == [']', '(', '/', 'x', ')']
    ensures ProtectCode(['['] + (['`'] + code + ['`'] + tail), []) == Protected(['['] + (Placeholder(0) + tail), [token])
  {
    var span := ['`'] + code + ['`'];
    CodeSpanExactly(code, tail);
    var inner := span + tail;
    token := CodeToken(inner[..|span|]);
    NoCodeSpan(tail, [token]);
    assert inner[|span|..] == tail;
    assert [] + [token] == [token];
    assert ProtectCode(inner, []) == Protected(Placeholder(0) + tail, [token]);
    var s := ['['] + inner;
    assert s[1..] == inner && CodeSpanLength(s) == 0;
  }

  /** The anchor of a link whose label is a placeholder. */
  lemma LabelToken(link: Link)
    requires link.text == Placeholder(0) && link.url == ['/', 'x']
    ensures SafeUrl(link.url).Some? && LinkToken(link, 0) == LinkOpenText(link.url) + "undefined" + CloseText(Anchor)
  {
    LabelLosesPlaceholder(0, 1);
    SlashUrl(link.url);
    hide Placeholder, RenderInline, EscapeAttribute, SafeUrl, LinkOpenText, CloseText;
  }

  /** A code span in the label of a safe link never shows: whatever the code is, the reader sees "undefined". */
  lemma CodeSpanInLinkIsLost(code: string, tail: string, url: string)
    requires code != "" && '`' !in code && '\n' !in code
    requires tail == [']', '(', '/', 'x', ')'] && url == ['/', 'x']
    ensures RenderInline(['['] + (['`'] + code + ['`'] + tail), 0) == LinkOpenText(url) + "undefined" + CloseText(Anchor)
  {
    hide ProtectCode, RenderInline, Emphasize, EscapeHtml, ProtectLinks, Placeholder, LinkAt, SafeUrl,
         LinkOpenText, CloseText, LinkToken;
    var source := ['['] + (['`'] + code + ['`'] + tail);
    var codeToken := ProtectSpanInLink(code, tail);
    PlaceholderIsPlain(0, Placeholder(0));
    var value := ['['] + (Placeholder(0) + tail);
    assert value == ['['] + Placeholder(0) + [']'] + tail[1..];
    SimpleLink(Placeholder(0), tail[1..]);
    var link := Link(|Placeholder(0)| + 6, Placeholder(0), url);
    LabelToken(link);
    SafeLinkReplaced(value, link, [codeToken], 0);
    assert value[link.length..] == "";
    var token := LinkToken(link, 0);
    NothingToProtect([codeToken, token]);
    assert [codeToken] + [token] == [codeToken, token];
    assert Protect(source, 0) == Protected(Placeholder(1) + "", [codeToken, token]);
    FinishSingle(source, 1, [codeToken, token]);
  }

  lemma NothingToProtect(tokens: seq<string>)
    ensures ProtectLinks("", tokens, 0) == Protected("", tokens)
  {
  }

  lemma FinishSingle(source: string, i: nat, tokens: seq<string>)
    requires source != "" && i < |tokens| && Protect(source, 0) == Protected(Placeholder(i) + "", tokens)
    ensures RenderInline(source, 0) == tokens[i]
  {
    hide Protect, Emphasize, EscapeHtml, Restore, Placeholder, Decimal;
    assert Placeholder(i) + "" == Placeholder(i);
    PlaceholderIsPlain(i, Placeholder(i));
    PlainPasses(Placeholder(i));
    RestorePlaceholder(i, "", tokens);
    ValueOfDecimal(i);
    EmptyRestore(tokens);
  }

  lemma EmptyRestore(tokens: seq<string>)
    ensures Restore("", tokens) == ""
  {
  }
}
